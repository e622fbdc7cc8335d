/** What materialization promises, and the loops that compute it. */
module NamespaceResults {
  import opened Common
  import opened Crdt
  import opened Order
  import opened Namespace

  predicate From(x: Placement, c: Claim) { x.claimed == c.path && x.claim == c.id && x.oid == c.oid }

  ghost predicate UniqueIds(s: set<Claim>) {
    forall c, d :: c in s && d in s && c.id == d.id ==> c == d
  }

  /** `c` has the least (creator, object, claim) among the claims on its path. */
  ghost predicate Best(s: set<Claim>, c: Claim) {
    c in s && forall d :: d in s && d.path == c.path && d != c ==> RankLess(c, d)
  }

  /**
   * Conflict resolution, stated without saying how it is done: claims and placements
   * correspond one to one, paths are distinct, a requested path goes to its best claim and
   * to nobody else.
   */
  ghost predicate Resolved(s: set<Claim>, r: set<Placement>) {
    && (forall c :: c in s ==> exists x :: x in r && From(x, c))
    && (forall x :: x in r ==> exists c :: c in s && From(x, c))
    && (forall x, y :: x in r && y in r && x.claim == y.claim ==> x == y)
    && (forall x, y :: x in r && y in r && x.path == y.path ==> x == y)
    && ToTheBest(s, r)
  }

  /** A requested path is taken, by its best claim. */
  ghost predicate ToTheBest(s: set<Claim>, r: set<Placement>) {
    && (forall x :: x in r && x.path in Paths(s) ==> exists c :: Best(s, c) && x == Won(c))
    && (forall p :: p in Paths(s) ==> exists x :: x in r && x.path == p)
  }

  /** No loser takes a path that some claim asks for. */
  lemma LosersStayOff(s: set<Claim>, r: set<Placement>, x: Placement)
    requires Resolved(s, r) && x in r && x.path != x.claimed
    ensures x.path !in Paths(s)
  {
  }

  // ---------------------------------------------------------------- winners and losers

  lemma RankedFacts(s: set<Claim>, p: Path)
    requires p in Paths(s)
    ensures var g := Ranked(s, p);
      && g != [] && Best(s, g[0]) && g[0].path == p
      && Elements(g[1..]) == At(s, p) - {g[0]} && Distinct(g[1..])
  {
    ClaimOrder();
    RankedNonempty(s, p);
    var g := Ranked(s, p);
    assert Elements(g) == At(s, p);
    forall d | d in s && d.path == p && d != g[0] ensures RankLess(g[0], d) {
      assert d in Elements(g);
    }
    assert Elements(g[1..]) == Elements(g) - {g[0]};
  }

  ghost predicate OnPaths(s: set<Claim>, ps: seq<Path>) {
    Distinct(ps) && forall p :: p in ps ==> p in Paths(s)
  }

  /** The winners of `ps` are the best claims of each path. */
  lemma {:induction false} WinnersBest(s: set<Claim>, ps: seq<Path>, i: nat)
    requires OnPaths(s, ps) && i < |ps|
    ensures Best(s, Winners(s, ps)[i]) && Winners(s, ps)[i].path == ps[i]
  {
    var k := |ps| - 1;
    if i == k { RankedFacts(s, ps[k]); } else { WinnersBest(s, ps[..k], i); }
  }

  /** The losers on one path. */
  lemma RestOfPath(s: set<Claim>, p: Path, c: Claim)
    requires p in Paths(s)
    ensures Ranked(s, p) != []
    ensures c in Ranked(s, p)[1..] <==> c in s && c.path == p && !Best(s, c)
    ensures Distinct(Ranked(s, p)[1..])
  {
    RankedFacts(s, p);
    var g := Ranked(s, p);
    assert c in g[1..] <==> c in Elements(g[1..]);
    if c in s && c.path == p && Best(s, c) { BestUnique(s, g[0], c); }
  }

  lemma LosersStep(s: set<Claim>, ps: seq<Path>)
    requires OnPaths(s, ps) && ps != []
    ensures var k := |ps| - 1;
      && OnPaths(s, ps[..k]) && ps[k] !in ps[..k] && ps[k] in Paths(s) && Ranked(s, ps[k]) != []
      && Losers(s, ps) == Losers(s, ps[..k]) + Ranked(s, ps[k])[1..]
  {
    RankedNonempty(s, ps[|ps| - 1]);
  }

  /** The losers of `ps` are all the other claims on those paths, each once. */
  lemma {:induction false} LosersRest(s: set<Claim>, ps: seq<Path>)
    requires OnPaths(s, ps)
    ensures forall c :: c in Losers(s, ps) <==> c in s && c.path in ps && !Best(s, c)
    ensures Distinct(Losers(s, ps))
  {
    if ps != [] {
      var k := |ps| - 1;
      LosersStep(s, ps);
      LosersRest(s, ps[..k]);
      var before, here := Losers(s, ps[..k]), Ranked(s, ps[k])[1..];
      forall c ensures c in before + here <==> c in s && c.path in ps && !Best(s, c) {
        RestOfPath(s, ps[k], c);
        assert c.path in ps <==> c.path in ps[..k] || c.path == ps[k];
      }
      forall c | c in here ensures c !in before { RestOfPath(s, ps[k], c); }
      assert Distinct(here) by { RestOfPath(s, ps[k], Ranked(s, ps[k])[0]); }
      DistinctConcat(before, here);
    }
  }

  lemma DistinctConcat(a: seq<Claim>, b: seq<Claim>)
    requires Distinct(a) && Distinct(b) && forall c :: c in b ==> c !in a
    ensures Distinct(a + b)
  {
    forall i, j | 0 <= i < j < |a + b| ensures (a + b)[i] != (a + b)[j] {
      if i < |a| <= j { assert (a + b)[j] in b; }
    }
  }

  lemma BestUnique(s: set<Claim>, c: Claim, d: Claim)
    requires Best(s, c) && d.path == c.path && Best(s, d)
    ensures c == d
  {
    BaseOrders();
    RankOrder(c, d, c);
  }

  /** Every loser gets a path of its own outside `taken`. */
  lemma {:induction false} LosersPlaced(losers: seq<Loser>, taken: set<Path>)
    requires PlaceLosers(losers, taken).Ok?
    ensures var r := PlaceLosers(losers, taken).value;
      && |r| == |losers|
      && (forall i :: 0 <= i < |r| ==> From(r[i], losers[i].claim) && r[i].path !in taken)
      && (forall i, j :: 0 <= i < j < |r| ==> r[i].path != r[j].path)
  {
    if losers != [] {
      LosersPlaced(losers[1..], taken + {FirstFree(losers[0].candidates, taken).value});
    }
  }

  /** Winners and losers together are all the claims, each once. */
  lemma WinnersAndLosers(s: set<Claim>, ps: seq<Path>)
    requires OnPaths(s, ps) && (forall p :: p in Paths(s) ==> p in ps)
    ensures Distinct(Winners(s, ps) + Losers(s, ps))
    ensures Elements(Winners(s, ps) + Losers(s, ps)) == s
  {
    var w, m := Winners(s, ps), Losers(s, ps);
    LosersRest(s, ps);
    forall i | 0 <= i < |w| ensures Best(s, w[i]) && w[i].path == ps[i] { WinnersBest(s, ps, i); }
    forall c | c in s ensures c in w + m {
      assert c.path in Paths(s);
      var i :| 0 <= i < |ps| && ps[i] == c.path;
      if Best(s, c) { BestUnique(s, w[i], c); } else { assert c in m; }
    }
  }

  /**
   * Placements by index: `u[i]` is the placement of `cs[i]`. The first `n` claims got the
   * path they asked for, the others a path outside `asked`.
   */
  ghost predicate Assigned(asked: set<Path>, cs: seq<Claim>, u: seq<Placement>, n: nat) {
    && n <= |cs| == |u|
    && (forall i :: 0 <= i < |u| ==> From(u[i], cs[i]))
    && (forall i :: 0 <= i < n ==> u[i] == Won(cs[i]) && cs[i].path in asked)
    && (forall i :: n <= i < |u| ==> u[i].path !in asked)
    && (forall i, j :: 0 <= i < j < |u| ==> u[i].path != u[j].path)
  }

  lemma Assign(asked: set<Path>, w: seq<Claim>, m: seq<Claim>, l: seq<Placement>)
    requires forall i :: 0 <= i < |w| ==> w[i].path in asked
    requires forall i, j :: 0 <= i < j < |w| ==> w[i].path != w[j].path
    requires PlaceLosers(Contenders(m), asked) == Ok(l)
    ensures Assigned(asked, w + m, AllWon(w) + l, |w|)
  {
    LosersPlaced(Contenders(m), asked);
    AssignBoth(asked, w, m, l);
  }

  lemma AssignBoth(asked: set<Path>, w: seq<Claim>, m: seq<Claim>, l: seq<Placement>)
    requires forall i :: 0 <= i < |w| ==> w[i].path in asked
    requires forall i, j :: 0 <= i < j < |w| ==> w[i].path != w[j].path
    requires |l| == |m| && forall i :: 0 <= i < |l| ==> From(l[i], m[i]) && l[i].path !in asked
    requires forall i, j :: 0 <= i < j < |l| ==> l[i].path != l[j].path
    ensures Assigned(asked, w + m, AllWon(w) + l, |w|)
  {
    var won := AllWon(w);
    var u := won + l;
    assert forall i :: 0 <= i < |w| ==> u[i] == Won(w[i]) && (w + m)[i] == w[i];
    assert forall i :: |w| <= i < |u| ==> u[i] == l[i - |w|] && (w + m)[i] == m[i - |w|];
  }

  /** The same by value, once the claims are known to be distinct. */
  lemma AssignedOneToOne(s: set<Claim>, cs: seq<Claim>, u: seq<Placement>, n: nat)
    requires Assigned(Paths(s), cs, u, n) && Elements(cs) == s && Distinct(cs) && UniqueIds(s)
    ensures Distinct(u)
    ensures forall c :: c in s ==> exists x :: x in Elements(u) && From(x, c)
    ensures forall x, y :: x in Elements(u) && y in Elements(u) && (x.claim == y.claim || x.path == y.path) ==> x == y
  {
    forall c | c in s ensures exists x :: x in Elements(u) && From(x, c) {
      assert c in Elements(cs);
      var i :| 0 <= i < |cs| && cs[i] == c;
      assert u[i] in Elements(u);
    }
    forall x, y | x in Elements(u) && y in Elements(u) && x.claim == y.claim ensures x == y {
      var i :| 0 <= i < |u| && u[i] == x;
      var j :| 0 <= j < |u| && u[j] == y;
      assert cs[i] in Elements(cs) && cs[j] in Elements(cs);
    }
  }

  lemma AssignedResolves(s: set<Claim>, cs: seq<Claim>, u: seq<Placement>, n: nat)
    requires Assigned(Paths(s), cs, u, n) && Elements(cs) == s && Distinct(cs) && UniqueIds(s)
    requires forall i :: 0 <= i < |cs| ==> (Best(s, cs[i]) <==> i < n)
    ensures Resolved(s, Elements(u)) && Distinct(u)
  {
    var r := Elements(u);
    AssignedOneToOne(s, cs, u, n);
    forall x | x in r ensures exists c :: c in s && From(x, c) && (x.path in Paths(s) ==> Best(s, c) && x == Won(c)) {
      var i :| 0 <= i < |u| && u[i] == x;
      assert cs[i] in Elements(cs);
    }
    forall p | p in Paths(s) ensures exists x :: x in r && x.path == p {
      var c := BestExists(s, p);
      assert c in Elements(cs);
      var i :| 0 <= i < |cs| && cs[i] == c;
      assert u[i] in r;
    }
  }

  lemma BestExists(s: set<Claim>, p: Path) returns (c: Claim)
    requires p in Paths(s)
    ensures Best(s, c) && c.path == p
  {
    RankedFacts(s, p);
    c := Ranked(s, p)[0];
  }

  lemma UnsortedResolves(s: set<Claim>, ps: seq<Path>, l: seq<Placement>)
    requires UniqueIds(s) && OnPaths(s, ps) && (forall p :: p in Paths(s) ==> p in ps)
    requires PlaceLosers(Contenders(Losers(s, ps)), Paths(s)) == Ok(l)
    ensures Resolved(s, Elements(AllWon(Winners(s, ps)) + l)) && Distinct(AllWon(Winners(s, ps)) + l)
  {
    var w, m := Winners(s, ps), Losers(s, ps);
    forall i | 0 <= i < |w| ensures Best(s, w[i]) && w[i].path == ps[i] { WinnersBest(s, ps, i); }
    forall i | 0 <= i < |m| ensures !Best(s, m[i]) { LosersRest(s, ps); assert m[i] in m; }
    Assign(Paths(s), w, m, l);
    WinnersAndLosers(s, ps);
    AssignedResolves(s, w + m, AllWon(w) + l, |w|);
  }

  /** When materialization succeeds, it resolves every conflict, in ascending path order. */
  lemma MaterializedResolves(s: set<Claim>)
    requires UniqueIds(s) && Materialized(s).Ok?
    ensures Resolved(s, Elements(Materialized(s).value))
    ensures Ascending(PlacementLess, Materialized(s).value)
  {
    ClaimOrder();
    PlacementOrder();
    var ps := Sorted(PathLess, Paths(s));
    assert forall p :: p in ps <==> p in Elements(ps);
    var l := PlaceLosers(Contenders(Losers(s, ps)), Paths(s)).value;
    UnsortedResolves(s, ps, l);
    SortAscends(PlacementLess, AllWon(Winners(s, ps)) + l);
  }

  // ---------------------------------------------------------------- the loops

  lemma SortByRank(s: set<Claim>, p: Path, g: seq<Claim>)
    requires Distinct(g) && Elements(g) == At(s, p)
    ensures Sort(RankLess, g) == Ranked(s, p)
  {
    ClaimOrder();
    SortedIsSort(ClaimLess, g);
    assert forall c :: c in g ==> c in Elements(g);
    SortAgrees(g, p);
  }

  lemma {:induction false} SortAgrees(g: seq<Claim>, p: Path)
    requires forall c :: c in g ==> c.path == p
    ensures Sort(RankLess, g) == Sort(ClaimLess, g)
    ensures forall c :: c in Sort(RankLess, g) ==> c.path == p
  {
    if g != [] {
      SortAgrees(g[1..], p);
      InsertAgrees(g[0], Sort(RankLess, g[1..]), p);
    }
  }

  lemma {:induction false} InsertAgrees(x: Claim, g: seq<Claim>, p: Path)
    requires x.path == p && forall c :: c in g ==> c.path == p
    ensures InsertSorted(RankLess, x, g) == InsertSorted(ClaimLess, x, g)
    ensures forall c :: c in InsertSorted(RankLess, x, g) ==> c.path == p
  {
    BaseOrders();
    if g != [] { InsertAgrees(x, g[1..], p); }
  }

  /** Claims grouped by requested path; `order` is the key order of the B-tree map. */
  ghost predicate Grouped(s: set<Claim>, groups: map<Path, seq<Claim>>, order: seq<Path>) {
    && Ascending(PathLess, order) && Elements(order) == groups.Keys == Paths(s)
    && forall p :: p in groups ==> Distinct(groups[p]) && Elements(groups[p]) == At(s, p)
  }

  lemma GroupGrows(s: set<Claim>, c: Claim)
    ensures Paths(s + {c}) == Paths(s) + {c.path}
    ensures forall p :: At(s + {c}, p) == if p == c.path then At(s, p) + {c} else At(s, p)
  {
  }

  lemma JoinGroup(s: set<Claim>, c: Claim, groups: map<Path, seq<Claim>>, order: seq<Path>)
    requires Grouped(s, groups, order) && c !in s && c.path in groups
    ensures Grouped(s + {c}, groups[c.path := groups[c.path] + [c]], order)
  {
    GroupGrows(s, c);
    var g := groups[c.path];
    assert c !in g by { assert c !in Elements(g); }
    assert Elements(g + [c]) == Elements(g) + {c};
  }

  lemma NewGroup(s: set<Claim>, c: Claim, groups: map<Path, seq<Claim>>, order: seq<Path>)
    requires Grouped(s, groups, order) && c !in s && c.path !in groups
    ensures Grouped(s + {c}, groups[c.path := [c]], InsertSorted(PathLess, c.path, order))
  {
    GroupGrows(s, c);
    assert At(s, c.path) == {};
    assert Elements([c]) == {c};
    assert c.path !in order by { assert c.path !in Elements(order); }
    BaseOrders();
    InsertAscends(PathLess, c.path, order);
  }

  method GroupByPath(claims: seq<Claim>) returns (groups: map<Path, seq<Claim>>, order: seq<Path>)
    requires Distinct(claims)
    ensures Grouped(Elements(claims), groups, order)
  {
    groups, order := map[], [];
    for i := 0 to |claims|
      invariant Grouped(Elements(claims[..i]), groups, order)
    {
      var c := claims[i];
      assert c !in Elements(claims[..i]);
      assert Elements(claims[..i + 1]) == Elements(claims[..i]) + {c};
      if c.path in groups {
        JoinGroup(Elements(claims[..i]), c, groups, order);
        groups := groups[c.path := groups[c.path] + [c]];
      } else {
        NewGroup(Elements(claims[..i]), c, groups, order);
        groups := groups[c.path := [c]];
        order := InsertSorted(PathLess, c.path, order);
      }
    }
    assert claims[..|claims|] == claims;
  }

  /** One more path: its best claim wins, the others lose. */
  lemma PickStep(s: set<Claim>, order: seq<Path>, i: nat)
    requires i < |order| && forall p :: p in order ==> p in Paths(s)
    ensures Ranked(s, order[i]) != []
    ensures AllWon(Winners(s, order[..i + 1])) == AllWon(Winners(s, order[..i])) + [Won(Ranked(s, order[i])[0])]
    ensures Losers(s, order[..i + 1]) == Losers(s, order[..i]) + Ranked(s, order[i])[1..]
    ensures Elements(order[..i + 1]) == Elements(order[..i]) + {order[i]}
  {
    assert order[..i + 1][..i] == order[..i] && order[i] in order;
    RankedNonempty(s, order[i]);
  }

  method PickWinners(ghost s: set<Claim>, groups: map<Path, seq<Claim>>, order: seq<Path>)
    returns (placements: seq<Placement>, taken: set<Path>, losing: seq<Claim>)
    requires Grouped(s, groups, order)
    ensures OnPaths(s, order)
    ensures placements == AllWon(Winners(s, order)) && losing == Losers(s, order) && taken == Paths(s)
  {
    OrderOnPaths(s, groups, order);
    placements, taken, losing := [], {}, [];
    for i := 0 to |order|
      invariant taken == Elements(order[..i])
      invariant placements == AllWon(Winners(s, order[..i])) && losing == Losers(s, order[..i])
    {
      var p := order[i];
      PickStep(s, order, i);
      SortByRank(s, p, groups[p]);
      var requested := Sort(RankLess, groups[p]);
      taken := taken + {p};
      placements := placements + [Won(requested[0])];
      losing := losing + requested[1..];
    }
    assert order[..|order|] == order;
  }

  lemma OrderOnPaths(s: set<Claim>, groups: map<Path, seq<Claim>>, order: seq<Path>)
    requires Grouped(s, groups, order)
    ensures OnPaths(s, order) && Elements(order) == Paths(s)
    ensures forall i :: 0 <= i < |order| ==> order[i] in groups
  {
    BaseOrders();
    assert forall p :: p in order <==> p in Elements(order);
  }

  /** `Ok` of `done` followed by the placements of the remaining losers. */
  function Continue(done: seq<Placement>, rest: Outcome<seq<Placement>>): Outcome<seq<Placement>> {
    if rest.Ok? then Ok(done + rest.value) else Fault
  }

  /** One turn of the loop below. */
  lemma PlaceNext(done: seq<Placement>, losing: seq<Loser>, taken: set<Path>, q: Path)
    requires losing != [] && FirstFree(losing[0].candidates, taken) == Ok(q)
    ensures Continue(done, PlaceLosers(losing, taken)) ==
            Continue(done + [Lost(losing[0].claim, q)], PlaceLosers(losing[1..], taken + {q}))
  {
    ContinueStep(done, Lost(losing[0].claim, q), PlaceLosers(losing[1..], taken + {q}));
  }

  method PlaceLosing(won: seq<Placement>, requested: set<Path>, losing: seq<Loser>) returns (r: Outcome<seq<Placement>>)
    ensures r == Continue(won, PlaceLosers(losing, requested))
  {
    var placements, taken := won, requested;
    for i := 0 to |losing|
      invariant Continue(won, PlaceLosers(losing, requested)) == Continue(placements, PlaceLosers(losing[i..], taken))
    {
      var free := NextAvailableConflictPath(losing[i].candidates, taken);
      if free.Fault? { return Fault; }
      PlaceNext(placements, losing[i..], taken, free.value);
      assert losing[i..][1..] == losing[i + 1..];
      placements := placements + [Lost(losing[i].claim, free.value)];
      taken := taken + {free.value};
    }
    assert losing[|losing|..] == [] && placements + [] == placements;
    r := Ok(placements);
  }

  lemma ContinueStep(done: seq<Placement>, x: Placement, rest: Outcome<seq<Placement>>)
    ensures Continue(done, Continue([x], rest)) == Continue(done + [x], rest)
  {
    if rest.Ok? { assert done + ([x] + rest.value) == done + [x] + rest.value; }
  }

  /** Whatever order the claims are enumerated in, the result is a function of their set. */
  method DeriveVisiblePlacements(claims: seq<Claim>) returns (r: Outcome<seq<Placement>>)
    requires Distinct(claims)
    ensures r == Materialized(Elements(claims))
  {
    ghost var s := Elements(claims);
    var groups, order := GroupByPath(claims);
    var won, requested, losing := PickWinners(s, groups, order);
    BaseOrders();
    AscendingUnique(PathLess, order, Sorted(PathLess, Paths(s)));
    var placements := PlaceLosing(won, requested, Contenders(losing));
    if placements.Fault? { return Fault; }
    r := Ok(Sort(PlacementLess, placements.value));
  }
}
