/** Who wins a path and who is served first, told byte by byte. */
module ConflictOrder {
  import opened Common
  import opened Crdt
  import opened Order
  import opened Namespace
  import opened NamespaceResults

  // ---------------------------------------------------------------- what the orders mean

  /** `a` is a proper prefix of `b`, or has the smaller byte where they first differ. */
  ghost predicate Earlier(a: Bytes, b: Bytes) {
    exists k :: 0 <= k <= |a| && k < |b| && a[..k] == b[..k] && (k == |a| || a[k] < b[k])
  }

  /** The same for strings, character by character, and for paths, component by component. */
  ghost predicate EarlierText(a: string, b: string) {
    exists k :: 0 <= k <= |a| && k < |b| && a[..k] == b[..k] && (k == |a| || a[k] < b[k])
  }

  ghost predicate EarlierPath(a: Path, b: Path) {
    exists k :: 0 <= k <= |a| && k < |b| && a[..k] == b[..k] && (k == |a| || EarlierText(a[k], b[k]))
  }

  /** By creator, then by object, then by claim. */
  ghost predicate EarlierRank(c: Claim, d: Claim) {
    if c.creator != d.creator then Earlier(c.creator, d.creator)
    else if c.oid != d.oid then Earlier(c.oid, d.oid)
    else Earlier(c.id, d.id)
  }

  lemma {:induction false} LexMeans<T(!new)>(less: (T, T) -> bool, a: seq<T>, b: seq<T>) returns (k: nat)
    requires Lex(less, a, b)
    ensures k <= |a| && k < |b| && a[..k] == b[..k] && (k == |a| || less(a[k], b[k]))
  {
    if a == [] || less(a[0], b[0]) {
      k := 0;
    } else {
      var rest := LexMeans(less, a[1..], b[1..]);
      k := rest + 1;
      assert a[..k] == [a[0]] + a[1..][..rest] && b[..k] == [b[0]] + b[1..][..rest];
    }
  }

  lemma BytesMean(a: Bytes, b: Bytes)
    requires BytesLess(a, b)
    ensures Earlier(a, b)
  {
    var k := LexMeans(ByteLess, a, b);
  }

  lemma TextMeans(a: string, b: string)
    requires StringLess(a, b)
    ensures EarlierText(a, b)
  {
    var k := LexMeans(CharLess, a, b);
  }

  lemma PathMeans(a: Path, b: Path)
    requires PathLess(a, b)
    ensures EarlierPath(a, b)
  {
    var k := LexMeans(StringLess, a, b);
    if k < |a| { TextMeans(a[k], b[k]); }
  }

  lemma RankMeans(c: Claim, d: Claim)
    requires RankLess(c, d)
    ensures EarlierRank(c, d)
  {
    BaseOrders();
    if c.creator != d.creator { BytesMean(c.creator, d.creator); }
    else if c.oid != d.oid { BytesMean(c.oid, d.oid); }
    else { BytesMean(c.id, d.id); }
  }

  // ---------------------------------------------------------------- the winner

  /**
   * Of the claims that ask for a path, the one that gets it has the least creator, of those
   * the least object, of those the least claim, byte by byte.
   */
  lemma WinnerIsLeast(s: set<Claim>, x: Placement, c: Claim, d: Claim)
    requires UniqueIds(s) && Materialized(s).Ok? && x in Materialized(s).value
    requires c in s && d in s && c != d && c.path == d.path && From(x, c) && x.path == c.path
    ensures EarlierRank(c, d)
  {
    MaterializedResolves(s);
    assert x in Elements(Materialized(s).value);
    PlacedIsBest(s, Elements(Materialized(s).value), x, c);
    RankMeans(c, d);
  }

  lemma PlacedIsBest(s: set<Claim>, r: set<Placement>, x: Placement, c: Claim)
    requires ToTheBest(s, r) && UniqueIds(s) && x in r && c in s && From(x, c) && x.path == c.path
    ensures Best(s, c)
  {
    assert x.path in Paths(s);
    var w :| Best(s, w) && x == Won(w);
    assert w in s && w.id == c.id;
  }

  // ---------------------------------------------------------------- the losers

  /** Losers in the order they are served: by path, then by rank. */
  ghost predicate ServedBefore(d: Claim, c: Claim) {
    if d.path != c.path then EarlierPath(d.path, c.path) else EarlierRank(d, c)
  }

  lemma ClaimMeans(d: Claim, c: Claim)
    requires ClaimLess(d, c)
    ensures ServedBefore(d, c)
  {
    BaseOrders();
    if d.path != c.path { PathMeans(d.path, c.path); } else { RankMeans(d, c); }
  }

  lemma RestAscends(s: set<Claim>, p: Path)
    requires p in Paths(s)
    ensures Ranked(s, p) != [] && Ascending(ClaimLess, Ranked(s, p)[1..]) && forall c :: c in Ranked(s, p)[1..] ==> c.path == p
  {
    RankedNonempty(s, p);
    var g := Ranked(s, p);
    forall c | c in g[1..] ensures c.path == p { assert c in Elements(g); }
  }

  lemma AscendConcat(a: seq<Claim>, b: seq<Claim>)
    requires Ascending(ClaimLess, a) && Ascending(ClaimLess, b) && forall x, y :: x in a && y in b ==> ClaimLess(x, y)
    ensures Ascending(ClaimLess, a + b)
  {
  }

  /** Losers are listed by path, and on one path by rank. */
  lemma {:induction false} LosersAscend(s: set<Claim>, ps: seq<Path>)
    requires OnPaths(s, ps) && Ascending(PathLess, ps)
    ensures Ascending(ClaimLess, Losers(s, ps)) && forall c :: c in Losers(s, ps) ==> c.path in ps
  {
    if ps != [] {
      var k := |ps| - 1;
      LosersStep(s, ps);
      LosersAscend(s, ps[..k]);
      RestAscends(s, ps[k]);
      var before, here := Losers(s, ps[..k]), Ranked(s, ps[k])[1..];
      forall x, y | x in before && y in here ensures ClaimLess(x, y) {
        var i :| 0 <= i < k && ps[..k][i] == x.path;
        assert PathLess(ps[i], ps[k]);
      }
      AscendConcat(before, here);
    }
  }

  /** A candidate that was passed over is asked for, or went to a loser served before. */
  predicate PassedOver(q: Path, taken: set<Path>, r: seq<Placement>, i: nat) { q in taken || exists h :: 0 <= h < i && h < |r| && r[h].path == q }

  /** The path is the first of the candidates that was not passed over. */
  ghost predicate FirstLeft(candidates: seq<Path>, taken: set<Path>, r: seq<Placement>, i: nat)
    requires i < |r|
  {
    exists k :: 0 <= k < |candidates| && candidates[k] == r[i].path && forall j :: 0 <= j < k ==> PassedOver(candidates[j], taken, r, i)
  }

  lemma {:induction false} FirstFreeIs(candidates: seq<Path>, taken: set<Path>) returns (k: nat)
    requires FirstFree(candidates, taken).Ok?
    ensures k < |candidates| && candidates[k] == FirstFree(candidates, taken).value && forall j :: 0 <= j < k ==> candidates[j] in taken
  {
    if candidates[0] in taken {
      var rest := FirstFreeIs(candidates[1..], taken);
      k := rest + 1;
      forall j | 0 <= j < k ensures candidates[j] in taken { if j > 0 { assert candidates[1..][j - 1] == candidates[j]; } }
    } else {
      k := 0;
    }
  }

  lemma {:induction false} PlacedFirstLeft(losers: seq<Loser>, taken: set<Path>, i: nat)
    requires PlaceLosers(losers, taken).Ok? && i < |losers|
    ensures |PlaceLosers(losers, taken).value| == |losers|
    ensures FirstLeft(losers[i].candidates, taken, PlaceLosers(losers, taken).value, i)
  {
    var q := FirstFree(losers[0].candidates, taken).value;
    LosersPlaced(losers, taken);
    if i == 0 {
      var k := FirstFreeIs(losers[0].candidates, taken);
    } else {
      PlacedFirstLeft(losers[1..], taken + {q}, i - 1);
      PassedOn(losers[i].candidates, taken, q, PlaceLosers(losers[1..], taken + {q}).value, Lost(losers[0].claim, q), i - 1);
    }
  }

  lemma PassedOn(candidates: seq<Path>, taken: set<Path>, q: Path, rest: seq<Placement>, first: Placement, i: nat)
    requires i < |rest| && first.path == q && FirstLeft(candidates, taken + {q}, rest, i)
    ensures FirstLeft(candidates, taken, [first] + rest, i + 1)
  {
    var all := [first] + rest;
    var k :| 0 <= k < |candidates| && candidates[k] == rest[i].path && forall j :: 0 <= j < k ==> PassedOver(candidates[j], taken + {q}, rest, i);
    forall j | 0 <= j < k ensures PassedOver(candidates[j], taken, all, i + 1) {
      assert PassedOver(candidates[j], taken + {q}, rest, i);
      if candidates[j] !in taken {
        if candidates[j] == q {
          assert all[0].path == q;
        } else {
          var h :| 0 <= h < i && h < |rest| && rest[h].path == candidates[j];
          assert all[h + 1] == rest[h];
        }
      }
    }
    assert all[i + 1] == rest[i];
  }

  /** A candidate is asked for by some claim, or went to a claim that was served before. */
  ghost predicate Unavailable(s: set<Claim>, xs: set<Placement>, c: Claim, q: Path) {
    q in Paths(s) || exists y, d :: y in xs && d in s && From(y, d) && y.path == q && y.path != d.path && ServedBefore(d, c)
  }

  /** `q` is the first of the claim's conflict names that is available to it. */
  ghost predicate FirstAvailable(s: set<Claim>, xs: set<Placement>, c: Claim, q: Path) {
    exists k :: 0 <= k < |Candidates(c)| && Candidates(c)[k] == q && forall j :: 0 <= j < k ==> Unavailable(s, xs, c, Candidates(c)[j])
  }

  /** Losers `m` with their placements `l`, in the order they are served. */
  ghost predicate Served(s: set<Claim>, m: seq<Claim>, l: seq<Placement>) {
    && |l| == |m| && Ascending(ClaimLess, m)
    && (forall c :: c in m ==> c in s)
    && (forall i :: 0 <= i < |l| ==> From(l[i], m[i]) && l[i].path !in Paths(s))
  }

  lemma LosersServed(s: set<Claim>, ps: seq<Path>, l: seq<Placement>)
    requires OnPaths(s, ps) && Ascending(PathLess, ps) && PlaceLosers(Contenders(Losers(s, ps)), Paths(s)) == Ok(l)
    ensures Served(s, Losers(s, ps), l)
  {
    LosersAscend(s, ps);
    LosersRest(s, ps);
    LosersPlaced(Contenders(Losers(s, ps)), Paths(s));
  }

  /** The placement of a loser is among the losers' placements, at the loser's own index. */
  lemma LoserAt(s: set<Claim>, w: seq<Claim>, m: seq<Claim>, l: seq<Placement>, x: Placement, c: Claim) returns (i: nat)
    requires UniqueIds(s) && Served(s, m, l)
    requires x in AllWon(w) + l && c in s && From(x, c) && x.path != c.path
    ensures i < |l| && l[i] == x && m[i] == c
  {
    var k :| 0 <= k < |w| + |l| && (AllWon(w) + l)[k] == x;
    assert forall h :: 0 <= h < |w| ==> AllWon(w)[h].path == AllWon(w)[h].claimed;
    i := k - |w|;
    assert m[i] in m;
  }

  lemma ServedFirst(s: set<Claim>, m: seq<Claim>, l: seq<Placement>, xs: set<Placement>, i: nat, q: Path)
    requires Served(s, m, l) && i < |l| && PassedOver(q, Paths(s), l, i) && forall y :: y in l ==> y in xs
    ensures Unavailable(s, xs, m[i], q)
  {
    if q !in Paths(s) {
      var h :| 0 <= h < i && h < |l| && l[h].path == q;
      assert ClaimLess(m[h], m[i]) && m[h] in m && l[h] in l;
      ClaimMeans(m[h], m[i]);
      assert m[h].path in Paths(s);
    }
  }

  lemma FirstLeftAvailable(s: set<Claim>, m: seq<Claim>, l: seq<Placement>, xs: set<Placement>, i: nat)
    requires Served(s, m, l) && i < |l| && FirstLeft(Candidates(m[i]), Paths(s), l, i) && forall y :: y in l ==> y in xs
    ensures FirstAvailable(s, xs, m[i], l[i].path)
  {
    var names := Candidates(m[i]);
    var k :| 0 <= k < |names| && names[k] == l[i].path && forall j :: 0 <= j < k ==> PassedOver(names[j], Paths(s), l, i);
    forall j | 0 <= j < k ensures Unavailable(s, xs, m[i], names[j]) { ServedFirst(s, m, l, xs, i, names[j]); }
  }

  /**
   * A claim that does not get its path gets one of its conflict names, the first that nobody
   * asks for and that no loser with an earlier path, or an earlier rank on the same path, has.
   */
  lemma LoserTakesFirst(s: set<Claim>, x: Placement, c: Claim)
    requires UniqueIds(s) && Materialized(s).Ok? && x in Materialized(s).value && c in s && From(x, c) && x.path != c.path
    ensures FirstAvailable(s, Elements(Materialized(s).value), c, x.path)
  {
    ClaimOrder();
    var ps := Sorted(PathLess, Paths(s));
    assert forall p :: p in ps <==> p in Elements(ps);
    var w, m := Winners(s, ps), Losers(s, ps);
    var l := PlaceLosers(Contenders(m), Paths(s)).value;
    LosersServed(s, ps, l);
    ListedAll(s, ps, l);
    assert x in Elements(Materialized(s).value) && x in Elements(AllWon(w) + l);
    var i := LoserAt(s, w, m, l, x, c);
    PlacedFirstLeft(Contenders(m), Paths(s), i);
    FirstLeftAvailable(s, m, l, Elements(AllWon(w) + l), i);
  }

  lemma ListedAll(s: set<Claim>, ps: seq<Path>, l: seq<Placement>)
    requires UniqueIds(s) && OnPaths(s, ps) && (forall p :: p in Paths(s) ==> p in ps)
    requires PlaceLosers(Contenders(Losers(s, ps)), Paths(s)) == Ok(l)
    ensures var all := AllWon(Winners(s, ps)) + l; Elements(Sort(PlacementLess, all)) == Elements(all)
  {
    PlacementOrder();
    UnsortedResolves(s, ps, l);
    SortAscends(PlacementLess, AllWon(Winners(s, ps)) + l);
  }
}
