/** The stable_tree table and its incremental rewrite (`write_stable_namespace_projection_tx`). */
module StableTree {
  import opened Common
  import opened Crdt
  import opened Order
  import opened Namespace
  import opened NamespaceResults

  /** One row; the rendered path is the primary key. */
  datatype TreeRow = TreeRow(claimed: Path, claim: ClaimId, oid: ObjectId)

  type Tree = map<Path, TreeRow>

  /** The UNIQUE constraint on claim_id. */
  ghost predicate UniqueClaims(t: Tree) {
    forall p, q :: p in t && q in t && t[p].claim == t[q].claim ==> p == q
  }

  // ---------------------------------------------------------------- desired rows

  function RowOf(x: Placement): TreeRow { TreeRow(x.claimed, x.claim, x.oid) }

  /** The desired table; a repeated path is an error. */
  function Desired(xs: seq<Placement>): Outcome<Tree> {
    if xs == [] then Ok(map[])
    else
      var x := xs[|xs| - 1];
      match Desired(xs[..|xs| - 1])
      case Fault => Fault
      case Ok(t) => if x.path in t then Fault else Ok(t[x.path := RowOf(x)])
  }

  method BuildDesired(xs: seq<Placement>) returns (r: Outcome<Tree>)
    ensures r == Desired(xs)
  {
    var t: Tree := map[];
    for i := 0 to |xs|
      invariant Desired(xs[..i]) == Ok(t)
    {
      assert xs[..i + 1][..i] == xs[..i];
      if xs[i].path in t {
        DesiredFault(xs, i + 1);
        return Fault;
      }
      t := t[xs[i].path := RowOf(xs[i])];
    }
    assert xs[..|xs|] == xs;
    r := Ok(t);
  }

  lemma {:induction false} DesiredFault(xs: seq<Placement>, i: nat)
    requires i <= |xs| && Desired(xs[..i]).Fault?
    ensures Desired(xs).Fault?
    decreases |xs| - i
  {
    if i < |xs| {
      assert xs[..i + 1][..i] == xs[..i];
      DesiredFault(xs, i + 1);
    } else {
      assert xs[..i] == xs;
    }
  }

  ghost predicate OnSome(xs: seq<Placement>, p: Path) { exists i :: 0 <= i < |xs| && xs[i].path == p }

  /** The table has exactly the rows of the list. */
  ghost predicate HasRows(xs: seq<Placement>, t: Tree) {
    && (forall p :: p in t <==> OnSome(xs, p))
    && (forall i :: 0 <= i < |xs| ==> xs[i].path in t && t[xs[i].path] == RowOf(xs[i]))
  }

  lemma HasRowsStep(xs: seq<Placement>, x: Placement, t: Tree)
    requires HasRows(xs, t) && !OnSome(xs, x.path)
    ensures HasRows(xs + [x], t[x.path := RowOf(x)])
  {
    var all := xs + [x];
    forall p ensures OnSome(all, p) <==> OnSome(xs, p) || p == x.path {
      if i :| 0 <= i < |xs| && xs[i].path == p { assert all[i].path == p; }
      assert all[|xs|] == x;
    }
    forall i | 0 <= i < |xs| ensures xs[i].path != x.path { assert OnSome(xs, xs[i].path); }
  }

  lemma {:induction false} DesiredRows(xs: seq<Placement>)
    requires forall i, j :: 0 <= i < j < |xs| ==> xs[i].path != xs[j].path
    ensures Desired(xs).Ok? && HasRows(xs, Desired(xs).value)
  {
    if xs != [] {
      var k := |xs| - 1;
      DesiredRows(xs[..k]);
      HasRowsStep(xs[..k], xs[k], Desired(xs[..k]).value);
      assert xs[..k] + [xs[k]] == xs;
    }
  }

  lemma DesiredOk(xs: seq<Placement>)
    requires forall i, j :: 0 <= i < j < |xs| ==> xs[i].path != xs[j].path
    ensures Desired(xs).Ok?
    ensures forall p :: p in Desired(xs).value <==> exists i :: 0 <= i < |xs| && xs[i].path == p
    ensures forall i :: 0 <= i < |xs| ==> Desired(xs).value[xs[i].path] == RowOf(xs[i])
  {
    DesiredRows(xs);
    forall p ensures p in Desired(xs).value <==> exists i :: 0 <= i < |xs| && xs[i].path == p {
      assert p in Desired(xs).value <==> OnSome(xs, p);
    }
  }

  /** A list that repeats a path is refused. */
  lemma {:induction false} RepeatRefused(xs: seq<Placement>)
    requires Desired(xs).Ok?
    ensures forall i, j :: 0 <= i < j < |xs| ==> xs[i].path != xs[j].path
  {
    if xs != [] {
      var k := |xs| - 1;
      RepeatRefused(xs[..k]);
      DesiredOk(xs[..k]);
      forall i | 0 <= i < k ensures xs[i].path in Desired(xs[..k]).value { assert xs[..k][i] == xs[i]; }
    }
  }

  /** Materialization never yields a duplicate path or claim. */
  lemma DesiredOfMaterialized(s: set<Claim>)
    requires UniqueIds(s) && Materialized(s).Ok?
    ensures Desired(Materialized(s).value).Ok?
    ensures UniqueClaims(Desired(Materialized(s).value).value)
    ensures forall p :: p in Desired(Materialized(s).value).value ==>
      exists c :: c in s && Desired(Materialized(s).value).value[p] == TreeRow(c.path, c.id, c.oid)
  {
    var xs := Materialized(s).value;
    MaterializedResolves(s);
    PlacementOrder();
    forall i, j | 0 <= i < j < |xs| ensures xs[i].path != xs[j].path && xs[i].claim != xs[j].claim {
      assert xs[i] in Elements(xs) && xs[j] in Elements(xs);
      assert PlacementLess(xs[i], xs[j]);
    }
    DesiredOk(xs);
    forall p | p in Desired(xs).value ensures exists c :: c in s && Desired(xs).value[p] == TreeRow(c.path, c.id, c.oid) {
      var i :| 0 <= i < |xs| && xs[i].path == p;
      assert xs[i] in Elements(xs);
    }
  }

  /** Some path of the tree has this row. */
  ghost predicate HoldsRow(t: Tree, row: TreeRow) { exists p :: p in t && t[p] == row }

  /** Each placement of a materialization is a row at its path. */
  lemma PlacedRow(s: set<Claim>, x: Placement)
    requires UniqueIds(s) && Materialized(s).Ok? && x in Elements(Materialized(s).value)
    ensures Desired(Materialized(s).value).Ok?
    ensures var t := Desired(Materialized(s).value).value; x.path in t && t[x.path] == RowOf(x)
  {
    var xs := Materialized(s).value;
    MaterializedResolves(s);
    PlacementOrder();
    forall i, j | 0 <= i < j < |xs| ensures xs[i].path != xs[j].path {
      assert xs[i] in Elements(xs) && xs[j] in Elements(xs) && PlacementLess(xs[i], xs[j]);
    }
    DesiredOk(xs);
    var i :| 0 <= i < |xs| && xs[i] == x;
  }

  /** Every claim keeps a row. */
  lemma EveryClaimHasRow(s: set<Claim>, c: Claim)
    requires UniqueIds(s) && Materialized(s).Ok? && c in s
    ensures Desired(Materialized(s).value).Ok?
    ensures HoldsRow(Desired(Materialized(s).value).value, TreeRow(c.path, c.id, c.oid))
  {
    MaterializedResolves(s);
    var x :| x in Elements(Materialized(s).value) && From(x, c);
    PlacedRow(s, x);
  }

  /** A claim nobody contests keeps its path. */
  lemma SoleClaimPlaced(s: set<Claim>, c: Claim)
    requires UniqueIds(s) && Materialized(s).Ok? && c in s && forall d :: d in s && d.path == c.path ==> d == c
    ensures Desired(Materialized(s).value).Ok?
    ensures var t := Desired(Materialized(s).value).value; c.path in t && t[c.path] == TreeRow(c.path, c.id, c.oid)
  {
    MaterializedResolves(s);
    assert c.path in Paths(s);
    SoleWins(s, Elements(Materialized(s).value), c);
    PlacedRow(s, Won(c));
  }

  lemma SoleWins(s: set<Claim>, r: set<Placement>, c: Claim)
    requires ToTheBest(s, r) && c in s && forall d :: d in s && d.path == c.path ==> d == c
    ensures Won(c) in r
  {
    assert c.path in Paths(s);
    var x :| x in r && x.path == c.path;
    var w :| Best(s, w) && x == Won(w);
  }

  // ---------------------------------------------------------------- the delta

  predicate Outdated(current: Tree, desired: Tree, p: Path) {
    p in current && (p !in desired || desired[p] != current[p])
  }

  predicate Wanted(current: Tree, desired: Tree, p: Path) {
    p in desired && (p !in current || desired[p] != current[p])
  }

  /** The table as the database keeps it: an insert that breaks a constraint fails. */
  class Table {
    var rows: Tree

    constructor (rows: Tree)
      ensures this.rows == rows
    {
      this.rows := rows;
    }

    method DeleteFile(p: Path)
      modifies this
      ensures rows == old(rows) - {p}
    {
      rows := rows - {p};
    }

    method InsertFile(p: Path, row: TreeRow) returns (ok: bool)
      modifies this
      ensures ok <==> p !in old(rows) && forall q :: q in old(rows) ==> old(rows)[q].claim != row.claim
      ensures rows == if ok then old(rows)[p := row] else old(rows)
    {
      ok := p !in rows && forall q :: q in rows ==> rows[q].claim != row.claim;
      if ok { rows := rows[p := row]; }
    }

    /**
     * Deletes then inserts reach exactly the desired table, and the database refuses no
     * insert: no table on the way repeats a path or a claim, even when claims swap paths.
     */
    method Rewrite(desired: Tree) returns (ok: bool)
      requires UniqueClaims(rows) && UniqueClaims(desired)
      modifies this
      ensures ok && rows == desired
    {
      var current := rows;
      var deletes, inserts := Delta(current, desired);
      DeleteAll(deletes);
      assert forall p :: p in rows <==> p in desired && !Wanted(current, desired, p);
      ok := InsertAll(desired, inserts);
    }

    method DeleteAll(deletes: seq<Path>)
      modifies this
      ensures rows == old(rows) - Elements(deletes)
    {
      for i := 0 to |deletes|
        invariant rows == old(rows) - Elements(deletes[..i])
      {
        assert Elements(deletes[..i + 1]) == Elements(deletes[..i]) + {deletes[i]};
        DeleteFile(deletes[i]);
      }
      assert deletes[..|deletes|] == deletes;
    }

    /** What is already there belongs to the desired table, so no insert meets its path or claim. */
    method InsertAll(desired: Tree, inserts: seq<Path>) returns (ok: bool)
      requires UniqueClaims(desired) && Distinct(inserts) && forall p :: p in inserts ==> p in desired
      requires forall p :: p in rows <==> p in desired && p !in inserts
      requires forall p :: p in rows ==> rows[p] == desired[p]
      modifies this
      ensures ok && rows == desired
    {
      for i := 0 to |inserts|
        invariant forall p :: p in rows <==> p in desired && p !in inserts[i..]
        invariant forall p :: p in rows ==> rows[p] == desired[p]
      {
        var p := inserts[i];
        assert p in inserts && inserts[i..] == [p] + inserts[i + 1..];
        ok := InsertFile(p, desired[p]);
        if !ok { return; }
      }
      ok := true;
    }
  }

  /** The paths to delete and the paths to insert. */
  method Delta(current: Tree, desired: Tree) returns (deletes: seq<Path>, inserts: seq<Path>)
    ensures Distinct(deletes) && Distinct(inserts)
    ensures forall p :: p in deletes <==> Outdated(current, desired, p)
    ensures forall p :: p in inserts <==> Wanted(current, desired, p)
  {
    deletes, inserts := [], [];
    var todo := current.Keys;
    while todo != {}
      invariant todo <= current.Keys && Distinct(deletes) && Distinct(inserts)
      invariant forall p :: p in deletes <==> p !in todo && Outdated(current, desired, p)
      invariant forall p :: p in inserts <==> p !in todo && p in current && Wanted(current, desired, p)
      decreases todo
    {
      var p :| p in todo;
      todo := todo - {p};
      if p !in desired {
        deletes := deletes + [p];
      } else if desired[p] != current[p] {
        deletes := deletes + [p];
        inserts := inserts + [p];
      }
    }
    todo := desired.Keys;
    while todo != {}
      invariant todo <= desired.Keys && Distinct(inserts)
      invariant forall p :: p in inserts <==> (p in current || p !in todo) && Wanted(current, desired, p)
      decreases todo
    {
      var p :| p in todo;
      todo := todo - {p};
      if p !in current { inserts := inserts + [p]; }
    }
  }
}
