/** Which tombstone a new file continues, row by row. */
module Reuse {
  import opened Common
  import opened Crdt
  import opened Order
  import opened Namespace
  import opened Replica

  type Prior = map<Path, PriorRow>

  predicate Tombstoned(t: Prior, p: Path) { p in t && t[p].deletedAt.Some? }

  /** Removed at the cutoff or after it. */
  predicate Late(t: Prior, p: Path, cutoff: int) { Tombstoned(t, p) && cutoff <= t[p].deletedAt.value }

  predicate OneFile(t: Prior, p: Path, r: Reading) { p in t && t[p].finger.stat.inode == r.finger.stat.inode }

  /** The tombstone of the path itself goes first; without one, the latest of the tombstones of the file. */
  predicate Preferred(t: Prior, r: Reading, p: Path, q: Path)
    requires Tombstoned(t, p) && Tombstoned(t, q)
  {
    || p == r.path
    || (q != r.path && (t[q].deletedAt.value < t[p].deletedAt.value
        || (t[q].deletedAt.value == t[p].deletedAt.value && StringLess(DbPath(p), DbPath(q)))))
  }

  /**
   * What is reused was removed within the window, on the reading's path or in the same file,
   * and every other such row is less preferred; nothing is reused only if no such row is within
   * the window.
   */
  lemma ChoiceMeans(t: Prior, r: Reading, cutoff: int, reuse: Option<Path>)
    requires ReuseChoice(t, r, cutoff, reuse)
    ensures match reuse
      case Some(p) =>
        && Late(t, p, cutoff) && (p == r.path || OneFile(t, p, r))
        && forall q :: q != p && Late(t, q, cutoff) && (q == r.path || OneFile(t, q, r)) ==> Preferred(t, r, p, q)
      case None =>
        forall q :: Tombstoned(t, q) && (q == r.path || OneFile(t, q, r)) ==> t[q].deletedAt.value < cutoff
  {
    forall q | Late(t, q, cutoff) && OneFile(t, q, r) ensures SameKey(t, q, r.finger.stat.inode, cutoff) {}
  }

  /** With nothing removed from its path or with its file key since the cutoff, a new file is a new object with a new claim. */
  lemma OldIsNew(env: Env, t: Tables, r: Reading, s: Supply, cutoff: int)
    requires !IsLive(t.priorTree, r.path) && ReuseChoice(t.priorTree, r, cutoff, s.reuse)
    requires forall q :: Tombstoned(t.priorTree, q) && (q == r.path || OneFile(t.priorTree, q, r)) ==> t.priorTree[q].deletedAt.value < cutoff
    ensures StagedRow(env, t, r, s) == Staged(r.path, s.oid, s.claim, New, r.finger, s.whole, Some(s.whole))
  {
    ChoiceMeans(t.priorTree, r, cutoff, s.reuse);
  }

  /** A tombstone within the window is continued: the file keeps the object, under a claim of its own. */
  lemma LateIsContinued(env: Env, t: Tables, r: Reading, s: Supply, cutoff: int)
    requires !IsLive(t.priorTree, r.path) && ReuseChoice(t.priorTree, r, cutoff, s.reuse)
    requires exists q :: Late(t.priorTree, q, cutoff) && (q == r.path || OneFile(t.priorTree, q, r))
    ensures s.reuse.Some? && Late(t.priorTree, s.reuse.value, cutoff) && (Late(t.priorTree, r.path, cutoff) ==> s.reuse.value == r.path)
    ensures var row := StagedRow(env, t, r, s);
      && row.kind.Resurrect? && row.oid == t.priorTree[s.reuse.value].oid && row.claim == s.claim && row.path == r.path
      && (row.update.Some? <==> env.render(Doc(t.priorText, row.oid)) != r.content)
  {
    ChoiceMeans(t.priorTree, r, cutoff, s.reuse);
  }

  /** A tracked file is an update: it keeps its object and its claim, and has an edit exactly if its content differs. */
  lemma LiveIsUpdate(env: Env, t: Tables, r: Reading, s: Supply)
    requires IsLive(t.priorTree, r.path) && (s.reuse.Some? ==> s.reuse.value in t.priorTree)
    ensures var row, prior := StagedRow(env, t, r, s), t.priorTree[r.path];
      && row.kind.Update? && row.oid == prior.oid && row.claim == prior.claim && row.path == r.path && row.finger == r.finger
      && row.update == (if env.render(Doc(t.priorText, prior.oid)) == r.content then None else Some(s.edit))
      && row.priorDoc == Doc(t.priorText, prior.oid) + if row.update.Some? then s.edit else {}
  {
    assert Doc(t.priorText, t.priorTree[r.path].oid) + {} == Doc(t.priorText, t.priorTree[r.path].oid);
  }

  // ---------------------------------------------------------------- the choice is one row

  lemma {:induction false} DbPathTells(a: Path, b: Path)
    requires DbPath(a) == DbPath(b)
    ensures a == b
  {
    SplitFirst(a);
    SplitFirst(b);
    FirstSame(a[0], b[0], DbPath(a)[|a[0]|..], DbPath(b)[|b[0]|..]);
    if |a| > 1 && |b| > 1 {
      var x: Path, y: Path := a[1..], b[1..];
      assert DbPath(x) == DbPath(a)[|a[0]| + 1..] && DbPath(y) == DbPath(b)[|b[0]| + 1..];
      DbPathTells(x, y);
      assert a == [a[0]] + x && b == [b[0]] + y;
    } else {
      assert a == [a[0]] && b == [b[0]];
    }
  }

  /** The first component ends the stored path or is followed by a slash. */
  lemma SplitFirst(a: Path)
    ensures |a[0]| <= |DbPath(a)| && DbPath(a)[..|a[0]|] == a[0]
    ensures |a| == 1 <==> DbPath(a)[|a[0]|..] == ""
    ensures |a| > 1 ==> DbPath(a)[|a[0]|] == '/'
  {
  }

  lemma NotSlash(a: string, x: string, b: string, y: string)
    requires |a| < |b| && ValidComponent(b) && a + x == b + y
    ensures x != "" && x[0] != '/'
  {
    assert (a + x)[|a|] == b[|a|] && b[|a|] in b;
  }

  lemma FirstSame(a: string, b: string, x: string, y: string)
    requires ValidComponent(a) && ValidComponent(b) && a + x == b + y
    requires (x == "" || x[0] == '/') && (y == "" || y[0] == '/')
    ensures a == b && x == y
  {
    if |a| < |b| { NotSlash(a, x, b, y); }
    if |b| < |a| { NotSlash(b, y, a, x); }
    assert a == (a + x)[..|a|] && b == (b + y)[..|b|] && x == (a + x)[|a|..] && y == (b + y)[|b|..];
  }

  /** The choice is determined by prior, the reading and the cutoff. */
  lemma ChoiceUnique(t: Prior, r: Reading, cutoff: int, a: Option<Path>, b: Option<Path>)
    requires ReuseChoice(t, r, cutoff, a) && ReuseChoice(t, r, cutoff, b)
    ensures a == b
  {
    ChoiceMeans(t, r, cutoff, a);
    ChoiceMeans(t, r, cutoff, b);
    if a.Some? && b.Some? && a != b {
      assert Preferred(t, r, a.value, b.value) && Preferred(t, r, b.value, a.value);
      DbLess(DbPath(a.value), DbPath(b.value));
    }
  }

  lemma DbLess(a: string, b: string)
    ensures !(StringLess(a, b) && StringLess(b, a))
  {
    LexTotal(CharLess, StringLess);
  }

  /** Before the rows `qs` in the order of the query: latest first, then by stored path. */
  predicate Heads(t: Prior, p: Path, qs: set<Path>)
    requires Tombstoned(t, p)
  {
    forall q :: q in qs && q != p && Tombstoned(t, q) ==>
      || t[q].deletedAt.value < t[p].deletedAt.value
      || (t[q].deletedAt.value == t[p].deletedAt.value && StringLess(DbPath(p), DbPath(q)))
  }

  lemma {:induction false} HeadExists(t: Prior, qs: set<Path>) returns (p: Path)
    requires qs != {} && forall q :: q in qs ==> Tombstoned(t, q)
    ensures p in qs && Heads(t, p, qs)
    decreases |qs|
  {
    var x :| x in qs;
    p := x;
    if qs != {x} {
      var rest := qs - {x};
      assert rest != {} by { assert qs == rest + {x}; }
      var y := HeadExists(t, rest);
      p := Ahead(t, x, y);
      if p == x { HeadsChain(t, x, y, rest); }
    }
  }

  /** Of two rows one is before the other. */
  lemma Ahead(t: Prior, x: Path, y: Path) returns (p: Path)
    requires Tombstoned(t, x) && Tombstoned(t, y) && x != y
    ensures p == x || p == y
    ensures Heads(t, p, {x, y})
  {
    LexTotal(CharLess, StringLess);
    if DbPath(x) == DbPath(y) { DbPathTells(x, y); }
    p := if Heads(t, x, {y}) then x else y;
  }

  lemma HeadsChain(t: Prior, x: Path, y: Path, qs: set<Path>)
    requires Tombstoned(t, x) && y in qs && (forall q :: q in qs ==> Tombstoned(t, q)) && x != y
    requires Heads(t, x, {x, y}) && Heads(t, y, qs)
    ensures Heads(t, x, qs)
  {
    LexTotal(CharLess, StringLess);
    assert y in {x, y};
  }

  /** And there always is one. */
  lemma ChoiceExists(t: Prior, r: Reading, cutoff: int)
    ensures exists reuse :: ReuseChoice(t, r, cutoff, reuse)
  {
    var inode := r.finger.stat.inode;
    var same := set q | q in t && SameKey(t, q, inode, cutoff);
    if Recent(t, r.path, cutoff) {
      assert ReuseChoice(t, r, cutoff, Some(r.path));
    } else if same == {} {
      assert forall q :: SameKey(t, q, inode, cutoff) ==> q in same;
      assert ReuseChoice(t, r, cutoff, None);
    } else {
      var p := HeadExists(t, same);
      assert SameKey(t, p, inode, cutoff) && forall q :: SameKey(t, q, inode, cutoff) ==> q in same;
      assert ReuseChoice(t, r, cutoff, Some(p));
    }
  }
}
