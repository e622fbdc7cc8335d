/** Transactions that mint operations: local deletes and import commits. */
module ReplicaMint {
  import opened Common
  import opened Crdt
  import StableTree
  import opened Documents
  import opened Replica
  import opened ReplicaSafety

  // ---------------------------------------------------------------- what a minted message must be

  predicate MintedBy(op: Op, c: nat) {
    match op
    case Ns(x) => x.client == c
    case Txt(_, x) => x.Insert? ==> x.client == c
  }

  /** The (client, clock) id of an operation. */
  function IdOf(op: Op): Option<Key> {
    match op
    case Ns(x) => Some(NsKey(x.client, x.clock))
    case Txt(o, x) => if x.Insert? then Some(TextKey(o, StructId(x.client, x.clock))) else None
  }

  ghost predicate DistinctIds(s: set<Op>) {
    forall a, b :: a in s && b in s && IdOf(a).Some? && IdOf(a) == IdOf(b) ==> a == b
  }

  /** No id of `a` is used in `b`. */
  ghost predicate FreshIds(a: set<Op>, b: set<Op>) {
    forall x, y :: x in a && y in b && IdOf(x).Some? ==> IdOf(x) != IdOf(y)
  }

  /** A message client `c` may send when its stable state is `before`. */
  ghost predicate MessageOk(before: set<Op>, s: set<Op>, c: nat) {
    && (forall op :: op in s ==> MintedBy(op, c))
    && DistinctIds(s) && FreshIds(s, before)
    && Grounded(s, before + s)
  }

  /** Each message suits what is held when it is sent: `before` and the messages ahead of it. */
  ghost predicate EachSuits(suits: (set<Op>, Message) -> bool, before: set<Op>, out: seq<Message>) {
    forall i :: 0 <= i < |out| ==> suits(before + Join(out[..i]), out[i])
  }

  lemma SuitsDrop(suits: (set<Op>, Message) -> bool, before: set<Op>, out: seq<Message>)
    requires out != [] && EachSuits(suits, before, out)
    ensures var k := |out| - 1; EachSuits(suits, before, out[..k]) && suits(before + Join(out[..k]), out[k])
  {
    var k := |out| - 1;
    forall i | 0 <= i < k ensures suits(before + Join(out[..k][..i]), out[..k][i]) {
      assert out[..k][..i] == out[..i];
    }
  }

  lemma SuitsAdd(suits: (set<Op>, Message) -> bool, before: set<Op>, out: seq<Message>, m: Message)
    requires EachSuits(suits, before, out) && suits(before + Join(out), m)
    ensures EachSuits(suits, before, out + [m])
  {
    var more := out + [m];
    forall i | 0 <= i < |more| ensures suits(before + Join(more[..i]), more[i]) {
      assert more[..i] == out[..i];
      assert out[..|out|] == out;
    }
  }

  lemma SuitsConcat(suits: (set<Op>, Message) -> bool, before: set<Op>, a: seq<Message>, b: seq<Message>)
    requires EachSuits(suits, before, a) && EachSuits(suits, before + Join(a), b)
    ensures EachSuits(suits, before, a + b)
  {
    forall i | 0 <= i < |a + b| ensures suits(before + Join((a + b)[..i]), (a + b)[i]) {
      if i < |a| {
        assert (a + b)[..i] == a[..i];
      } else {
        var j := i - |a|;
        assert (a + b)[..i] == a + b[..j];
        JoinConcat(a, b[..j]);
        assert before + Join(a) + Join(b[..j]) == before + Join(a + b[..j]);
      }
    }
  }

  /** What holds before and is kept by every message that suits holds after all of them. */
  lemma {:induction false} AfterEach(suits: (set<Op>, Message) -> bool, before: set<Op>, out: seq<Message>, holds: seq<Message> -> bool)
    requires EachSuits(suits, before, out) && holds([])
    requires forall done, m :: holds(done) && suits(before + Join(done), m) ==> holds(done + [m])
    ensures holds(out)
  {
    if out != [] {
      var k := |out| - 1;
      SuitsDrop(suits, before, out);
      AfterEach(suits, before, out[..k], holds);
      assert out[..k] + [out[k]] == out;
    }
  }

  ghost function Sendable(c: nat): (set<Op>, Message) -> bool {
    (before: set<Op>, m: Message) => MessageOk(before, Ops(m), c)
  }

  /** Messages client `c` may send one after the other. */
  ghost predicate MintOk(before: set<Op>, out: seq<Message>, c: nat) { EachSuits(Sendable(c), before, out) }

  lemma MintAdd(before: set<Op>, out: seq<Message>, m: Message, held: set<Op>, c: nat)
    requires MintOk(before, out, c) && held == before + Join(out) && MessageOk(held, Ops(m), c)
    ensures MintOk(before, out + [m], c)
  {
    SuitsAdd(Sendable(c), before, out, m);
  }

  lemma MintOne(before: set<Op>, m: Message, c: nat)
    requires MessageOk(before, Ops(m), c)
    ensures MintOk(before, [m], c)
  {
    assert before + Join([]) == before;
    MintAdd(before, [], m, before, c);
    assert [] + [m] == [m];
  }

  // ---------------------------------------------------------------- namespace updates

  function LocalNs(prior: NsDoc, c: nat, facts: seq<NsFact>): NsDoc { NsOps(c, NsClock(prior, c), facts) }

  lemma LocalNsClock(stable: NsDoc, prior: NsDoc, c: nat) returns (n: nat)
    requires NsUnder(prior, stable, c) && NsCounted(stable, c)
    ensures n == NsClock(prior, c) && NsSpans(stable, c, 0, n) && NsSpans(prior, c, 0, n)
  {
    n :| NsSpans(stable, c, 0, n);
    NsSpansOfOwn(stable, prior, c, 0, n);
    NsClockSpans(prior, c, n);
  }

  /** The same new operations go into prior and stable. */
  lemma KeepLocalNs(stable: NsDoc, prior: NsDoc, mode: Mode, c: nat, facts: seq<NsFact>)
    requires NsSide(stable, prior, mode, c) && !mode.Projecting?
    ensures var u := LocalNs(prior, c, facts); NsSide(stable + u, prior + u, mode, c)
  {
    var n := LocalNsClock(stable, prior, c);
    var u := LocalNs(prior, c, facts);
    NsUnderBoth(prior, stable, u, c);
    NsOpsSpan(c, n, facts);
    NsSpansJoin(stable, u, c, 0, n, n + |facts|);
  }

  /** Claims among `facts` name objects that are known already or added by an earlier fact. */
  ghost predicate FactsGrounded(stable: NsDoc, facts: seq<NsFact>) {
    forall i :: 0 <= i < |facts| && facts[i].AddClaim? ==>
      || HasObject(stable, facts[i].owner)
      || exists j :: 0 <= j < |facts| && facts[j].AddObject? && facts[j].oid == facts[i].owner
  }

  lemma NsNeed(stable: NsDoc, c: nat, facts: seq<NsFact>, n: nat, i: nat, k: Key, all: set<Op>)
    requires NsSpans(stable, c, 0, n) && FactsGrounded(stable, facts) && i < |facts|
    requires NsPart(stable) + NsPart(NsOps(c, n, facts)) <= all
    requires k in Needs(Ns(NsOp(c, n + i, facts[i])))
    ensures Provided(all, k)
  {
    var u := NsOps(c, n, facts);
    if k.NsKey? {
      if i > 0 {
        var x := NsOp(c, n + (i - 1), facts[i - 1]);
        assert x in u && Ns(x) in all && k in Provides(Ns(x));
      } else {
        assert NsUses(stable, c, n - 1);
        var x :| x in stable && x.client == c && x.clock == n - 1;
        assert Ns(x) in all && k in Provides(Ns(x));
      }
    } else if HasObject(stable, facts[i].owner) {
      var x :| x in stable && x.fact.AddObject? && x.fact.oid == facts[i].owner;
      assert Ns(x) in all && k in Provides(Ns(x));
    } else {
      var j :| 0 <= j < |facts| && facts[j].AddObject? && facts[j].oid == facts[i].owner;
      var x := NsOp(c, n + j, facts[j]);
      assert x in u && Ns(x) in all && k in Provides(Ns(x));
    }
  }

  lemma NsGrounded(stable: NsDoc, before: set<Op>, c: nat, facts: seq<NsFact>, n: nat)
    requires NsSpans(stable, c, 0, n) && FactsGrounded(stable, facts) && NsPart(stable) <= before
    ensures Grounded(NsPart(NsOps(c, n, facts)), before + NsPart(NsOps(c, n, facts)))
  {
    var u := NsOps(c, n, facts);
    forall op, k | op in NsPart(u) && k in Needs(op) ensures Provided(before + NsPart(u), k) {
      var i :| 0 <= i < |facts| && op.ns == NsOp(c, n + i, facts[i]);
      NsNeed(stable, c, facts, n, i, k, before + NsPart(u));
    }
  }

  lemma LocalNsMessage(stable: NsDoc, texts: set<Op>, prior: NsDoc, c: nat, facts: seq<NsFact>)
    requires NsUnder(prior, stable, c) && NsCounted(stable, c) && FactsGrounded(stable, facts)
    requires forall op :: op in texts ==> op.Txt?
    ensures MessageOk(NsPart(stable) + texts, NsPart(LocalNs(prior, c, facts)), c)
  {
    var n := LocalNsClock(stable, prior, c);
    NsOpsSpan(c, n, facts);
    NsGrounded(stable, NsPart(stable) + texts, c, facts, n);
  }

  // ---------------------------------------------------------------- text updates

  lemma TextNeed(base: TextDoc, u: TextDoc, o: ObjectId, c: nat, n: nat, m: nat, x: TextOp, k: Key, all: set<Op>)
    requires TextSpans(base, c, 0, n) && TextSpans(u, c, n, m) && EditOf(base, u, c) && x in u && k in Needs(Txt(o, x))
    requires TextPart(o, base + u) <= all
    ensures Provided(all, k)
  {
    assert HasStruct(base + u, k.id) by {
      if x.Insert? && x.clock > 0 && k.id == StructId(c, x.clock - 1) {
        assert x.clock - 1 < n ==> TextUses(base, c, x.clock - 1);
        assert x.clock - 1 >= n ==> TextUses(u, c, x.clock - 1);
      }
    }
    var y :| y in base + u && y.Insert? && y.client == k.id.client && y.clock == k.id.clock;
    assert Txt(o, y) in all && k in Provides(Txt(o, y));
  }

  lemma TextMessage(before: set<Op>, base: TextDoc, o: ObjectId, u: TextDoc, c: nat)
    requires EditOf(base, u, c) && forall x :: x in base <==> Txt(o, x) in before
    ensures MessageOk(before, TextPart(o, u), c)
  {
    var n: nat, m: nat :| TextSpans(base, c, 0, n) && TextSpans(u, c, n, m);
    var s := TextPart(o, u);
    forall op, k | op in s && k in Needs(op) ensures Provided(before + s, k) {
      TextNeed(base, u, o, c, n, m, op.txt, k, before + s);
    }
  }

  /** Committing a staged row: stable gets the update, prior becomes the edited document. */
  lemma KeepRow(stable: Texts, prior: Texts, rows: seq<Staged>, c: nat)
    requires rows != [] && TextSide(stable, prior, rows, map[], c) && StagedShape(rows)
    ensures var row := rows[0];
      var u := if row.update.Some? then row.update.value else {};
      TextSide(ApplyText(stable, row.oid, u), prior[row.oid := row.priorDoc], rows[1..], map[], c)
  {
    var row := rows[0];
    var u := if row.update.Some? then row.update.value else {};
    var s := Doc(stable, row.oid);
    assert StagedOk(row, s, c);
    RowUnder(row, s, c);
    if row.update.Some? {
      var n: nat, m: nat :| TextSpans(s, c, 0, n) && TextSpans(u, c, n, m);
      TextSpansJoin(s, u, c, 0, n, m);
    } else {
      assert s + u == s;
    }
    assert forall q :: Doc(ApplyText(stable, row.oid, u), q) == if q == row.oid then s + u else Doc(stable, q);
  }

  lemma RowUnder(row: Staged, s: TextDoc, c: nat)
    requires StagedOk(row, s, c)
    ensures Under(row.priorDoc, s + if row.update.Some? then row.update.value else {}, c)
  {
    var u := if row.update.Some? then row.update.value else {};
    forall x ensures x in OwnText(row.priorDoc, c) <==> x in OwnText(s + u, c) {
      assert x in OwnText(s, c) ==> x in row.priorDoc;
    }
  }

  lemma {:induction false} KeepRows(t: Tables, rows: seq<Staged>, k: nat, c: nat)
    requires k <= |rows| && TextSide(t.stableText, t.priorText, rows, map[], c) && StagedShape(rows)
    ensures var t' := CommitRows(t, rows[..k]);
      && TextSide(t'.stableText, t'.priorText, rows[k..], map[], c)
      && t' == t.(stableText := t'.stableText, priorText := t'.priorText, priorTree := t'.priorTree)
  {
    if k == 0 {
      assert rows[0..] == rows && rows[..0] == [];
    } else {
      KeepRows(t, rows, k - 1, c);
      assert rows[..k][..k - 1] == rows[..k - 1] && rows[k - 1..][1..] == rows[k..];
      var t1 := CommitRows(t, rows[..k - 1]);
      KeepRow(t1.stableText, t1.priorText, rows[k - 1..], c);
    }
  }

  /** The outbox gets exactly what stable gets. */
  lemma {:induction false} RowsMint(t: Tables, rows: seq<Staged>, k: nat, c: nat)
    requires k <= |rows| && TextSide(t.stableText, t.priorText, rows, map[], c) && StagedShape(rows)
    ensures StableOps(CommitRows(t, rows[..k])) == StableOps(t) + Join(TextMessages(rows[..k]))
    ensures MintOk(StableOps(t), TextMessages(rows[..k]), c)
  {
    if k == 0 {
      assert StableOps(t) + {} == StableOps(t);
    } else {
      RowsMint(t, rows, k - 1, c);
      RowsUnfold(t, rows, k, c);
      RowMint(StableOps(t), CommitRows(t, rows[..k - 1]), TextMessages(rows[..k - 1]), rows[k - 1], c);
    }
  }

  lemma RowsUnfold(t: Tables, rows: seq<Staged>, k: nat, c: nat)
    requires 0 < k <= |rows| && TextSide(t.stableText, t.priorText, rows, map[], c) && StagedShape(rows)
    ensures var row := rows[k - 1];
      && CommitRows(t, rows[..k]) == CommitRow(CommitRows(t, rows[..k - 1]), row)
      && TextMessages(rows[..k]) == TextMessages(rows[..k - 1])
           + (if row.update.Some? then [TextObjectUpdate(row.oid, row.update.value)] else [])
      && StagedOk(row, Doc(CommitRows(t, rows[..k - 1]).stableText, row.oid), c)
  {
    KeepRows(t, rows, k - 1, c);
    assert rows[..k][..k - 1] == rows[..k - 1];
    assert rows[k - 1..][0] == rows[k - 1];
  }

  lemma RowMint(before: set<Op>, t: Tables, out: seq<Message>, row: Staged, c: nat)
    requires StableOps(t) == before + Join(out) && MintOk(before, out, c)
    requires StagedOk(row, Doc(t.stableText, row.oid), c)
    ensures var out' := out + if row.update.Some? then [TextObjectUpdate(row.oid, row.update.value)] else [];
      StableOps(CommitRow(t, row)) == before + Join(out') && MintOk(before, out', c)
  {
    RowMints(t, row);
    if row.update.Some? {
      var m := TextObjectUpdate(row.oid, row.update.value);
      assert (out + [m])[..|out|] == out;
      StableHas(t);
      TextMessage(StableOps(t), Doc(t.stableText, row.oid), row.oid, row.update.value, c);
      MintAdd(before, out, m, StableOps(t), c);
    } else {
      assert out + [] == out;
    }
  }

  lemma RowMints(t: Tables, row: Staged)
    ensures StableOps(CommitRow(t, row)) ==
            StableOps(t) + if row.update.Some? then TextPart(row.oid, row.update.value) else {}
  {
    var u := if row.update.Some? then row.update.value else {};
    TextsGrow(t.stableText, row.oid, u);
  }

  // ---------------------------------------------------------------- committing an import

  lemma {:induction false} StagedFactsIn(me: Me, staged: seq<Staged>)
    ensures forall i :: 0 <= i < |staged| && staged[i].kind.New? ==>
      AddObject(staged[i].oid, Text, me.writer) in StagedFacts(me, staged)
    ensures forall f :: f in StagedFacts(me, staged) && f.AddClaim? ==>
      exists i :: 0 <= i < |staged| && !staged[i].kind.Update? && f == AddClaim(staged[i].claim, staged[i].oid, staged[i].path)
    ensures forall f :: f in StagedFacts(me, staged) && f.AddObject? ==>
      exists i :: 0 <= i < |staged| && staged[i].kind.New? && f == AddObject(staged[i].oid, Text, me.writer)
    ensures forall f :: f in StagedFacts(me, staged) ==> !f.RemoveClaim?
  {
    if staged != [] {
      var k := |staged| - 1;
      StagedFactsIn(me, staged[..k]);
      forall i | 0 <= i < k ensures staged[..k][i] == staged[i] {}
      assert staged[k] in staged;
    }
  }

  lemma StagedGrounded(me: Me, ns: NsDoc, staged: seq<Staged>)
    requires forall i :: 0 <= i < |staged| && !staged[i].kind.New? ==> HasObject(ns, staged[i].oid)
    ensures FactsGrounded(ns, StagedFacts(me, staged))
  {
    var facts := StagedFacts(me, staged);
    StagedFactsIn(me, staged);
    forall f | 0 <= f < |facts| && facts[f].AddClaim? && !HasObject(ns, facts[f].owner)
      ensures exists j :: 0 <= j < |facts| && facts[j].AddObject? && facts[j].oid == facts[f].owner
    {
      assert facts[f] in facts;
      var i :| 0 <= i < |staged| && !staged[i].kind.Update? && facts[f] == AddClaim(staged[i].claim, staged[i].oid, staged[i].path);
      assert AddObject(staged[i].oid, Text, me.writer) in facts;
    }
  }

  /** After the namespace half, every staged object is known. */
  lemma StagedKnown(me: Me, ns: NsDoc, staged: seq<Staged>, u: NsDoc, n: nat, i: nat)
    requires forall i :: 0 <= i < |staged| && !staged[i].kind.New? ==> HasObject(ns, staged[i].oid)
    requires u == NsOps(me.client, n, StagedFacts(me, staged)) && i < |staged|
    ensures HasObject(ns + u, staged[i].oid)
  {
    if staged[i].kind.New? {
      var facts := StagedFacts(me, staged);
      StagedFactsIn(me, staged);
      var j :| 0 <= j < |facts| && facts[j] == AddObject(staged[i].oid, Text, me.writer);
      assert NsOp(me.client, n + j, facts[j]) in u;
    } else {
      ObjectsStay(ns, ns + u, staged[i].oid);
    }
  }

  lemma {:induction false} RowsKnown(t: Tables, ns: NsDoc, rows: seq<Staged>)
    requires forall p :: p in t.priorTree ==> HasObject(ns, t.priorTree[p].oid)
    requires forall i :: 0 <= i < |rows| ==> HasObject(ns, rows[i].oid)
    ensures forall p :: p in CommitRows(t, rows).priorTree ==> HasObject(ns, CommitRows(t, rows).priorTree[p].oid)
  {
    if rows != [] { RowsKnown(t, ns, rows[..|rows| - 1]); }
  }

  lemma KeepCommitNamespace(me: Me, t: Tables)
    requires ReplicaInv(t, Importing, me.client) && CommitNamespace(me, t).Ok?
    requires OneClaimEach(CommitNamespace(me, t).value.tables.stableNs)
    ensures var tx := CommitNamespace(me, t).value;
      && ReplicaInv(tx.tables, Importing, me.client)
      && (forall i :: 0 <= i < |t.staged| ==> HasObject(tx.tables.stableNs, t.staged[i].oid))
      && tx.tables == t.(stableNs := tx.tables.stableNs, priorNs := tx.tables.priorNs, stableTree := tx.tables.stableTree)
      && StableOps(tx.tables) == StableOps(t) + Join(tx.out) && MintOk(StableOps(t), tx.out, me.client)
  {
    var tx := CommitNamespace(me, t).value;
    var c := me.client;
    if NamespaceChanged(t.staged) {
      var facts := StagedFacts(me, t.staged);
      var u := LocalNs(t.priorNs, c, facts);
      KeepLocalNs(t.stableNs, t.priorNs, Importing, c, facts);
      KnownGrows(t.stableNs, t.stableNs + u, t.stableTree, tx.tables.stableTree, t.priorTree, t.staged, map[]);
      StagedGrounded(me, t.stableNs, t.staged);
      OneMessage(t, u, facts, c);
      forall i | 0 <= i < |t.staged| ensures HasObject(t.stableNs + u, t.staged[i].oid) {
        StagedKnown(me, t.stableNs, t.staged, u, NsClock(t.priorNs, c), i);
      }
    }
  }

  /** A namespace update of our own, as the only message of its transaction so far. */
  lemma OneMessage(t: Tables, u: NsDoc, facts: seq<NsFact>, c: nat)
    requires NsUnder(t.priorNs, t.stableNs, c) && NsCounted(t.stableNs, c) && FactsGrounded(t.stableNs, facts)
    requires u == LocalNs(t.priorNs, c, facts)
    ensures NsPart(t.stableNs + u) + TextsPart(t.stableText) == StableOps(t) + Join([NamespaceUpdate(u)])
    ensures MintOk(StableOps(t), [NamespaceUpdate(u)], c)
  {
    LocalNsMessage(t.stableNs, TextsPart(t.stableText), t.priorNs, c, facts);
    MintOne(StableOps(t), NamespaceUpdate(u), c);
    NsGrows(t.stableNs, u);
    assert [NamespaceUpdate(u)][..0] == [];
  }

  /** The text half: all rows, on tables whose namespace already has their objects. */
  lemma KeepCommitRows(t: Tables, c: nat)
    requires ReplicaInv(t, Importing, c)
    requires forall i :: 0 <= i < |t.staged| ==> HasObject(t.stableNs, t.staged[i].oid)
    ensures ReplicaInv(CommitRows(t, t.staged).(staged := []), Idle, c)
  {
    var rows := t.staged;
    assert rows[..|rows|] == rows && rows[|rows|..] == [];
    KeepRows(t, rows, |rows|, c);
    RowsKnown(t, t.stableNs, rows);
  }

  /** `commit_sync_import_epoch_tx` keeps the invariant and mints what it adds to stable. */
  lemma KeepCommitImport(me: Me, t: Tables)
    requires ReplicaInv(t, Importing, me.client) && CommitImport(me, t).Ok?
    requires OneClaimEach(CommitImport(me, t).value.tables.stableNs)
    ensures var tx := CommitImport(me, t).value;
      && ReplicaInv(tx.tables, Idle, me.client)
      && StableOps(tx.tables) == StableOps(t) + Join(tx.out) && MintOk(StableOps(t), tx.out, me.client)
  {
    var tx1 := CommitNamespace(me, t).value;
    CommitKeepsNs(tx1.tables, t.staged);
    KeepCommitNamespace(me, t);
    KeepCommitRows(tx1.tables, me.client);
    CommitMints(t, tx1, me.client);
  }

  lemma CommitMints(t: Tables, tx: Tx, c: nat)
    requires TextSide(tx.tables.stableText, tx.tables.priorText, t.staged, map[], c) && StagedShape(t.staged)
    requires StableOps(tx.tables) == StableOps(t) + Join(tx.out) && MintOk(StableOps(t), tx.out, c)
    ensures var out := tx.out + TextMessages(t.staged);
      && StableOps(CommitRows(tx.tables, t.staged).(staged := [])) == StableOps(t) + Join(out)
      && MintOk(StableOps(t), out, c)
  {
    var rows := t.staged;
    assert rows[..|rows|] == rows;
    RowsMint(tx.tables, rows, |rows|, c);
    SuitsConcat(Sendable(c), StableOps(t), tx.out, TextMessages(rows));
    JoinConcat(tx.out, TextMessages(rows));
  }

  lemma {:induction false} CommitKeepsNs(t: Tables, rows: seq<Staged>)
    ensures CommitRows(t, rows).stableNs == t.stableNs
  {
    if rows != [] { CommitKeepsNs(t, rows[..|rows| - 1]); }
  }

  // ---------------------------------------------------------------- local deletes

  /** What a removal writes. */
  lemma DeletesWrite(me: Me, t: Tables, missing: seq<Path>, now: int, u: NsDoc)
    requires missing != [] && forall p :: p in missing ==> p in t.priorTree && t.priorTree[p].deletedAt.None?
    requires LocalDeletes(me, t, missing, now).Ok? && u == LocalNs(t.priorNs, me.client, Removals(t.priorTree, missing))
    ensures var t' := LocalDeletes(me, t, missing, now).value.tables;
      && t'.stableNs == t.stableNs + u && t'.priorNs == t.priorNs + u && TreeOf(t'.stableNs) == Ok(t'.stableTree)
      && t'.stableText == t.stableText && t'.priorText == t.priorText && t'.staged == t.staged
      && t'.priorTree == Tombstone(t.priorTree, PathSet(missing), now)
  {
  }

  lemma DeletesInv(me: Me, t: Tables, missing: seq<Path>, now: int)
    requires ReplicaInv(t, Idle, me.client) && missing != []
    requires forall p :: p in missing ==> p in t.priorTree && t.priorTree[p].deletedAt.None?
    requires LocalDeletes(me, t, missing, now).Ok?
    requires OneClaimEach(LocalDeletes(me, t, missing, now).value.tables.stableNs)
    ensures ReplicaInv(LocalDeletes(me, t, missing, now).value.tables, Idle, me.client)
  {
    var facts := Removals(t.priorTree, missing);
    DeletesWrite(me, t, missing, now, LocalNs(t.priorNs, me.client, facts));
    RemovedInv(t, LocalDeletes(me, t, missing, now).value.tables, facts, missing, now, me.client);
  }

  lemma RemovedInv(t: Tables, t': Tables, facts: seq<NsFact>, missing: seq<Path>, now: int, c: nat)
    requires ReplicaInv(t, Idle, c) && OneClaimEach(t'.stableNs) && TreeOf(t'.stableNs) == Ok(t'.stableTree)
    requires t'.stableNs == t.stableNs + LocalNs(t.priorNs, c, facts) && t'.priorNs == t.priorNs + LocalNs(t.priorNs, c, facts)
    requires t'.stableText == t.stableText && t'.priorText == t.priorText && t'.staged == t.staged
    requires t'.priorTree == Tombstone(t.priorTree, PathSet(missing), now)
    ensures ReplicaInv(t', Idle, c)
  {
    KeepLocalNs(t.stableNs, t.priorNs, Idle, c, facts);
    KnownGrows(t.stableNs, t'.stableNs, t.stableTree, t'.stableTree, t.priorTree, t.staged, map[]);
    TombstonesKnown(t'.stableNs, t'.stableTree, t.priorTree, PathSet(missing), now, t.staged);
  }

  lemma TombstonesKnown(ns: NsDoc, tree: StableTree.Tree, prior: map<Path, PriorRow>, paths: set<Path>, now: int, staged: seq<Staged>)
    requires Known(ns, tree, prior, staged, map[])
    ensures Known(ns, tree, Tombstone(prior, paths, now), staged, map[])
  {
  }

  lemma DeletesOut(me: Me, t: Tables, missing: seq<Path>, now: int)
    requires ReplicaInv(t, Idle, me.client) && missing != []
    requires forall p :: p in missing ==> p in t.priorTree && t.priorTree[p].deletedAt.None?
    requires LocalDeletes(me, t, missing, now).Ok?
    ensures var tx := LocalDeletes(me, t, missing, now).value;
      StableOps(tx.tables) == StableOps(t) + Join(tx.out) && MintOk(StableOps(t), tx.out, me.client)
  {
    var facts := Removals(t.priorTree, missing);
    KeepLocalNs(t.stableNs, t.priorNs, Idle, me.client, facts);
    OneMessage(t, LocalNs(t.priorNs, me.client, facts), facts, me.client);
  }

  lemma KeepDeletes(me: Me, t: Tables, missing: seq<Path>, now: int)
    requires ReplicaInv(t, Idle, me.client)
    requires forall p :: p in missing ==> p in t.priorTree && t.priorTree[p].deletedAt.None?
    requires LocalDeletes(me, t, missing, now).Ok?
    requires OneClaimEach(LocalDeletes(me, t, missing, now).value.tables.stableNs)
    ensures var tx := LocalDeletes(me, t, missing, now).value;
      && ReplicaInv(tx.tables, Idle, me.client)
      && StableOps(tx.tables) == StableOps(t) + Join(tx.out) && MintOk(StableOps(t), tx.out, me.client)
  {
    if missing != [] {
      DeletesInv(me, t, missing, now);
      DeletesOut(me, t, missing, now);
    }
  }
}
