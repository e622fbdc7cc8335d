/** Transactions of one daemon as steps of the network: what minting does to the invariant. */
module NetworkMint {
  import opened Common
  import opened Crdt
  import opened Documents
  import opened Delivery
  import opened DeliverySafety
  import Files
  import opened Replica
  import opened ReplicaSafety
  import opened ReplicaMint
  import opened ReplicaSteps
  import opened Network
  import opened NetworkSafety
  import opened NetworkRuns

  // ---------------------------------------------------------------- generated ids

  /** Claims and objects in `s` are added once, are text, and are nowhere in the world. */
  ghost predicate NewIds(w: World, s: set<Op>) {
    && (forall a, b :: a in s && b in s && IsClaim(a) && IsClaim(b) && a.ns.fact.claim == b.ns.fact.claim ==> a == b)
    && (forall a, b :: a in s && b in s && IsObject(a) && IsObject(b) && a.ns.fact.oid == b.ns.fact.oid ==> a == b)
    && (forall a :: a in s && IsObject(a) ==> a.ns.fact.kind.Text?)
    && (forall a, b :: a in s && InWorld(w, b) && IsClaim(a) && IsClaim(b) ==> a.ns.fact.claim != b.ns.fact.claim)
    && (forall a, b :: a in s && InWorld(w, b) && IsObject(a) && IsObject(b) ==> a.ns.fact.oid != b.ns.fact.oid)
  }

  ghost predicate FactsOnce(facts: seq<NsFact>) {
    && (forall i, j :: 0 <= i < j < |facts| && facts[i].AddClaim? && facts[j].AddClaim? ==> facts[i].claim != facts[j].claim)
    && (forall i, j :: 0 <= i < j < |facts| && facts[i].AddObject? && facts[j].AddObject? ==> facts[i].oid != facts[j].oid)
  }

  lemma {:induction false} StagedFactsOnce(me: Me, staged: seq<Staged>)
    requires StagedShape(staged)
    ensures FactsOnce(StagedFacts(me, staged))
  {
    if staged != [] {
      var k := |staged| - 1;
      StagedFactsOnce(me, staged[..k]);
      StagedFactsIn(me, staged[..k]);
      var before := StagedFacts(me, staged[..k]);
      forall f | f in before && f.AddClaim? ensures f.claim != staged[k].claim {
        var i :| 0 <= i < k && f == AddClaim(staged[..k][i].claim, staged[..k][i].oid, staged[..k][i].path);
      }
      forall f | f in before && f.AddObject? ensures f.oid != staged[k].oid {
        var i :| 0 <= i < k && staged[..k][i].kind.New? && f == AddObject(staged[..k][i].oid, Text, me.writer);
      }
    }
  }

  lemma OnceInOps(c: nat, n: nat, facts: seq<NsFact>)
    requires FactsOnce(facts)
    ensures var s := NsPart(NsOps(c, n, facts));
      && (forall a, b :: a in s && b in s && IsClaim(a) && IsClaim(b) && a.ns.fact.claim == b.ns.fact.claim ==> a == b)
      && (forall a, b :: a in s && b in s && IsObject(a) && IsObject(b) && a.ns.fact.oid == b.ns.fact.oid ==> a == b)
  {
  }

  lemma StagedNewIds(w: World, me: Me, staged: seq<Staged>, n: nat)
    requires StagedShape(staged) && GeneratedFresh(w, staged)
    ensures NewIds(w, NsPart(NsOps(me.client, n, StagedFacts(me, staged))))
  {
    var facts := StagedFacts(me, staged);
    StagedFactsOnce(me, staged);
    OnceInOps(me.client, n, facts);
    StagedFactsIn(me, staged);
    var s := NsPart(NsOps(me.client, n, facts));
    assert forall a :: a in s ==> a.ns.fact in facts;
    forall a, b | a in s && InWorld(w, b) && IsClaim(a) && IsClaim(b) ensures a.ns.fact.claim != b.ns.fact.claim {
      var i :| 0 <= i < |staged| && !staged[i].kind.Update? && a.ns.fact == AddClaim(staged[i].claim, staged[i].oid, staged[i].path);
    }
    forall a, b | a in s && InWorld(w, b) && IsObject(a) && IsObject(b) ensures a.ns.fact.oid != b.ns.fact.oid {
      var i :| 0 <= i < |staged| && staged[i].kind.New? && a.ns.fact == AddObject(staged[i].oid, Text, me.writer);
    }
  }

  lemma {:induction false} TextMessagesOnly(rows: seq<Staged>)
    ensures forall op :: op in Join(TextMessages(rows)) ==> op.Txt?
  {
    if rows != [] {
      var k := |rows| - 1;
      TextMessagesOnly(rows[..k]);
      if rows[k].update.Some? {
        var out, m := TextMessages(rows[..k]), TextObjectUpdate(rows[k].oid, rows[k].update.value);
        JoinConcat(out, [m]);
        assert [m][..0] == [] && Join([m]) == {} + Ops(m);
      } else {
        assert TextMessages(rows) == TextMessages(rows[..k]);
      }
    }
  }

  lemma JoinOne(m: Message)
    ensures Join([m]) == Ops(m)
  {
    assert [m][..0] == [];
  }

  /** What a transaction mints: claims and objects only at an import commit, with fresh ids. */
  lemma OutNewIds(env: Env, w: World, d: nat, step: LocalStep)
    requires WorldEnabled(env, w, Transact(d, step)) && StagedShape(w.daemons[d].local.tables.staged)
    requires LocalNext(env, w.daemons[d].me, w.daemons[d].local, step).Ok?
    ensures NewIds(w, Join(LocalNext(env, w.daemons[d].me, w.daemons[d].local, step).value.out))
  {
    var it := w.daemons[d];
    var t := it.local.tables;
    match step {
      case ApplyScan(missing, now, _) =>
        if missing != [] {
          var facts := Removals(t.priorTree, missing);
          var u := NsOps(it.me.client, NsClock(t.priorNs, it.me.client), facts);
          JoinOne(NamespaceUpdate(u));
        }
      case CommitImportEpoch => ImportNewIds(w, it.me, t);
      case _ =>
    }
  }

  lemma ImportNewIds(w: World, me: Me, t: Tables)
    requires StagedShape(t.staged) && GeneratedFresh(w, t.staged) && CommitImport(me, t).Ok?
    ensures NewIds(w, Join(CommitImport(me, t).value.out))
  {
    var ns, texts := CommitNamespace(me, t).value.out, TextMessages(t.staged);
    JoinConcat(ns, texts);
    TextMessagesOnly(t.staged);
    if NamespaceChanged(t.staged) {
      var n := NsClock(t.priorNs, me.client);
      StagedNewIds(w, me, t.staged, n);
      JoinOne(NamespaceUpdate(NsOps(me.client, n, StagedFacts(me, t.staged))));
    }
  }

  // ---------------------------------------------------------------- minted histories

  /** The new messages find what they need in what the daemon holds, and are not in the log yet. */
  lemma SourcedMint(d: nat, m: seq<Message>, out: seq<Message>, log: seq<Record>, cursor: nat, c: nat)
    requires Sourced(d, m, log, cursor) && LogInv(d, m, log) && cursor <= |log|
    requires MintOk(Join(m) + ForeignOps(d, log[..cursor]), out, c)
    ensures Sourced(d, m + out, log, cursor)
  {
    var before := Join(m) + ForeignOps(d, log[..cursor]);
    var holds := (done: seq<Message>) => Sourced(d, m + done, log, cursor);
    assert m + [] == m;
    forall done, x | holds(done) && Sendable(c)(before + Join(done), x) ensures holds(done + [x]) {
      SourcedNext(d, m, done, x, log, cursor, c);
    }
    AfterEach(Sendable(c), before, out, holds);
  }

  /** What is held and what was minted meanwhile, counted either way. */
  lemma HeldIs(m: seq<Message>, done: seq<Message>, x: Message, foreign: set<Op>)
    ensures Join(m) + foreign + Join(done) == Join(m + done) + foreign
    ensures m + done + [x] == m + (done + [x])
  {
    JoinConcat(m, done);
  }

  lemma SourcedNext(d: nat, m: seq<Message>, done: seq<Message>, x: Message, log: seq<Record>, cursor: nat, c: nat)
    requires Sourced(d, m + done, log, cursor) && LogInv(d, m, log) && cursor <= |log|
    requires MessageOk(Join(m) + ForeignOps(d, log[..cursor]) + Join(done), Ops(x), c)
    ensures Sourced(d, m + (done + [x]), log, cursor)
  {
    HeldIs(m, done, x, ForeignOps(d, log[..cursor]));
    SourcedOne(d, m, m + done, x, log, cursor, c);
  }

  lemma SourcedOne(d: nat, past: seq<Message>, m: seq<Message>, x: Message, log: seq<Record>, cursor: nat, c: nat)
    requires Sourced(d, m, log, cursor) && LogInv(d, past, log) && |past| <= |m| && cursor <= |log|
    requires MessageOk(Join(m) + ForeignOps(d, log[..cursor]), Ops(x), c)
    ensures Sourced(d, m + [x], log, cursor)
  {
    var m' := m + [x];
    forall j, op, k | 0 <= j < |m'| && op in Ops(m'[j]) && k in Needs(op)
      ensures Provided(Join(m'[..j + 1]), k) || ForeignBefore(d, log, cursor, j, k)
    {
      if j < |m| {
        assert m'[..j + 1] == m[..j + 1];
      } else {
        assert m'[..j + 1] == m' && m'[..|m|] == m;
        NewNeed(d, m, x, log, cursor, op, k, c);
        assert forall q :: 0 <= q < |log| && log[q].origin == d ==> log[q].entry.id < |past|;
      }
    }
  }

  lemma NewNeed(d: nat, m: seq<Message>, x: Message, log: seq<Record>, cursor: nat, op: Op, k: Key, c: nat)
    requires cursor <= |log| && MessageOk(Join(m) + ForeignOps(d, log[..cursor]), Ops(x), c)
    requires op in Ops(x) && k in Needs(op)
    ensures Provided(Join(m) + Ops(x), k) ||
            exists p :: 0 <= p < cursor && log[p].origin != d && Provided(Ops(log[p].entry.msg), k)
  {
    var all := Join(m) + ForeignOps(d, log[..cursor]) + Ops(x);
    assert Provided(all, k);
    var a :| a in all && k in Provides(a);
    if a !in Join(m) + Ops(x) {
      ForeignHas(d, log[..cursor], a);
      var p :| 0 <= p < |log[..cursor]| && log[..cursor][p].origin != d && a in Ops(log[..cursor][p].entry.msg);
      assert log[..cursor][p] == log[p];
      assert Provided(Ops(log[p].entry.msg), k);
    }
  }

  /** Operations with fresh ids do not clash with those there were. */
  lemma DistinctGrow(a: set<Op>, b: set<Op>, before: set<Op>)
    requires DistinctIds(a) && DistinctIds(b) && a <= before && FreshIds(b, before)
    ensures DistinctIds(a + b)
  {
    assert forall x, y :: x in b && y in a && IdOf(x).Some? ==> IdOf(x) != IdOf(y);
  }

  lemma OwnMintedOne(m: seq<Message>, x: Message, before: set<Op>, c: nat)
    requires OwnMinted(m, c) && Join(m) <= before && MessageOk(before, Ops(x), c)
    ensures OwnMinted(m + [x], c)
  {
    assert (m + [x])[..|m|] == m;
    DistinctGrow(Join(m), Ops(x), before);
  }

  lemma OwnMintedNext(m: seq<Message>, done: seq<Message>, x: Message, before: set<Op>, c: nat)
    requires OwnMinted(m + done, c) && Join(m) <= before && MessageOk(before + Join(done), Ops(x), c)
    ensures OwnMinted(m + (done + [x]), c)
  {
    JoinConcat(m, done);
    OwnMintedOne(m + done, x, before + Join(done), c);
    assert m + done + [x] == m + (done + [x]);
  }

  /** Ids stay unique: nothing this daemon ever minted is minted again. */
  lemma OwnMintedGrows(m: seq<Message>, out: seq<Message>, before: set<Op>, c: nat)
    requires OwnMinted(m, c) && Join(m) <= before && MintOk(before, out, c)
    ensures OwnMinted(m + out, c)
  {
    var holds := (done: seq<Message>) => OwnMinted(m + done, c);
    assert m + [] == m;
    forall done, x | holds(done) && Sendable(c)(before + Join(done), x) ensures holds(done + [x]) {
      OwnMintedNext(m, done, x, before, c);
    }
    AfterEach(Sendable(c), before, out, holds);
  }

  // ---------------------------------------------------------------- the step

  lemma IdsOnceMint(w: World, w': World, d: nat, out: seq<Message>)
    requires IdsOnce(w) && NewIds(w, Join(out)) && d < |w.daemons| == |w'.daemons|
    requires w'.daemons[d].node.minted == w.daemons[d].node.minted + out
    requires forall e :: 0 <= e < |w.daemons| && e != d ==> w'.daemons[e].node.minted == w.daemons[e].node.minted
    ensures IdsOnce(w')
    ensures forall op :: InWorld(w', op) ==> InWorld(w, op) || op in Join(out)
  {
    JoinConcat(w.daemons[d].node.minted, out);
    forall op | InWorld(w', op) ensures InWorld(w, op) || op in Join(out) {
      var e :| 0 <= e < |w'.daemons| && op in Join(w'.daemons[e].node.minted);
      assert e != d ==> op in Join(w.daemons[e].node.minted);
      assert e == d ==> op in Join(w.daemons[d].node.minted) || op in Join(out);
    }
  }

  /** The stable namespace grows by what is put in the outbox. */
  lemma LocalNsOps(env: Env, me: Me, s: Local, step: LocalStep)
    requires LocalEnabled(env, me, s, step) && LocalNext(env, me, s, step).Ok?
    requires step.CommitProjectionEpoch? ==> ReplicaInv(s.tables, s.mode, me.client)
    ensures var tx := LocalNext(env, me, s, step).value;
      forall x :: x in tx.local.tables.stableNs ==> x in s.tables.stableNs || Ns(x) in Join(tx.out)
  {
    var t, c := s.tables, me.client;
    match step {
      case ApplyScan(missing, now, _) =>
        if missing != [] { JoinOne(NamespaceUpdate(NsOps(c, NsClock(t.priorNs, c), Removals(t.priorTree, missing)))); }
      case CommitImportEpoch =>
        var tx := CommitNamespace(me, t).value;
        CommitKeepsNs(tx.tables, t.staged);
        JoinConcat(tx.out, TextMessages(t.staged));
        if NamespaceChanged(t.staged) {
          JoinOne(NamespaceUpdate(NsOps(c, NsClock(t.priorNs, c), StagedFacts(me, t.staged))));
        }
      case CommitProjectionEpoch(order, fingers, now) => KeepCommitFrame(t, s.mode, order, fingers, now, c);
      case _ =>
    }
  }

  lemma KeepCommitFrame(t: Tables, mode: Mode, order: seq<Path>, fingers: map<Path, Files.Fingerprint>, now: int, c: nat)
    requires ReplicaInv(t, mode, c) && mode.Projecting? && forall p :: p in order ==> p in mode.plan && p in fingers
    ensures CommitActions(t.(priorNs := mode.target), mode.plan, order, fingers, now).stableNs == t.stableNs
  {
    KeepActions(t.(priorNs := mode.target), mode.plan, order, fingers, now, c);
  }

  ghost function Transacted(w: World, d: nat, tx: LocalTx): World
    requires d < |w.daemons|
  {
    var it := w.daemons[d];
    w.(daemons := w.daemons[d := it.(local := tx.local, node := AfterMint(it.node, tx.out))])
  }

  lemma TransactIds(env: Env, w: World, d: nat, step: LocalStep)
    requires WorldInv(w) && WorldEnabled(env, w, Transact(d, step))
    requires LocalNext(env, w.daemons[d].me, w.daemons[d].local, step).Ok?
    ensures var tx := LocalNext(env, w.daemons[d].me, w.daemons[d].local, step).value;
      IdsOnce(Transacted(w, d, tx)) && OneClaimEach(tx.local.tables.stableNs)
  {
    var it := w.daemons[d];
    var tx := LocalNext(env, it.me, it.local, step).value;
    assert ReplicaInv(it.local.tables, it.local.mode, it.me.client) by { assert DaemonInv(d, it, w.log); }
    OutNewIds(env, w, d, step);
    LocalNsOps(env, it.me, it.local, step);
    TransactedIds(w, d, tx);
  }

  lemma TransactedIds(w: World, d: nat, tx: LocalTx)
    requires WorldInv(w) && d < |w.daemons| && NewIds(w, Join(tx.out))
    requires forall x :: x in tx.local.tables.stableNs ==> x in w.daemons[d].local.tables.stableNs || Ns(x) in Join(tx.out)
    ensures IdsOnce(Transacted(w, d, tx)) && OneClaimEach(tx.local.tables.stableNs)
  {
    var w' := Transacted(w, d, tx);
    assert w.daemons[d].node.minted + [] == w.daemons[d].node.minted;
    IdsOnceMint(w, w', d, tx.out);
    forall x | x in tx.local.tables.stableNs ensures InWorld(w', Ns(x)) { TransactHas(w, w', d, tx, x); }
    OneClaimInWorld(w', tx.local.tables.stableNs);
  }

  lemma TransactHas(w: World, w': World, d: nat, tx: LocalTx, x: NsOp)
    requires WorldInv(w) && d < |w.daemons| && w' == Transacted(w, d, tx)
    requires x in w.daemons[d].local.tables.stableNs || Ns(x) in Join(tx.out)
    ensures InWorld(w', Ns(x))
  {
    var m := w.daemons[d].node.minted;
    JoinConcat(m, tx.out);
    assert w'.daemons[d].node.minted == m + tx.out;
    if x in w.daemons[d].local.tables.stableNs {
      StableHas(w.daemons[d].local.tables);
      StableInWorld(w, d, Ns(x));
      var e :| 0 <= e < |w.daemons| && Ns(x) in Join(w.daemons[e].node.minted);
      assert Ns(x) in Join(w'.daemons[e].node.minted);
    } else {
      assert Ns(x) in Join(w'.daemons[d].node.minted);
    }
  }

  lemma LocalCursor(env: Env, me: Me, s: Local, step: LocalStep)
    requires ReplicaInv(s.tables, s.mode, me.client)
    requires LocalEnabled(env, me, s, step) && LocalNext(env, me, s, step).Ok?
    ensures LocalNext(env, me, s, step).value.local.tables.cursor == s.tables.cursor
  {
    match step {
      case CommitImportEpoch => CommitKeepsCursor(CommitNamespace(me, s.tables).value.tables, s.tables.staged);
      case CommitProjectionEpoch(order, fingers, now) => ActionsKeepCursor(s.tables.(priorNs := s.mode.target), s.mode.plan, order, fingers, now);
      case _ =>
    }
  }

  lemma {:induction false} ActionsKeepCursor(t: Tables, plan: Plan, ps: seq<Path>, fingers: map<Path, Files.Fingerprint>, now: int)
    requires forall p :: p in ps ==> p in plan && p in fingers
    ensures CommitActions(t, plan, ps, fingers, now).cursor == t.cursor
  {
    if ps != [] { ActionsKeepCursor(t, plan, ps[..|ps| - 1], fingers, now); }
  }

  lemma {:induction false} CommitKeepsCursor(t: Tables, rows: seq<Staged>)
    ensures CommitRows(t, rows).cursor == t.cursor
  {
    if rows != [] { CommitKeepsCursor(t, rows[..|rows| - 1]); }
  }

  /** The transacting daemon: its replica, its history and its outbox move together. */
  lemma TransactDaemon(d: nat, it: Daemon, tx: LocalTx, log: seq<Record>)
    requires DaemonInv(d, it, log)
    requires ReplicaInv(tx.local.tables, tx.local.mode, it.me.client) && tx.local.tables.cursor == it.local.tables.cursor
    requires StableOps(tx.local.tables) == StableOps(it.local.tables) + Join(tx.out)
    requires MintOk(StableOps(it.local.tables), tx.out, it.me.client)
    ensures DaemonInv(d, it.(local := tx.local, node := AfterMint(it.node, tx.out)), log)
  {
    var m, cursor := it.node.minted, it.local.tables.cursor;
    SourcedMint(d, m, tx.out, log, cursor, it.me.client);
    OwnMintedGrows(m, tx.out, StableOps(it.local.tables), it.me.client);
    assert StableIs(d, tx.local.tables, m + tx.out, log) by { JoinConcat(m, tx.out); }
    MintDelivers(d, it.node, tx.out, log);
  }

  lemma MintDelivers(d: nat, node: Node, out: seq<Message>, log: seq<Record>)
    requires Inv(d, node, log)
    ensures Inv(d, AfterMint(node, out), log) && AfterMint(node, out).minted == node.minted + out
  {
    if out == [] {
      assert node.minted + out == node.minted;
    } else {
      StepSafe(d, node, log, Mint(out));
      assert log + [] == log;
    }
  }

  lemma TransactKeeps(env: Env, it: Daemon, step: LocalStep)
    requires ReplicaInv(it.local.tables, it.local.mode, it.me.client)
    requires LocalEnabled(env, it.me, it.local, step) && LocalNext(env, it.me, it.local, step).Ok?
    requires OneClaimEach(LocalNext(env, it.me, it.local, step).value.local.tables.stableNs)
    ensures var tx := LocalNext(env, it.me, it.local, step).value;
      && ReplicaInv(tx.local.tables, tx.local.mode, it.me.client) && tx.local.tables.cursor == it.local.tables.cursor
      && StableOps(tx.local.tables) == StableOps(it.local.tables) + Join(tx.out)
      && MintOk(StableOps(it.local.tables), tx.out, it.me.client)
  {
    LocalKeeps(env, it.me, it.local, step);
    LocalCursor(env, it.me, it.local, step);
  }

  lemma KeepTransact(env: Env, w: World, d: nat, step: LocalStep)
    requires WorldInv(w) && WorldEnabled(env, w, Transact(d, step))
    requires LocalNext(env, w.daemons[d].me, w.daemons[d].local, step).Ok?
    ensures WorldInv(Transacted(w, d, LocalNext(env, w.daemons[d].me, w.daemons[d].local, step).value))
  {
    var it := w.daemons[d];
    var tx := LocalNext(env, it.me, it.local, step).value;
    TransactIds(env, w, d, step);
    assert DaemonInv(d, it, w.log);
    TransactedDaemon(env, d, it, step, tx, w.log);
    EachButOne(w.daemons, w.log, d, it.(local := tx.local, node := AfterMint(it.node, tx.out)));
  }

  lemma TransactedDaemon(env: Env, d: nat, it: Daemon, step: LocalStep, tx: LocalTx, log: seq<Record>)
    requires DaemonInv(d, it, log) && LocalEnabled(env, it.me, it.local, step) && LocalNext(env, it.me, it.local, step) == Ok(tx)
    requires OneClaimEach(tx.local.tables.stableNs)
    ensures DaemonInv(d, it.(local := tx.local, node := AfterMint(it.node, tx.out)), log)
  {
    TransactKeeps(env, it, step);
    TransactDaemon(d, it, tx, log);
  }
}
