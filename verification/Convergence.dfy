/** The main results about every reachable state of the network. */
module Convergence {
  import opened Common
  import opened Crdt
  import opened Order
  import opened Namespace
  import opened StableTree
  import opened Documents
  import opened Delivery
  import opened DeliverySafety
  import opened DeliveryResults
  import opened Replica
  import opened ReplicaSafety
  import opened ReplicaMint
  import opened ReplicaSteps
  import opened Network
  import opened NetworkSafety
  import opened NetworkRuns
  import opened NetworkMint

  // ---------------------------------------------------------------- every step, every run

  lemma EmptyTree()
    ensures TreeOf({}) == Ok(map[])
  {
    ClaimOrder();
    assert ClaimsOf({}) == {};
    var ps := Sorted(PathLess, Paths({}));
    assert ps == [] by { if ps != [] { HasElement(ps); } }
    assert Contenders([]) == [] && PlaceLosers([], Paths({})) == Ok([]);
    assert AllWon([]) + [] == [];
    assert Materialized({}) == Ok([]);
  }

  lemma EmptyReplica(c: nat)
    ensures ReplicaInv(Tables(0, {}, map[], map[], {}, map[], map[], [], map[], map[]), Idle, c)
  {
    EmptyTree();
    assert NsSpans({}, c, 0, 0) && TextSpans({}, c, 0, 0);
  }

  lemma InitialInv(w: World)
    requires Initial(w)
    ensures WorldInv(w)
  {
    forall d | 0 <= d < |w.daemons| ensures DaemonInv(d, w.daemons[d], w.log) {
      FreshInv(d, []);
      EmptyReplica(w.daemons[d].me.client);
    }
  }

  /** Every step keeps the invariant; delivery steps never fault. */
  lemma WorldStepSafe(env: Env, w: World, step: WorldStep)
    requires WorldInv(w) && WorldEnabled(env, w, step)
    ensures step.Deliver? || step.Restart? || step.Repeat? ==> WorldNext(env, w, step).Ok?
    ensures WorldNext(env, w, step).Ok? ==> WorldInv(WorldNext(env, w, step).value)
  {
    match step {
      case Transact(d, s) => if WorldNext(env, w, step).Ok? { KeepTransact(env, w, d, s); }
      case Deliver(d, move) => KeepDeliver(w, d, move);
      case Apply(d, count) => if WorldNext(env, w, step).Ok? { ApplyStep(env, w, d, count); }
      case Restart(d) => KeepRestart(w, d);
      case Repeat(at) => KeepRepeat(w, at);
    }
  }

  lemma ApplyStep(env: Env, w: World, d: nat, count: nat)
    requires WorldInv(w) && WorldEnabled(env, w, Apply(d, count)) && WorldNext(env, w, Apply(d, count)).Ok?
    ensures WorldInv(WorldNext(env, w, Apply(d, count)).value)
  {
    var it := w.daemons[d];
    var t := ApplyBatch(d, it.local.tables, it.local.tables.cursor, Batch(w, d, count)).value;
    KeepApplied(w, d, count, t);
    KeepOne(w, d, it.(local := it.local.(tables := t)));
  }

  ghost predicate StepTo(env: Env, w: World, w': World) {
    exists step :: WorldEnabled(env, w, step) && WorldNext(env, w, step) == Ok(w')
  }

  /** A run from an initial state: transactions, deliveries, repeats, crashes in any order. */
  ghost predicate IsRun(env: Env, ws: seq<World>) {
    && ws != [] && Initial(ws[0])
    && forall i :: 0 <= i < |ws| - 1 ==> StepTo(env, ws[i], ws[i + 1])
  }

  lemma {:induction false} RunInv(env: Env, ws: seq<World>, i: nat)
    requires IsRun(env, ws) && i < |ws|
    ensures WorldInv(ws[i])
  {
    if i == 0 {
      InitialInv(ws[0]);
    } else {
      RunInv(env, ws, i - 1);
      assert StepTo(env, ws[i - 1], ws[(i - 1) + 1]);
      var step :| WorldEnabled(env, ws[i - 1], step) && WorldNext(env, ws[i - 1], step) == Ok(ws[i]);
      WorldStepSafe(env, ws[i - 1], step);
    }
  }

  // ---------------------------------------------------------------- convergence

  /** In every reachable state, stable is the join of what the daemon minted and the foreign log below its cursor. */
  lemma StableIsJoin(env: Env, ws: seq<World>, i: nat, d: nat)
    requires IsRun(env, ws) && i < |ws| && d < |ws[i].daemons|
    ensures var it := ws[i].daemons[d]; var t := it.local.tables;
      && t.cursor <= |ws[i].log|
      && StableOps(t) == Join(it.node.minted) + ForeignOps(d, ws[i].log[..t.cursor])
      && TreeOf(t.stableNs) == Ok(t.stableTree)
  {
    RunInv(env, ws, i);
    assert DaemonInv(d, ws[i].daemons[d], ws[i].log);
  }

  /** Every outbox is empty and every daemon has applied the whole log. */
  ghost predicate Settled(w: World) {
    forall d :: 0 <= d < |w.daemons| ==> w.daemons[d].node.rows == [] && w.daemons[d].local.tables.cursor == |w.log|
  }

  /** Everything in the log. */
  ghost predicate InLog(log: seq<Record>, op: Op) {
    exists j :: 0 <= j < |log| && op in Ops(log[j].entry.msg)
  }

  lemma SettledHasLog(w: World, d: nat, op: Op)
    requires WorldInv(w) && Settled(w) && d < |w.daemons|
    ensures op in StableOps(w.daemons[d].local.tables) <==> InLog(w.log, op)
  {
    var it := w.daemons[d];
    var m := it.node.minted;
    assert DaemonInv(d, it, w.log);
    assert w.log[..|w.log|] == w.log;
    ForeignHas(d, w.log, op);
    if op in Join(m) {
      JoinHas(m, op);
      var i :| 0 <= i < |m| && op in Ops(m[i]);
      NothingLost(d, it.node, w.log, i);
      assert Record(d, Entry(i, m[i])) in w.log;
      var j :| 0 <= j < |w.log| && w.log[j] == Record(d, Entry(i, m[i]));
      assert InLog(w.log, op);
    }
    if InLog(w.log, op) {
      var j :| 0 <= j < |w.log| && op in Ops(w.log[j].entry.msg);
      RecordMinted(w, j);
      assert w.log[j].origin == d ==> op in Join(m);
    }
  }

  /** Once settled, all daemons have the same namespace, the same tree and the same text. */
  lemma Converged(env: Env, ws: seq<World>, i: nat, d: nat, e: nat)
    requires IsRun(env, ws) && i < |ws| && Settled(ws[i]) && d < |ws[i].daemons| && e < |ws[i].daemons|
    ensures var a, b := ws[i].daemons[d].local.tables, ws[i].daemons[e].local.tables;
      a.stableNs == b.stableNs && a.stableTree == b.stableTree
      && forall o :: Doc(a.stableText, o) == Doc(b.stableText, o)
  {
    var w := ws[i];
    RunInv(env, ws, i);
    var a, b := w.daemons[d].local.tables, w.daemons[e].local.tables;
    forall op ensures op in StableOps(a) <==> op in StableOps(b) {
      SettledHasLog(w, d, op);
      SettledHasLog(w, e, op);
    }
    SameStable(a, b);
    StableIsJoin(env, ws, i, d);
    StableIsJoin(env, ws, i, e);
  }

  lemma SameStable(a: Tables, b: Tables)
    requires forall op :: op in StableOps(a) <==> op in StableOps(b)
    ensures a.stableNs == b.stableNs && forall o :: Doc(a.stableText, o) == Doc(b.stableText, o)
  {
    StableHas(a);
    StableHas(b);
    forall o ensures Doc(a.stableText, o) == Doc(b.stableText, o) {
      assert forall x :: x in Doc(a.stableText, o) <==> Txt(o, x) in StableOps(a);
    }
  }

  // ---------------------------------------------------------------- delivery and causality

  /** In every reachable state of every daemon, the delivery invariant holds against the shared log. */
  lemma DeliveryHolds(env: Env, ws: seq<World>, i: nat, d: nat)
    requires IsRun(env, ws) && i < |ws| && d < |ws[i].daemons|
    ensures Inv(d, ws[i].daemons[d].node, ws[i].log)
  {
    RunInv(env, ws, i);
    assert DaemonInv(d, ws[i].daemons[d], ws[i].log);
  }

  /** Every reachable stable state contains everything its operations refer to. */
  lemma StableClosed(env: Env, ws: seq<World>, i: nat, d: nat)
    requires IsRun(env, ws) && i < |ws| && d < |ws[i].daemons|
    ensures Closed(StableOps(ws[i].daemons[d].local.tables)) && Complete(ws[i].daemons[d].local.tables.stableNs)
  {
    var t := ws[i].daemons[d].local.tables;
    RunInv(env, ws, i);
    StableIsJoin(env, ws, i, d);
    CausallyClosed(ws[i], d, t.cursor);
    StableHas(t);
    ClosedIsComplete(StableOps(t), t.stableNs);
  }

  /** A batch can fail to apply only when some loser runs out of conflict names. */
  lemma ApplyFailsOnlyOnNames(env: Env, ws: seq<World>, i: nat, d: nat, count: nat)
    requires IsRun(env, ws) && i < |ws| && WorldEnabled(env, ws[i], Apply(d, count))
    ensures var doc := ws[i].daemons[d].local.tables.stableNs + NsOf(d, Batch(ws[i], d, count));
      && Complete(doc)
      && (WorldNext(env, ws[i], Apply(d, count)).Fault? ==> Materialized(ClaimsOf(doc)).Fault?)
  {
    var w := ws[i];
    RunInv(env, ws, i);
    BatchInWorld(w, d, count);
    var doc := w.daemons[d].local.tables.stableNs + NsOf(d, Batch(w, d, count));
    if Materialized(ClaimsOf(doc)).Ok? {
      ClaimsUnique(doc);
      DesiredOfMaterialized(ClaimsOf(doc));
    }
  }

  /** Local updates add claims only for known objects, so they never lose metadata either. */
  lemma LocalUpdateComplete(env: Env, ws: seq<World>, i: nat, d: nat)
    requires IsRun(env, ws) && i < |ws| && d < |ws[i].daemons|
    ensures var it := ws[i].daemons[d]; var t := it.local.tables;
      Complete(t.stableNs + LocalNs(t.priorNs, it.me.client, StagedFacts(it.me, t.staged)))
  {
    var it := ws[i].daemons[d];
    var t := it.local.tables;
    StableClosed(env, ws, i, d);
    RunInv(env, ws, i);
    assert Known(t.stableNs, t.stableTree, t.priorTree, t.staged, PlanIn(it.local.mode)) by {
      assert DaemonInv(d, it, ws[i].log);
    }
    StagedGrounded(it.me, t.stableNs, t.staged);
    GroundedCompletes(t.stableNs, it.me.client, NsClock(t.priorNs, it.me.client), StagedFacts(it.me, t.staged));
  }

  lemma GroundedCompletes(ns: NsDoc, c: nat, n: nat, facts: seq<NsFact>)
    requires Complete(ns) && FactsGrounded(ns, facts)
    ensures Complete(ns + NsOps(c, n, facts))
  {
    var u := NsOps(c, n, facts);
    forall x | IsActive(ns + u, x) ensures HasObject(ns + u, x.fact.owner) {
      if x in ns {
        assert IsActive(ns, x);
        ObjectsStay(ns, ns + u, x.fact.owner);
      } else {
        var i :| 0 <= i < |facts| && x == NsOp(c, n + i, facts[i]);
        if HasObject(ns, facts[i].owner) {
          ObjectsStay(ns, ns + u, x.fact.owner);
        } else {
          var j :| 0 <= j < |facts| && facts[j].AddObject? && facts[j].oid == facts[i].owner;
          assert NsOp(c, n + j, facts[j]) in ns + u;
        }
      }
    }
  }

  // ---------------------------------------------------------------- prior and stable

  /** Prior is below stable, for the namespace and for every text object. */
  lemma PriorBelowStable(env: Env, ws: seq<World>, i: nat, d: nat)
    requires IsRun(env, ws) && i < |ws| && d < |ws[i].daemons|
    ensures var t := ws[i].daemons[d].local.tables;
      t.priorNs <= t.stableNs && forall o :: Doc(t.priorText, o) <= Doc(t.stableText, o)
  {
    RunInv(env, ws, i);
    assert DaemonInv(d, ws[i].daemons[d], ws[i].log);
    var t := ws[i].daemons[d].local.tables;
    forall o ensures Doc(t.priorText, o) <= Doc(t.stableText, o) {
      assert Under(Doc(t.priorText, o), Doc(t.stableText, o), ws[i].daemons[d].me.client);
    }
  }

  /**
   * Prior holds every namespace operation this daemon ever minted, so its own clock is
   * exactly their number, and the next clock is one no message has used.
   */
  lemma PriorCountsNamespace(env: Env, ws: seq<World>, i: nat, d: nat)
    requires IsRun(env, ws) && i < |ws| && d < |ws[i].daemons|
    ensures var it := ws[i].daemons[d]; var c := it.me.client; var t := it.local.tables;
      && (forall x :: x in OwnNs(t.priorNs, c) <==> Ns(x) in Join(it.node.minted))
      && NsSpans(t.priorNs, c, 0, NsClock(t.priorNs, c))
      && (forall x :: Ns(x) in Join(it.node.minted) ==> x.clock < NsClock(t.priorNs, c))
  {
    var w := ws[i];
    var it := w.daemons[d];
    var c, t := it.me.client, it.local.tables;
    RunInv(env, ws, i);
    assert NsUnder(t.priorNs, t.stableNs, c) && NsCounted(t.stableNs, c) by { assert DaemonInv(d, it, w.log); }
    forall x ensures x in OwnNs(t.priorNs, c) <==> Ns(x) in Join(it.node.minted) {
      assert x in OwnNs(t.priorNs, c) <==> x in OwnNs(t.stableNs, c);
      OwnOfStable(w, d, Ns(x));
      StableHas(t);
    }
    var n := LocalNsClock(t.stableNs, t.priorNs, c);
    forall x | Ns(x) in Join(it.node.minted) ensures x.clock < n { assert x in OwnNs(t.priorNs, c); }
  }

  lemma PriorCountsText(env: Env, ws: seq<World>, i: nat, d: nat, o: ObjectId)
    requires IsRun(env, ws) && i < |ws| && d < |ws[i].daemons|
    ensures var it := ws[i].daemons[d]; var c := it.me.client; var prior := Doc(it.local.tables.priorText, o);
      && (forall x :: x in OwnText(prior, c) <==> x.Insert? && Txt(o, x) in Join(it.node.minted))
      && exists n: nat :: TextSpans(prior, c, 0, n)
  {
    var w := ws[i];
    var it := w.daemons[d];
    var c, t := it.me.client, it.local.tables;
    var p, s := Doc(t.priorText, o), Doc(t.stableText, o);
    RunInv(env, ws, i);
    assert Under(p, s, c) && Counted(s, c) by { assert DaemonInv(d, it, w.log); }
    StableHas(t);
    forall x ensures x in OwnText(p, c) <==> x.Insert? && Txt(o, x) in Join(it.node.minted) {
      assert x in OwnText(p, c) <==> x in OwnText(s, c);
      if x.Insert? { OwnOfStable(w, d, Txt(o, x)); }
    }
    var n: nat :| TextSpans(s, c, 0, n);
    SpansOfOwn(s, p, c, 0, n);
  }

  /** An id under this daemon's client is in its stable state exactly when the daemon minted it. */
  lemma OwnOfStable(w: World, d: nat, op: Op)
    requires WorldInv(w) && d < |w.daemons| && IdOf(op).Some?
    ensures op in Join(w.daemons[d].node.minted) <==>
            op in StableOps(w.daemons[d].local.tables) && MintedBy(op, w.daemons[d].me.client)
  {
    var it := w.daemons[d];
    assert DaemonInv(d, it, w.log);
    if op in StableOps(it.local.tables) && op !in Join(it.node.minted) {
      ForeignHas(d, w.log[..it.local.tables.cursor], op);
      var j :| 0 <= j < it.local.tables.cursor && w.log[j].origin != d && op in Ops(w.log[j].entry.msg);
      RecordMinted(w, j);
      var e := w.log[j].origin;
      assert DaemonInv(e, w.daemons[e], w.log);
    }
  }

  /** No (client, clock) id is ever used for two operations, by anyone. */
  lemma IdsNeverReused(env: Env, ws: seq<World>, i: nat, a: Op, b: Op)
    requires IsRun(env, ws) && i < |ws| && InWorld(ws[i], a) && InWorld(ws[i], b)
    requires IdOf(a).Some? && IdOf(a) == IdOf(b)
    ensures a == b
  {
    var w := ws[i];
    RunInv(env, ws, i);
    var d :| 0 <= d < |w.daemons| && a in Join(w.daemons[d].node.minted);
    var e :| 0 <= e < |w.daemons| && b in Join(w.daemons[e].node.minted);
    assert DaemonInv(d, w.daemons[d], w.log) && DaemonInv(e, w.daemons[e], w.log);
    assert MintedBy(a, w.daemons[d].me.client) && MintedBy(b, w.daemons[e].me.client);
    assert d == e;
  }
}
