/** The network can always settle: nothing that has happened makes agreement unreachable. */
module Settling {
  import opened Common
  import opened Namespace
  import opened StableTree
  import opened Documents
  import opened Delivery
  import opened DeliverySafety
  import opened DeliveryProgress
  import opened Replica
  import opened Network
  import opened NetworkSafety
  import opened NetworkRuns
  import opened Convergence

  /** The steps, each allowed by `move`, lead from `s` to `s'`. */
  ghost predicate Leads<S(!new), T>(move: (S, T, S) -> bool, s: S, steps: seq<T>, s': S)
    decreases |steps|
  {
    if steps == [] then s' == s
    else exists s1 :: move(s, steps[0], s1) && Leads(move, s1, steps[1..], s')
  }

  ghost function Moves(env: Env): (World, WorldStep, World) -> bool {
    (w: World, step: WorldStep, w': World) => WorldEnabled(env, w, step) && WorldNext(env, w, step) == Ok(w')
  }

  /** No new messages, no crashes, no connection failures: daemons send and read what there is. */
  predicate Calm(steps: seq<WorldStep>) {
    forall i :: 0 <= i < |steps| ==> (steps[i].Deliver? && !steps[i].move.WriterFail?) || steps[i].Apply?
  }

  lemma {:induction false} LeadsOn<S(!new), T>(move: (S, T, S) -> bool, s: S, a: seq<T>, s1: S, b: seq<T>, s2: S)
    requires Leads(move, s, a, s1) && Leads(move, s1, b, s2)
    ensures Leads(move, s, a + b, s2)
    decreases |a|
  {
    if a == [] {
      assert a + b == b;
    } else {
      var next :| move(s, a[0], next) && Leads(move, next, a[1..], s1);
      assert (a + b)[1..] == a[1..] + b && (a + b)[0] == a[0];
      LeadsOn(move, next, a[1..], s1, b, s2);
    }
  }

  lemma LeadsFirst<S(!new), T>(move: (S, T, S) -> bool, s: S, step: T, s1: S, rest: seq<T>, s2: S)
    requires move(s, step, s1) && Leads(move, s1, rest, s2)
    ensures Leads(move, s, [step] + rest, s2)
  {
    assert ([step] + rest)[1..] == rest;
  }

  // ---------------------------------------------------------------- sending

  /** Only the node of daemon `d` and the log have changed. */
  ghost predicate OnlyNode(w: World, w': World, d: nat) {
    && d < |w.daemons| == |w'.daemons| && w'.daemons[d].local == w.daemons[d].local
    && forall e :: 0 <= e < |w.daemons| && e != d ==> w'.daemons[e] == w.daemons[e]
  }

  lemma NodeProgress(w: World, d: nat)
    requires WorldInv(w) && d < |w.daemons|
    ensures var s := w.daemons[d].node;
      && (Chosen(s).None? ==> s.rows == [])
      && (Chosen(s).Some? ==>
            var step := Chosen(s).value;
            && Enabled(s, step) && Timely(s, step) && !step.Mint? && !step.Crash? && !step.WriterFail?
            && Next(s, step).Ok? && LessLeft(Next(s, step).value, s))
  {
    assert Inv(d, w.daemons[d].node, w.log) by { assert DaemonInv(d, w.daemons[d], w.log); }
    Progress(d, w.daemons[d].node, w.log);
  }

  function Sent(w: World, d: nat, node: Node, landed: seq<Record>): World
    requires d < |w.daemons|
  {
    World(w.daemons[d := w.daemons[d].(node := node)], w.log + landed)
  }

  /** One step of the schedule in the network. */
  lemma SendStep(env: Env, w: World, d: nat, move: Delivery.Step, w': World)
    requires WorldInv(w) && d < |w.daemons| && !move.Mint? && !move.Crash?
    requires Enabled(w.daemons[d].node, move) && Timely(w.daemons[d].node, move) && Next(w.daemons[d].node, move).Ok?
    requires w' == Sent(w, d, Next(w.daemons[d].node, move).value, Landing(d, w.daemons[d].node, move))
    ensures Moves(env)(w, Deliver(d, move), w') && WorldInv(w') && OnlyNode(w, w', d)
  {
    WorldStepSafe(env, w, Deliver(d, move));
  }

  /** A daemon can empty its outbox. */
  lemma {:induction false} CanSend(env: Env, w: World, d: nat) returns (steps: seq<WorldStep>, w': World)
    requires WorldInv(w) && d < |w.daemons|
    ensures Leads(Moves(env), w, steps, w') && Calm(steps) && WorldInv(w') && OnlyNode(w, w', d) && w'.daemons[d].node.rows == []
    decreases ToReconnect(w.daemons[d].node), ToRelease(w.daemons[d].node), ToSend(w.daemons[d].node)
  {
    NodeProgress(w, d);
    if Chosen(w.daemons[d].node).None? {
      steps, w' := [], w;
    } else {
      var move := Chosen(w.daemons[d].node).value;
      var w1 := Sent(w, d, Next(w.daemons[d].node, move).value, Landing(d, w.daemons[d].node, move));
      SendStep(env, w, d, move, w1);
      var rest: seq<WorldStep>;
      rest, w' := CanSend(env, w1, d);
      LeadsFirst(Moves(env), w, Deliver(d, move), w1, rest, w');
      steps := [Deliver(d, move)] + rest;
    }
  }

  ghost predicate SentBelow(w: World, k: nat) { forall e :: 0 <= e < k && e < |w.daemons| ==> w.daemons[e].node.rows == [] }

  /** One after the other, all of them. */
  lemma {:induction false} AllCanSend(env: Env, w: World, k: nat) returns (steps: seq<WorldStep>, w': World)
    requires WorldInv(w) && k <= |w.daemons|
    ensures Leads(Moves(env), w, steps, w') && Calm(steps) && WorldInv(w') && |w'.daemons| == |w.daemons| && SentBelow(w', k)
  {
    if k == 0 {
      steps, w' := [], w;
    } else {
      var a, w1 := AllCanSend(env, w, k - 1);
      var b, w2 := CanSend(env, w1, k - 1);
      LeadsOn(Moves(env), w, a, w1, b, w2);
      steps, w' := a + b, w2;
    }
  }

  // ---------------------------------------------------------------- reading

  /** Reading the rest of the log would leave a namespace in which a loser runs out of conflict names. */
  ghost predicate OutOfNames(w: World, d: nat) {
    && d < |w.daemons| && w.daemons[d].local.tables.cursor <= |w.log|
    && var doc := w.daemons[d].local.tables.stableNs + NsOf(d, w.log[w.daemons[d].local.tables.cursor..]);
       Complete(doc) && Materialized(ClaimsOf(doc)).Fault?
  }

  ghost predicate Read(w: World, d: nat) { d < |w.daemons| && w.daemons[d].local.tables.cursor == |w.log| }

  /** Only the tables of daemon `d` have changed. */
  ghost predicate OnlyTables(w: World, w': World, d: nat) {
    && d < |w.daemons| == |w'.daemons| && w'.log == w.log && w'.daemons[d].node == w.daemons[d].node
    && forall e :: 0 <= e < |w.daemons| && e != d ==> w'.daemons[e] == w.daemons[e]
  }

  lemma FailsOnNames(w: World, d: nat, count: nat)
    requires WorldInv(w) && d < |w.daemons| && w.daemons[d].local.tables.cursor + count == |w.log|
    requires ApplyBatch(d, w.daemons[d].local.tables, w.daemons[d].local.tables.cursor, Batch(w, d, count)).Fault?
    ensures OutOfNames(w, d)
  {
    BatchInWorld(w, d, count);
    assert Batch(w, d, count) == w.log[w.daemons[d].local.tables.cursor..];
    var doc := w.daemons[d].local.tables.stableNs + NsOf(d, Batch(w, d, count));
    if Materialized(ClaimsOf(doc)).Ok? {
      ClaimsUnique(doc);
      DesiredOfMaterialized(ClaimsOf(doc));
    }
  }

  lemma CursorInLog(w: World, d: nat)
    requires WorldInv(w) && d < |w.daemons|
    ensures w.daemons[d].local.tables.cursor <= |w.log|
  {
    assert DaemonInv(d, w.daemons[d], w.log);
  }

  lemma CanRead(env: Env, w: World, d: nat) returns (steps: seq<WorldStep>, w': World)
    requires WorldInv(w) && d < |w.daemons|
    ensures Leads(Moves(env), w, steps, w') && Calm(steps) && WorldInv(w') && OnlyTables(w, w', d) && (Read(w', d) || OutOfNames(w', d))
  {
    CursorInLog(w, d);
    var count := |w.log| - w.daemons[d].local.tables.cursor;
    steps, w' := [], w;
    if count > 0 {
      var step := WorldStep.Apply(d, count);
      WorldStepSafe(env, w, step);
      if WorldNext(env, w, step).Ok? {
        w' := WorldNext(env, w, step).value;
        steps := [step] + [];
        LeadsFirst(Moves(env), w, step, w', [], w');
      } else {
        FailsOnNames(w, d, count);
      }
    }
  }

  ghost predicate ReadBelow(w: World, k: nat) { forall e :: 0 <= e < k && e < |w.daemons| ==> Read(w, e) || OutOfNames(w, e) }

  lemma ReadStays(w: World, w': World, d: nat, e: nat)
    requires OnlyTables(w, w', d) && e != d && e < |w.daemons|
    ensures Read(w', e) <==> Read(w, e)
    ensures OutOfNames(w', e) <==> OutOfNames(w, e)
  {
    assert w'.daemons[e] == w.daemons[e];
  }

  lemma {:induction false} AllCanRead(env: Env, w: World, k: nat) returns (steps: seq<WorldStep>, w': World)
    requires WorldInv(w) && k <= |w.daemons| && SentBelow(w, |w.daemons|)
    ensures Leads(Moves(env), w, steps, w') && Calm(steps) && WorldInv(w') && |w'.daemons| == |w.daemons|
    ensures SentBelow(w', |w.daemons|) && ReadBelow(w', k)
  {
    if k == 0 {
      steps, w' := [], w;
    } else {
      var a, w1 := AllCanRead(env, w, k - 1);
      var b, w2 := CanRead(env, w1, k - 1);
      LeadsOn(Moves(env), w, a, w1, b, w2);
      forall e: nat | e < k - 1 ensures Read(w2, e) || OutOfNames(w2, e) { ReadStays(w1, w2, k - 1, e); }
      steps, w' := a + b, w2;
    }
  }

  // ---------------------------------------------------------------- the result

  /** A calm run from `w` to `w'`, where everything is sent and read but by daemons out of conflict names. */
  ghost predicate Settles(env: Env, w: World, steps: seq<WorldStep>, w': World) {
    && Leads(Moves(env), w, steps, w') && Calm(steps) && |w'.daemons| == |w.daemons|
    && (forall d :: 0 <= d < |w'.daemons| ==> w'.daemons[d].node.rows == [])
    && (Settled(w') || exists d :: OutOfNames(w', d))
  }

  lemma SentAndRead(w: World)
    requires SentBelow(w, |w.daemons|) && ReadBelow(w, |w.daemons|)
    ensures Settled(w) || exists d :: OutOfNames(w, d)
  {
    if !exists d :: OutOfNames(w, d) {
      forall d | 0 <= d < |w.daemons| ensures w.daemons[d].node.rows == [] && w.daemons[d].local.tables.cursor == |w.log| {
        assert Read(w, d);
      }
    }
  }

  lemma CanSettleFrom(env: Env, w: World)
    requires WorldInv(w)
    ensures exists steps, w' :: Settles(env, w, steps, w')
  {
    var a, w1 := AllCanSend(env, w, |w.daemons|);
    var b, w2 := AllCanRead(env, w1, |w.daemons|);
    LeadsOn(Moves(env), w, a, w1, b, w2);
    SentAndRead(w2);
    assert Settles(env, w, a + b, w2);
  }

  /** From every reachable state some calm run settles the network, unless a daemon runs out of conflict names. */
  lemma CanSettle(env: Env, ws: seq<World>, i: nat)
    requires Convergence.IsRun(env, ws) && i < |ws|
    ensures exists steps, w' :: Settles(env, ws[i], steps, w')
  {
    RunInv(env, ws, i);
    CanSettleFrom(env, ws[i]);
  }
}
