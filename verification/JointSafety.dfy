/** The run invariant of a whole daemon: what the epoch machine, the plan and the tables know of each other. */
module JointSafety {
  import opened Common
  import opened Crdt
  import opened Order
  import opened Scans
  import opened FileStore
  import opened StableTree
  import opened Documents
  import opened Delivery
  import opened Replica
  import opened ReplicaSafety
  import opened Projection
  import opened ProjectionFixpoint
  import opened Joint
  import E = Epochs
  import ES = EpochSafety
  import ER = EpochResults
  import EF = EpochFrames

  // ---------------------------------------------------------------- the projection under way

  /** The paths of the actions numbered `ids`. */
  function PathsOf(order: seq<Path>, ids: set<E.ActionId>): set<Path> {
    set id | id in ids && id.num < |order| :: order[id.num]
  }

  predicate AnyRefused(done: map<Path, Performed>) { exists p :: p in done && done[p].Refused? }

  /** The actions sent to the file system and executed by it. */
  function Executed(history: set<E.ActionId>, pending: seq<E.FsTask>, answered: bool): set<E.ActionId> {
    if pending != [] && pending[0].Perform? && !answered then history - {pending[0].id} else history
  }

  /** A projection with an action out: of those executed, only the one whose answer is still to be taken may be refused. */
  predicate OutInv(history: set<E.ActionId>, pending: seq<E.FsTask>, answered: bool, order: seq<Path>, done: map<Path, Performed>) {
    && pending != [] && pending[0].Perform? && pending[0].id in history
    && done.Keys == PathsOf(order, Executed(history, pending, answered))
    && (forall p :: p in done && done[p].Refused? ==> answered && pending[0].id.num < |order| && order[pending[0].id.num] == p)
  }

  /** A projection being closed: its commit is a discarding one exactly if an action was refused. */
  predicate ClosingInv(open: bool, discarding: bool, pendingScan: Option<Scope>, history: set<E.ActionId>, order: seq<Path>, done: map<Path, Performed>) {
    && (open ==> done.Keys == PathsOf(order, history) && (AnyRefused(done) <==> discarding))
    && (AnyRefused(done) ==> pendingScan == Some(Full))
  }

  predicate DoneInv(s: E.System, answered: bool, order: seq<Path>, done: map<Path, Performed>) {
    match s.phase
    case AwaitingNextWork(_, _) => E.Projection in s.actor.ledger.active || ES.Running(s.actor).NextWork? ==> done == map[]
    case Dispatching(kind, _, _, _) => kind.Projection? ==> OutInv(s.history, s.fs.pending, answered, order, done)
    case Committing(kind, _) =>
      kind.Projection? ==> ClosingInv(E.Projection in s.actor.ledger.active, EF.EndsDiscarding(ES.Core(s.actor.lane)), s.pendingScan, s.history, order, done)
    case _ => true
  }

  /** The planned paths are the actions' paths, each once. */
  ghost predicate Ordered(order: seq<Path>, plan: Plan) { Distinct(order) && forall p :: p in order <==> p in plan }

  predicate Numbered(active: map<E.Kind, E.Active>, order: seq<Path>) {
    E.Projection in active ==> active[E.Projection].expected == E.IdSet(Numbers(active[E.Projection].epoch, |order|))
  }

  /** A write ends written or refused. */
  predicate WritesWrote(plan: Plan, done: map<Path, Performed>) {
    forall p :: p in plan && plan[p].WriteFile? && p in done ==> !done[p].Erased?
  }

  predicate Runs(op: E.Op, plan: Plan) { op.NextWork? ==> (op.work <==> plan != map[]) }

  ghost predicate JInv(j: Joint) {
    && ES.Inv(j.sys)
    && (j.sys.work <==> Works(j.tables))
    && (j.answered ==> j.sys.fs.pending != [])
    && Ordered(j.order, j.plan) && Runs(ES.Running(j.sys.actor), j.plan)
    && Numbered(j.sys.actor.ledger.active, j.order)
    && DoneInv(j.sys, j.answered, j.order, j.done) && WritesWrote(j.plan, j.done)
  }

  // ---------------------------------------------------------------- what does not touch the tables or the plan

  /** The parts a step of the engine alone leaves as they are. */
  lemma SysStepKeeps(j: Joint, s': E.System, answered: bool)
    requires JInv(j) && ES.Inv(s') && s'.work == j.sys.work
    requires s'.actor.ledger == j.sys.actor.ledger && s'.actor.running == j.sys.actor.running
    requires answered ==> s'.fs.pending != []
    requires DoneInv(s', answered, j.order, j.done)
    ensures JInv(j.(sys := s', answered := answered)) && ModeOf(j.(sys := s', answered := answered)) == ModeOf(j)
  {
  }

  /** An epoch that stays where it is keeps its books. */
  lemma SameEpochDone(s: E.System, s': E.System, answered: bool, order: seq<Path>, done: map<Path, Performed>)
    requires DoneInv(s, answered, order, done) && EF.Busy(s.phase) && EF.SameEpoch(s, s')
    requires s'.actor.ledger == s.actor.ledger && (s.pendingScan == Some(Full) ==> s'.pendingScan == Some(Full))
    ensures DoneInv(s', answered, order, done)
  {
  }

  /** Where no projection is dispatched or closed there is little to keep. */
  lemma RestDone(s: E.System, s': E.System, answered: bool, answered': bool, order: seq<Path>, done: map<Path, Performed>)
    requires DoneInv(s, answered, order, done)
    requires s'.actor.ledger == s.actor.ledger && s'.actor.running == s.actor.running && ES.Inv(s')
    requires EF.Busy(s'.phase) ==> s'.phase.kind.Import?
    requires s'.phase.AwaitingNextWork? ==> s.phase.AwaitingNextWork? || (s.actor.ledger.active == map[] && ES.Quiet(ES.Running(s.actor)))
    ensures DoneInv(s', answered', order, done)
  {
  }

  lemma AskKeeps(env: Env, me: Me, j: Joint, step: E.Step)
    requires JInv(j) && IsAsk(step) && E.Enabled(j.sys, step)
    ensures var o := E.Next(j.sys, step);
      o.Ok? && JInv(j.(sys := o.value)) && ModeOf(j.(sys := o.value)) == ModeOf(j)
  {
    var s := j.sys;
    EF.AskActor(s, step);
    var s' := E.Next(s, step).value;
    if EF.Busy(s.phase) {
      EF.AskBusy(s, step);
      SameEpochDone(s, s', j.answered, j.order, j.done);
    } else {
      EF.AskIdle(s, step);
      RestDone(s, s', j.answered, j.answered, j.order, j.done);
    }
    SysStepKeeps(j, s', j.answered);
  }

  lemma ReplyKeeps(j: Joint, i: nat)
    requires JInv(j) && i < |j.sys.replies|
    ensures var o := E.Next(j.sys, E.TakeReply(i));
      o.Ok? && JInv(j.(sys := o.value)) && ModeOf(j.(sys := o.value)) == ModeOf(j)
  {
    var s := j.sys;
    EF.ReplyActor(s, i);
    var s' := E.Next(s, E.TakeReply(i)).value;
    if ES.IsCoreReply(s.replies[i]) {
      EF.ReplyTurn(s, i);
      if EF.TurnOf(s.replies[i]).Begun? { BegunDone(j, i); }
      else { RestDone(s, s', j.answered, j.answered, j.order, j.done); }
    } else {
      EF.ReplyAside(s, i);
      if EF.Busy(s.phase) { SameEpochDone(s, s', j.answered, j.order, j.done); }
      else { RestDone(s, s', j.answered, j.answered, j.order, j.done); }
    }
    SysStepKeeps(j, s', j.answered);
  }

  /** A begun projection has executed nothing yet. */
  lemma BegunDone(j: Joint, i: nat)
    requires JInv(j) && i < |j.sys.replies| && ES.IsCoreReply(j.sys.replies[i]) && EF.TurnOf(j.sys.replies[i]).Begun?
    ensures E.Next(j.sys, E.TakeReply(i)).Ok?
    ensures DoneInv(E.Next(j.sys, E.TakeReply(i)).value, j.answered, j.order, j.done)
    ensures !j.answered
  {
    var s := j.sys;
    EF.ReplyTurn(s, i);
    var turn := EF.TurnOf(s.replies[i]);
    var s0 := s.(replies := s.replies[..i] + s.replies[i + 1..]);
    EF.BegunFrame(s0, turn.kind, turn.started);
    var s' := E.Drive(E.Begin(s0, turn.kind, turn.started));
    if turn.kind.Projection? {
      assert j.done == map[];
      if turn.started.actions == [] {
        ES.CorePush(s.actor.lane, E.CommitEpoch(E.Projection, turn.started.epoch, true));
      } else {
        assert Executed(s'.history, s'.fs.pending, false) == {};
      }
      assert PathsOf(j.order, {}) == {};
    }
  }

  // ---------------------------------------------------------------- file operations and their answers

  /** The action that is out is one of the plan. */
  lemma InRange(j: Joint, i: nat)
    requires JInv(j) && i < |j.sys.fs.pending| && j.sys.fs.pending[i].Perform? && j.sys.fs.pending[i].kind.Projection?
    ensures i == 0 && j.sys.phase.Dispatching? && j.sys.phase.kind.Projection? && E.Projection in j.sys.actor.ledger.active
    ensures var id := j.sys.fs.pending[i].id; id in j.sys.history && id.num < |j.order| && j.order[id.num] in j.plan
  {
    var s := j.sys;
    assert i == 0 && s.phase.Dispatching? && s.phase.kind.Projection?;
    assert s.history <= s.actor.ledger.active[E.Projection].expected;
    var id := s.fs.pending[0].id;
    assert id in E.IdSet(Numbers(s.actor.ledger.active[E.Projection].epoch, |j.order|));
    assert j.order[id.num] in j.order;
  }

  /** Actions with different numbers are for different paths. */
  lemma FreshPath(order: seq<Path>, epoch: nat, history: set<E.ActionId>, id: E.ActionId)
    requires Distinct(order) && id in history && id.num < |order| && forall x :: x in history ==> x.epoch == epoch
    ensures order[id.num] !in PathsOf(order, history - {id})
    ensures PathsOf(order, history) == PathsOf(order, history - {id}) + {order[id.num]}
  {
    forall x | x in history - {id} && x.num < |order| ensures order[x.num] != order[id.num] {
      assert x != id && x.epoch == id.epoch;
    }
    assert history == history - {id} + {id};
  }

  lemma ActionsOf(j: Joint)
    requires JInv(j) && j.sys.phase.Dispatching? && j.sys.phase.kind.Projection?
    ensures forall x :: x in j.sys.history ==> x.epoch == j.sys.phase.epoch
  {
    var act := j.sys.actor.ledger.active[E.Projection];
    assert j.sys.history <= act.expected && forall x :: x in act.expected ==> x.epoch == act.epoch;
  }

  /** An action about to be executed has not been executed, and none before it was refused. */
  lemma NotYet(j: Joint, i: nat)
    requires JInv(j) && i < |j.sys.fs.pending| && j.sys.fs.pending[i].Perform? && j.sys.fs.pending[i].kind.Projection? && !j.answered
    ensures j.sys.fs.pending[i].id.num < |j.order|
    ensures var p := j.order[j.sys.fs.pending[i].id.num];
      && p in j.plan && p !in j.done && !AnyRefused(j.done)
      && PathsOf(j.order, j.sys.history) == j.done.Keys + {p}
  {
    InRange(j, i);
    ActionsOf(j);
    FreshPath(j.order, j.sys.phase.epoch, j.sys.history, j.sys.fs.pending[i].id);
  }

  /** The file system alone changes only the disk, its history, the results and the readings. */
  lemma DiskStepKeeps(j: Joint, j': Joint)
    requires JInv(j) && j' == j.(disk := j'.disk, versions := j'.versions, done := j'.done, readings := j'.readings, answered := j'.answered)
    requires j'.answered ==> j.sys.fs.pending != []
    requires DoneInv(j.sys, j'.answered, j.order, j'.done) && WritesWrote(j.plan, j'.done)
    ensures JInv(j') && ModeOf(j') == ModeOf(j)
  {
  }

  /** What executing the operation that is out touches. */
  lemma RanFrame(env: Env, j: Joint, i: nat)
    requires i < |j.sys.fs.pending|
    ensures var j' := Ran(env, j, i); var task := j.sys.fs.pending[i];
      && j' == j.(disk := j'.disk, versions := j'.versions, done := j'.done, readings := j'.readings, answered := true)
      && (if IsAction(j, task) then
            var p := j.order[task.id.num];
            j'.done == j.done[p := PerformOn(env, j.disk, p, j.plan[p]).1]
          else j'.done == j.done)
  {
  }

  lemma OutAfter(history: set<E.ActionId>, pending: seq<E.FsTask>, order: seq<Path>, done: map<Path, Performed>, result: Performed)
    requires OutInv(history, pending, false, order, done) && pending[0].id.num < |order| && !AnyRefused(done)
    requires PathsOf(order, history) == done.Keys + {order[pending[0].id.num]}
    ensures OutInv(history, pending, true, order, done[order[pending[0].id.num] := result])
  {
  }

  lemma PhaseOut(j: Joint)
    requires JInv(j) && j.sys.fs.pending != []
    ensures |j.sys.fs.pending| == 1
    ensures !(j.sys.fs.pending[0].Perform? && j.sys.fs.pending[0].kind.Projection?) ==> DoneInv(j.sys, true, j.order, j.done)
  {
  }

  lemma OutBefore(j: Joint)
    requires JInv(j) && j.sys.phase.Dispatching? && j.sys.phase.kind.Projection?
    ensures OutInv(j.sys.history, j.sys.fs.pending, j.answered, j.order, j.done) && |j.sys.fs.pending| == 1
  {
  }

  lemma OutIsDone(s: E.System, answered: bool, order: seq<Path>, done: map<Path, Performed>)
    requires s.phase.Dispatching? && OutInv(s.history, s.fs.pending, answered, order, done)
    ensures DoneInv(s, answered, order, done)
  {
  }

  lemma RanAction(j: Joint, i: nat, result: Performed)
    requires JInv(j) && i < |j.sys.fs.pending| && !j.answered && j.sys.fs.pending[i].Perform? && j.sys.fs.pending[i].kind.Projection?
    ensures j.sys.phase.Dispatching? && j.sys.fs.pending[i].id.num < |j.order|
    ensures OutInv(j.sys.history, j.sys.fs.pending, true, j.order, j.done[j.order[j.sys.fs.pending[i].id.num] := result])
  {
    InRange(j, i);
    OutBefore(j);
    NotYet(j, i);
    OutAfter(j.sys.history, j.sys.fs.pending, j.order, j.done, result);
  }

  /** The results after the operation that is out has been executed. */
  predicate ResultsOf(j: Joint, task: E.FsTask, done: map<Path, Performed>) {
    if IsAction(j, task) then
      var p := j.order[task.id.num];
      p in done && done == j.done[p := done[p]]
    else done == j.done
  }

  lemma ResultsDone(j: Joint, i: nat, done: map<Path, Performed>)
    requires JInv(j) && i < |j.sys.fs.pending| && !j.answered && ResultsOf(j, j.sys.fs.pending[i], done)
    ensures DoneInv(j.sys, true, j.order, done)
  {
    PhaseOut(j);
    if j.sys.fs.pending[i].Perform? && j.sys.fs.pending[i].kind.Projection? {
      InRange(j, i);
      RanAction(j, i, done[j.order[j.sys.fs.pending[i].id.num]]);
      OutIsDone(j.sys, true, j.order, done);
    }
  }

  lemma RanResults(env: Env, j: Joint, i: nat)
    requires i < |j.sys.fs.pending|
    ensures ResultsOf(j, j.sys.fs.pending[i], Ran(env, j, i).done)
  {
    RanFrame(env, j, i);
  }

  lemma RanKeeps(env: Env, j: Joint, i: nat)
    requires JInv(j) && i < |j.sys.fs.pending| && !j.answered
    ensures JInv(Ran(env, j, i)) && ModeOf(Ran(env, j, i)) == ModeOf(j) && Ran(env, j, i).sys == j.sys
  {
    RanFrame(env, j, i);
    RanResults(env, j, i);
    ResultsDone(j, i, Ran(env, j, i).done);
    RanWrites(env, j, i);
    DiskStepKeeps(j, Ran(env, j, i));
  }

  lemma RanWrites(env: Env, j: Joint, i: nat)
    requires i < |j.sys.fs.pending| && WritesWrote(j.plan, j.done)
    ensures WritesWrote(j.plan, Ran(env, j, i).done)
  {
    RanFrame(env, j, i);
  }

  lemma TakenKeeps(j: Joint, i: nat, swapLeft: bool)
    requires JInv(j) && i < |j.sys.fs.pending| && j.answered
    ensures var o := E.Next(j.sys, E.TakeFs(i, Invalidates(j, j.sys.fs.pending[i]), swapLeft));
      && o.Ok? && JInv(j.(sys := o.value, answered := false)) && ModeOf(j.(sys := o.value, answered := false)) == ModeOf(j)
  {
    var s, task := j.sys, j.sys.fs.pending[i];
    var invalid := Invalidates(j, task);
    ER.StepSafe(s, E.TakeFs(i, invalid, swapLeft));
    var s' := E.Next(s, E.TakeFs(i, invalid, swapLeft)).value;
    if task.Scan? || task.kind.Import? {
      EF.OtherAnswer(s, i, invalid, swapLeft);
      RestDone(s, s', j.answered, false, j.order, j.done);
    } else if invalid {
      InRange(j, i);
      ER.RefusalDiscards(s, i, swapLeft);
      assert EF.EndsDiscarding(ES.Core(s'.actor.lane));
    } else {
      InRange(j, i);
      EF.AcceptedFrame(s, i, swapLeft);
      AcceptedDone(j, i, s');
    }
    SysStepKeeps(j, s', false);
  }

  lemma AcceptedDone(j: Joint, i: nat, s': E.System)
    requires JInv(j) && j.answered && i < |j.sys.fs.pending| && j.sys.fs.pending[i].Perform? && j.sys.fs.pending[i].kind.Projection?
    requires !Invalidates(j, j.sys.fs.pending[i]) && j.sys.phase.Dispatching? && EF.Advanced(j.sys, s')
    ensures DoneInv(s', false, j.order, j.done)
  {
    InRange(j, i);
    var s := j.sys;
    var p := j.order[s.fs.pending[0].id.num];
    assert p in PathsOf(j.order, s.history);
    assert !AnyRefused(j.done);
    if s.phase.queue != [] {
      assert s'.history - {s.phase.queue[0]} == s.history;
    } else {
      assert !EF.EndsDiscarding(ES.Core(s'.actor.lane));
    }
  }

  // ---------------------------------------------------------------- work

  /** A batch of this daemon's own echoes changes the cursor only. */
  lemma {:induction false} EchoTexts(me: nat, texts: Texts, batch: seq<Record>)
    requires !Announced(me, batch)
    ensures TextsOf(me, texts, batch) == texts && !HasNs(me, batch)
  {
    if batch != [] {
      var k := |batch| - 1;
      assert !Announced(me, batch[..k]) by {
        forall i | 0 <= i < k ensures batch[..k][i].origin == me { assert batch[i].origin == me; }
      }
      EchoTexts(me, texts, batch[..k]);
      assert batch[k].origin == me;
    }
  }

  /** Own echoes leave the prior/stable pair alone, and so the plan. */
  lemma EchoesPlanNothing(env: Env, tree: NsDoc -> Outcome<Tree>, me: nat, t: Tables, batch: seq<Record>)
    requires !Announced(me, batch)
    ensures ApplyBatchBy(tree, me, t, t.cursor, batch) == Ok(t.(cursor := t.cursor + |batch|))
    ensures PlanOf(t.(cursor := t.cursor + |batch|)) == PlanOf(t)
  {
    EchoTexts(me, t.stableText, batch);
    WorkFrame(env, t, t.(cursor := t.cursor + |batch|), Disk(map[], 1, 0));
  }

  /** So does planning itself, which only files write intents. */
  lemma PlanningPlansNothing(env: Env, t: Tables)
    ensures PlanOf(NextWork(env, t)) == PlanOf(t)
  {
    WorkFrame(env, t, NextWork(env, t), Disk(map[], 1, 0));
  }

  /** The requests after which the machine does not look at the tables do not change whether there is work. */
  lemma WorkKept(env: Env, me: Me, j: Joint, arg: Arg)
    requires j.sys.actor.lane != [] && ArgOk(env, me, j, arg) && TablesAfter(env, me, j, arg).Ok?
    requires var r := j.sys.actor.lane[0]; r.GetNextWork? || r.Chore? || (r.ApplyBatch? && !Announced(me.origin, arg.batch))
    ensures PlanOf(TablesAfter(env, me, j, arg).value) == PlanOf(j.tables)
  {
    match j.sys.actor.lane[0] {
      case GetNextWork(_) => PlanningPlansNothing(env, j.tables);
      case ApplyBatch => EchoesPlanNothing(env, TreeOf, me.origin, j.tables, arg.batch);
      case Chore =>
    }
  }

  // ---------------------------------------------------------------- transactions start

  lemma StartDone(s: E.System, s': E.System, answered: bool, order: seq<Path>, done: map<Path, Performed>, order': seq<Path>, done': map<Path, Performed>)
    requires ES.Inv(s) && s.actor.lane != [] && s.actor.running == [] && DoneInv(s, answered, order, done)
    requires s'.phase == s.phase && s'.fs == s.fs && s'.history == s.history && s'.pendingScan == s.pendingScan
    requires s'.actor.ledger.active == (if s.actor.lane[0].CommitEpoch? then map[] else s.actor.ledger.active)
    requires s'.actor.lane == s.actor.lane[1..] && EF.RunsFor(s.actor.lane[0], ES.Running(s'.actor), s.work)
    requires if s.actor.lane[0].GetNextWork? then done' == map[] else done' == done && order' == order
    ensures DoneInv(s', answered, order', done')
  {
    EF.HeadInTurn(s);
    EF.PopDiscarding(s);
  }

  /** What starting a request does, however its transaction left the tables. */
  predicate BegunBy(j: Joint, effect: E.Effect, j': Joint)
    requires j.sys.actor.lane != []
  {
    && E.StartRequest(j.sys, effect) == Ok(j'.sys) && effect.work == Works(j'.tables) && j'.answered == j.answered
    && j'.disk == j.disk && j'.versions == j.versions
    && (if j.sys.actor.lane[0].GetNextWork?
        then j'.target == j.tables.stableNs && j'.plan == PlanOf(j.tables) && j'.done == map[]
        else j'.target == j.target && j'.plan == j.plan && j'.order == j.order && j'.done == j.done)
    && (if j.sys.actor.lane[0].ApplyScan? then j'.readings == map[] else j'.files == j.files && j'.readings == j.readings)
  }

  lemma StartedShape(me: Me, j: Joint, arg: Arg, t: Tables)
    requires j.sys.actor.lane != [] && StartedOn(me, j, arg, t).Ok?
    requires j.sys.actor.lane[0].GetNextWork? ==> Ordered(arg.order, PlanOf(j.tables))
    ensures var j' := StartedOn(me, j, arg, t).value;
      && j'.tables == t && BegunBy(j, E.Effect(Announced(me.origin, arg.batch), Works(t)), j')
      && (j.sys.actor.lane[0].GetNextWork? ==> Ordered(j'.order, j'.plan))
      && (j.sys.actor.lane[0].ApplyScan? ==> j'.files == arg.files)
  {
  }

  lemma StartShape(env: Env, me: Me, j: Joint, arg: Arg)
    requires j.sys.actor.lane != [] && ArgOk(env, me, j, arg) && Started(env, me, j, arg).Ok?
    ensures TablesAfter(env, me, j, arg).Ok?
    ensures var j' := Started(env, me, j, arg).value;
      && j'.tables == TablesAfter(env, me, j, arg).value
      && BegunBy(j, E.Effect(Announced(me.origin, arg.batch), Works(j'.tables)), j')
      && (j.sys.actor.lane[0].GetNextWork? ==> Ordered(j'.order, j'.plan))
      && (j.sys.actor.lane[0].ApplyScan? ==> j'.files == arg.files)
  {
    StartedShape(me, j, arg, TablesAfter(env, me, j, arg).value);
  }

  lemma BegunKeeps(j: Joint, effect: E.Effect, j': Joint)
    requires JInv(j) && j.sys.actor.lane != [] && j.sys.actor.running == [] && BegunBy(j, effect, j')
    requires Ordered(j'.order, j'.plan)
    requires var r := j.sys.actor.lane[0];
      r.GetNextWork? || r.Chore? || (r.ApplyBatch? && !effect.changed) ==> (Works(j'.tables) <==> Works(j.tables))
    ensures JInv(j')
  {
    var s, r := j.sys, j.sys.actor.lane[0];
    EF.StartFrame(s, effect);
    ER.StepSafe(s, E.StartOp(effect));
    StartDone(s, j'.sys, j.answered, j.order, j.done, j'.order, j'.done);
  }

  lemma StartKeeps(env: Env, me: Me, j: Joint, arg: Arg)
    requires JInv(j) && j.sys.actor.lane != [] && j.sys.actor.running == [] && ArgOk(env, me, j, arg) && Started(env, me, j, arg).Ok?
    ensures JInv(Started(env, me, j, arg).value)
  {
    StartShape(env, me, j, arg);
    var j', r := Started(env, me, j, arg).value, j.sys.actor.lane[0];
    var effect := E.Effect(Announced(me.origin, arg.batch), Works(j'.tables));
    if r.GetNextWork? || r.Chore? || (r.ApplyBatch? && !effect.changed) { WorkKept(env, me, j, arg); }
    BegunKeeps(j, effect, j');
  }

  /** A request can only fail to start because its transaction fails. */
  lemma StartFaults(env: Env, me: Me, j: Joint, arg: Arg)
    requires JInv(j) && j.sys.actor.lane != [] && j.sys.actor.running == [] && ArgOk(env, me, j, arg)
    ensures Started(env, me, j, arg).Fault? <==> TablesAfter(env, me, j, arg).Fault?
  {
    if TablesAfter(env, me, j, arg).Ok? {
      EF.StartFrame(j.sys, E.Effect(Announced(me.origin, arg.batch), Works(TablesAfter(env, me, j, arg).value)));
    }
  }

  // ---------------------------------------------------------------- and finish

  lemma FinishEnabled(j: Joint, i: nat)
    requires JInv(j) && i < |j.sys.actor.running|
    ensures i == 0 && E.Enabled(j.sys, E.FinishOp(i, PlannedIds(j)))
    ensures ES.Running(j.sys.actor).NextWork? && ES.Running(j.sys.actor).work ==> j.order != []
  {
    assert i == 0 && j.sys.actor.running[0].op == ES.Running(j.sys.actor);
    if ES.Running(j.sys.actor).NextWork? && ES.Running(j.sys.actor).work {
      assert j.plan != map[];
      var p :| p in j.plan;
      assert p in j.order;
    }
  }

  lemma FinishDone(s: E.System, s': E.System, answered: bool, order: seq<Path>, done: map<Path, Performed>)
    requires ES.Inv(s) && DoneInv(s, answered, order, done)
    requires s'.phase == s.phase && s'.fs == s.fs && s'.history == s.history && s'.pendingScan == s.pendingScan
    requires s'.actor.lane == s.actor.lane && s'.actor.running == []
    requires E.Projection in s'.actor.ledger.active ==> E.Projection in s.actor.ledger.active || ES.Running(s.actor).NextWork?
    ensures DoneInv(s', answered, order, done)
  {
    EF.RunningAlone(s);
  }

  lemma FinishKeeps(j: Joint, i: nat)
    requires JInv(j) && i < |j.sys.actor.running|
    ensures var o := E.FinishTask(j.sys, i, PlannedIds(j));
      o.Ok? && JInv(j.(sys := o.value)) && ModeOf(j.(sys := o.value)) == ModeOf(j)
  {
    FinishEnabled(j, i);
    var ids := PlannedIds(j);
    EF.FinishFrame(j.sys, ids);
    var s' := E.FinishTask(j.sys, i, ids).value;
    FinishDone(j.sys, s', j.answered, j.order, j.done);
    FinishActive(j, s', ids);
    assert JInv(j.(sys := s'));
  }

  lemma FinishActive(j: Joint, s': E.System, ids: seq<E.ActionId>)
    requires Numbered(j.sys.actor.ledger.active, j.order) && ids == PlannedIds(j) && EF.Finished(j.sys, s', ids)
    ensures Numbered(s'.actor.ledger.active, j.order)
    ensures ModeOf(j.(sys := s')) == ModeOf(j)
  {
  }

  // ---------------------------------------------------------------- crash and start

  /** A machine that has just started has no epoch open. */
  lemma IdleAtStart(work: bool, target: NsDoc, plan: Plan, files: seq<Target>)
    ensures var a := E.Initial(work).actor; ModeBy(ES.Running(a), a.ledger.active, target, plan, files) == Mode.Idle
  {
  }

  lemma FreshKeeps(work: bool, j: Joint)
    requires j.sys == E.Initial(work) && !j.answered && (work <==> Works(j.tables))
    requires Ordered(j.order, j.plan) && WritesWrote(j.plan, j.done)
    ensures JInv(j)
  {
    ER.InitialInv(work);
  }

  lemma NewKeeps()
    ensures JInv(NewDaemon())
  {
    FreshKeeps(false, NewDaemon());
  }

  /** Every step that does not fail keeps the invariant. */
  lemma JointStepSafe(env: Env, me: Me, j: Joint, step: JointStep)
    requires JInv(j) && JointEnabled(env, me, j, step) && JointNext(env, me, j, step).Ok?
    ensures JInv(JointNext(env, me, j, step).value)
  {
    match step {
      case User(c) => DiskStepKeeps(j, JointNext(env, me, j, step).value);
      case Ask(s) => AskKeeps(env, me, j, s);
      case TakeReply(i) => ReplyKeeps(j, i);
      case FsRun(i) => RanKeeps(env, j, i);
      case TakeFs(i, swapLeft) => TakenKeeps(j, i, swapLeft);
      case Start(arg) => StartKeeps(env, me, j, arg);
      case Finish(i) => FinishKeeps(j, i);
      case Crash => FreshKeeps(Works(Recovered(j).tables), Recovered(j));
    }
  }

  /** Only the start of a request can fail, and only because its transaction does. */
  lemma JointStepFaults(env: Env, me: Me, j: Joint, step: JointStep)
    requires JInv(j) && JointEnabled(env, me, j, step)
    ensures if step.Start? then JointNext(env, me, j, step).Fault? <==> TablesAfter(env, me, j, step.arg).Fault?
            else JointNext(env, me, j, step).Ok?
  {
    match step {
      case Ask(s) => AskKeeps(env, me, j, s);
      case TakeReply(i) => ReplyKeeps(j, i);
      case TakeFs(i, swapLeft) => TakenKeeps(j, i, swapLeft);
      case Start(arg) => StartFaults(env, me, j, arg);
      case Finish(i) => FinishKeeps(j, i);
      case _ =>
    }
  }
}
