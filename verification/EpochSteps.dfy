/** Every step of the engine, the lane and the file-system client keeps the invariant and never faults. */
module EpochSteps {
  import opened Common
  import opened Scans
  import opened Epochs
  import opened EpochSafety

  // ---------------------------------------------------------------- answers to the engine

  /** A freshly installed epoch starts with everything still to dispatch. */
  lemma BeginPipeline(kind: Kind, st: Started, active: map<Kind, Active>, r: Op)
    requires Installed(active, kind, st) && Quiet(r)
    ensures Pipeline(kind, active[kind], r, [], {}, st.actions, {})
    ensures {} + IdSet(st.actions) == active[kind].expected
  {
    assert LaneIds([]) == {};
  }

  lemma BeginMid(s: System, kind: Kind, st: Started)
    requires Plumbing(s.actor, s.fs) && s.fs.pending == []
    requires Core(s.actor.lane) == [] && CoreReplies(s.replies) == [] && Quiet(Running(s.actor))
    requires Installed(s.actor.ledger.active, kind, st)
    ensures MidInv(Begin(s, kind, st))
  {
    BeginPipeline(kind, st, s.actor.ledger.active, Running(s.actor));
  }

  /** The protocol's own answer: taken in the phase that waits for it. */
  lemma CoreReplyMid(s: System, r: Reply, rest: seq<Reply>)
    requires Inv(s) && IsCoreReply(r) && CoreReplies(s.replies) == [r] && CoreReplies(rest) == []
    ensures OnReply(s.(replies := rest), r).Ok? && MidInv(OnReply(s.(replies := rest), r).value)
  {
    var s0 := s.(replies := rest);
    match r {
      case ScanPlanned(plan) =>
        if plan.Some? { BeginMid(s0, Import, plan.value); } else { BoundaryMid(s0); }
      case EpochClosed(kind) => BoundaryMid(s0);
      case NextWorkIs(b, plan) =>
        if plan.Some? { BeginMid(s0, Projection, plan.value); }
        else if s.phase.dirty || s.pendingScan.Some? { BoundaryMid(s0); }
    }
  }

  lemma ReplyMid(s: System, i: nat)
    requires Inv(s) && i < |s.replies|
    ensures var o := OnReply(s.(replies := s.replies[..i] + s.replies[i + 1..]), s.replies[i]);
      o.Ok? && MidInv(o.value)
  {
    var rest := s.replies[..i] + s.replies[i + 1..];
    AtMostOneReply(s);
    ReplyTake(s.replies, i);
    if IsCoreReply(s.replies[i]) { CoreReplyMid(s, s.replies[i], rest); } else { MidFrame(s, s.(replies := rest)); }
  }

  lemma AtMostOneReply(s: System)
    requires MidInv(s)
    ensures |CoreReplies(s.replies)| <= 1
  {
  }

  lemma ReplyStep(s: System, i: nat)
    requires Inv(s) && i < |s.replies|
    ensures Next(s, TakeReply(i)).Ok? && Inv(Next(s, TakeReply(i)).value)
  {
    ReplyMid(s, i);
    DriveInv(OnReply(s.(replies := s.replies[..i] + s.replies[i + 1..]), s.replies[i]).value);
  }

  // ---------------------------------------------------------------- answers of the file system

  lemma {:induction false} LaneIdsPush(lane: seq<Request>, kind: Kind, id: ActionId)
    ensures LaneIds(lane + [CommitAction(kind, id)]) == LaneIds(lane) + {id}
  {
    var more := lane + [CommitAction(kind, id)];
    forall x ensures x in LaneIds(more) <==> x in LaneIds(lane) + {id} {
      if x in LaneIds(lane) {
        var i :| 0 <= i < |lane| && lane[i].CommitAction? && lane[i].id == x;
        assert more[i] == lane[i];
      }
      assert more[|lane|].id == id;
    }
  }

  /** The answer moves the action from the file system to the lane. */
  lemma PerformedPipeline(kind: Kind, act: Active, r: Op, lane: seq<Request>, id: ActionId, queue: seq<ActionId>, history: set<ActionId>)
    requires Pipeline(kind, act, r, lane, {id}, queue, history)
    ensures Pipeline(kind, act, r, lane + [CommitAction(kind, id)], {}, queue, history)
  {
    LaneIdsPush(lane, kind, id);
    assert id !in LaneIds(lane);
  }

  /** Entering Draining drops what was not dispatched. */
  lemma DropQueue(kind: Kind, act: Active, r: Op, lane: seq<Request>, queue: seq<ActionId>, history: set<ActionId>)
    requires Pipeline(kind, act, r, lane, {}, queue, history)
    ensures Pipeline(kind, act, r, lane, {}, [], history)
  {
    assert IdSet([]) == {};
  }

  lemma RememberFull(p: Option<Scope>)
    ensures Remember(p, Full) == Some(Full)
  {
  }

  /** The state once the answer is taken and the action's commit is in the lane. */
  function Answered(s: System, phase: Phase, kind: Kind, id: ActionId, invalid: bool, swapLeft: bool): System {
    Send(s.(phase := phase, fs := s.fs.(pending := [], phaseInflight := 0),
            cleanupQueue := s.cleanupQueue + if kind.Projection? && swapLeft then 1 else 0,
            pendingScan := if invalid then Some(Full) else s.pendingScan), CommitAction(kind, id))
  }

  function AfterAnswer(phase: Phase, kind: Kind, invalid: bool): Phase {
    match phase
    case Dispatching(k, epoch, queue, _) =>
      if kind.Projection? && invalid then Draining(epoch, {}) else Dispatching(k, epoch, queue, {})
    case Draining(epoch, _) => Draining(epoch, {})
    case _ => phase
  }

  function FsTaken(s: System): System { s.(fs := s.fs.(pending := [], phaseInflight := 0)) }

  lemma PerformedIs(s: System, kind: Kind, id: ActionId, invalid: bool, swapLeft: bool)
    requires Inv(s) && s.fs.pending == [Perform(kind, id)]
    ensures (s.phase.Dispatching? && s.phase.kind == kind) || (s.phase.Draining? && kind.Projection?)
    ensures OnPerformed(FsTaken(s), kind, id, invalid, swapLeft) ==
            Ok(Answered(s, AfterAnswer(s.phase, kind, invalid), kind, id, invalid, swapLeft))
  {
    RememberFull(s.pendingScan);
    assert s.phase.inFlight - {id} == {};
    assert id in s.history && s.history <= s.actor.ledger.active[kind].expected;
  }

  /** The one epoch an operation can be out for. */
  lemma OutFor(s: System, kind: Kind, id: ActionId)
    requires Inv(s) && s.fs.pending == [Perform(kind, id)]
    ensures s.phase.Dispatching? && s.phase.kind == kind && s.phase.inFlight == {id} && CoreReplies(s.replies) == []
    ensures var active := s.actor.ledger.active;
      && active.Keys == {kind} && active[kind].epoch == s.phase.epoch
      && Pipeline(kind, active[kind], Running(s.actor), Core(s.actor.lane), {id}, s.phase.queue, s.history)
      && s.history + IdSet(s.phase.queue) == active[kind].expected
  {
  }

  /** The books once the operation's commit is in the lane. */
  lemma AnsweredBooks(s: System, kind: Kind, epoch: nat, queue: seq<ActionId>)
    requires Plumbing(s.actor, s.fs) && s.fs.pending == [] && CoreReplies(s.replies) == []
    requires s.actor.ledger.active.Keys == {kind} && s.actor.ledger.active[kind].epoch == epoch
    requires Pipeline(kind, s.actor.ledger.active[kind], Running(s.actor), Core(s.actor.lane), {}, queue, s.history)
    requires || (s.phase == Dispatching(kind, epoch, queue, {}) && s.history + IdSet(queue) == s.actor.ledger.active[kind].expected)
             || (s.phase == Draining(epoch, {}) && kind.Projection? && queue == [] && s.pendingScan == Some(Full))
    ensures MidInv(s)
  {
  }

  lemma AnsweredMid(s: System, kind: Kind, id: ActionId, invalid: bool, swapLeft: bool)
    requires Inv(s) && s.fs.pending == [Perform(kind, id)]
    ensures MidInv(Answered(s, AfterAnswer(s.phase, kind, invalid), kind, id, invalid, swapLeft))
  {
    OutFor(s, kind, id);
    var lane, act, r := Core(s.actor.lane), s.actor.ledger.active[kind], Running(s.actor);
    CorePush(s.actor.lane, CommitAction(kind, id));
    PerformedPipeline(kind, act, r, lane, id, s.phase.queue, s.history);
    DropQueue(kind, act, r, lane + [CommitAction(kind, id)], s.phase.queue, s.history);
    var phase := AfterAnswer(s.phase, kind, invalid);
    AnsweredBooks(Answered(s, phase, kind, id, invalid, swapLeft), kind, s.phase.epoch, if phase.Draining? then [] else s.phase.queue);
  }

  lemma FsMid(s: System, i: nat, invalid: bool, swapLeft: bool)
    requires Inv(s) && i < |s.fs.pending|
    ensures OnFs(s, i, invalid, swapLeft).Ok? && MidInv(OnFs(s, i, invalid, swapLeft).value)
  {
    OneTask(s, i);
    var t := s.fs.pending[0];
    if t.Scan? { ScannedMid(s); } else {
      PerformedIs(s, t.kind, t.id, invalid, swapLeft);
      AnsweredMid(s, t.kind, t.id, invalid, swapLeft);
    }
  }

  lemma OneTask(s: System, i: nat)
    requires MidInv(s) && i < |s.fs.pending|
    ensures i == 0 && s.fs.pending == [s.fs.pending[0]] && s.fs.phaseInflight == 1
    ensures s.(fs := s.fs.(pending := s.fs.pending[..i] + s.fs.pending[i + 1..], phaseInflight := s.fs.phaseInflight - 1)) == FsTaken(s)
  {
    assert s.fs.pending[..0] + s.fs.pending[1..] == [];
  }

  lemma ScannedMid(s: System)
    requires Inv(s) && |s.fs.pending| == 1 && s.fs.pending[0].Scan?
    ensures s.phase.Scanning? && MidInv(Send(FsTaken(s).(phase := PlanningImport), ApplyScan))
  {
    CorePush(s.actor.lane, ApplyScan);
  }

  lemma FsStep(s: System, i: nat, invalid: bool, swapLeft: bool)
    requires Inv(s) && i < |s.fs.pending|
    ensures Next(s, TakeFs(i, invalid, swapLeft)).Ok? && Inv(Next(s, TakeFs(i, invalid, swapLeft)).value)
  {
    FsMid(s, i, invalid, swapLeft);
    var s1 := OnFs(s, i, invalid, swapLeft).value;
    DriveInv(s1);
    assert Next(s, TakeFs(i, invalid, swapLeft)) == Ok(Drive(s1));
  }

  // ---------------------------------------------------------------- the lane takes a request

  lemma CorePop(lane: seq<Request>)
    requires lane != []
    ensures if IsCore(lane[0]) then Core(lane) != [] && Core(lane)[0] == lane[0] && Core(lane[1..]) == Core(lane)[1..]
            else Core(lane[1..]) == Core(lane)
  {
  }

  lemma LaneIdsPop(lane: seq<Request>)
    requires lane != [] && lane[0].CommitAction? && NoRepeats(lane)
    ensures LaneIds(lane) == {lane[0].id} + LaneIds(lane[1..]) && lane[0].id !in LaneIds(lane[1..])
  {
    assert lane == [lane[0]] + lane[1..];
    forall x ensures x in LaneIds(lane) <==> x in {lane[0].id} + LaneIds(lane[1..]) {
      if x in LaneIds(lane[1..]) {
        var i :| 0 <= i < |lane[1..]| && lane[1..][i].CommitAction? && lane[1..][i].id == x;
        assert lane[i + 1].id == x;
      }
      if x in LaneIds(lane) {
        var i :| 0 <= i < |lane| && lane[i].CommitAction? && lane[i].id == x;
        assert i > 0 ==> lane[1..][i - 1] == lane[i];
      }
    }
  }

  /** Taking an action commit: it is admissible, and moves from the lane to the running transaction. */
  lemma StagePipeline(kind: Kind, act: Active, r: Op, lane: seq<Request>, inFlight: set<ActionId>, queue: seq<ActionId>, history: set<ActionId>)
    requires Pipeline(kind, act, r, lane, inFlight, queue, history) && Quiet(r) && lane != []
    ensures lane[0].id in act.expected && lane[0].id !in act.completed && lane[0].id.epoch == act.epoch
    ensures Pipeline(kind, act, Stage(kind, lane[0].id), lane[1..], inFlight, queue, history)
  {
    LaneIdsPop(lane);
    assert lane[0].id in history;
  }

  lemma QuietFrame(phase: Phase, lane: seq<Request>, r: Op, r': Op, p: seq<Reply>, f: seq<FsTask>, active: map<Kind, Active>, history: set<ActionId>)
    requires PhaseInv(phase, lane, r, p, f, active, history) && Quiet(r) && Quiet(r')
    ensures PhaseInv(phase, lane, r', p, f, active, history)
  {
  }

  /** A batch or a chore does not disturb the protocol. */
  lemma StartAside(s: System, effect: Effect)
    requires Inv(s) && s.actor.lane != [] && s.actor.running == [] && !IsCore(s.actor.lane[0])
    ensures StartRequest(s, effect).Ok? && Inv(StartRequest(s, effect).value)
  {
    var op := if s.actor.lane[0].ApplyBatch? then Batch(effect.changed) else Other;
    var work := if op == Batch(true) then effect.work else s.work;
    CorePop(s.actor.lane);
    AsideInv(s, op, work);
    assert StartRequest(s, effect) == Ok(Aside(s, op, work));
  }

  function Aside(s: System, op: Op, work: bool): System
    requires s.actor.lane != []
  {
    s.(actor := Push(s.actor.(lane := s.actor.lane[1..]), op), work := work)
  }

  lemma AsideInv(s: System, op: Op, work: bool)
    requires Inv(s) && s.actor.lane != [] && s.actor.running == [] && Core(s.actor.lane[1..]) == Core(s.actor.lane)
    requires Quiet(op) && (op != Batch(true) ==> work == s.work)
    ensures Inv(Aside(s, op, work))
  {
    QuietFrame(s.phase, Core(s.actor.lane), Other, op, CoreReplies(s.replies), s.fs.pending,
               s.actor.ledger.active, s.history);
  }

  /** A planning request at the head of the lane is all there is of the protocol. */
  lemma PlansAlone(s: System)
    requires Inv(s) && s.actor.lane != [] && s.actor.running == [] && (s.actor.lane[0].ApplyScan? || s.actor.lane[0].GetNextWork?)
    ensures s.fs.pending == [] && CoreReplies(s.replies) == [] && s.actor.ledger.active == map[] && Core(s.actor.lane[1..]) == []
    ensures if s.actor.lane[0].ApplyScan? then s.phase.PlanningImport?
            else s.phase.AwaitingNextWork? && s.phase.boundary == s.actor.lane[0].boundary
  {
    CorePop(s.actor.lane);
    assert Core(s.actor.lane)[0] == s.actor.lane[0];
  }

  lemma PlanRuns(s: System)
    requires Plumbing(s.actor, s.fs) && s.fs.pending == [] && CoreReplies(s.replies) == [] && s.actor.ledger.active == map[]
    requires Core(s.actor.lane) == []
    requires || (s.phase.PlanningImport? && Running(s.actor).Plan?)
             || (s.phase.AwaitingNextWork? && Running(s.actor).NextWork? && Running(s.actor).boundary == s.phase.boundary && Running(s.actor).work == s.work)
    ensures Inv(s)
  {
  }

  lemma StartPlan(s: System, effect: Effect)
    requires Inv(s) && s.actor.lane != [] && s.actor.running == [] && s.actor.lane[0].ApplyScan?
    ensures StartRequest(s, effect).Ok? && Inv(StartRequest(s, effect).value)
  {
    PlansAlone(s);
    PlanRuns(StartRequest(s, effect).value);
  }

  lemma StartNextWork(s: System, effect: Effect)
    requires Inv(s) && s.actor.lane != [] && s.actor.running == [] && s.actor.lane[0].GetNextWork?
    ensures StartRequest(s, effect).Ok? && Inv(StartRequest(s, effect).value)
  {
    PlansAlone(s);
    PlanRuns(StartRequest(s, effect).value);
  }

  /** The phase and pipeline an action commit belongs to. */
  lemma StagePhase(s: System)
    requires Inv(s) && s.actor.lane != [] && s.actor.running == [] && s.actor.lane[0].CommitAction?
    ensures var kind := s.actor.lane[0].kind; var id := s.actor.lane[0].id; var lane := Core(s.actor.lane);
      && lane != [] && lane[0] == s.actor.lane[0]
      && Admissible(s.actor.ledger, kind, id)
      && PhaseInv(s.phase, lane[1..], Stage(kind, id), CoreReplies(s.replies), s.fs.pending, s.actor.ledger.active, s.history)
  {
    CorePop(s.actor.lane);
    var kind, lane := s.actor.lane[0].kind, Core(s.actor.lane);
    match s.phase {
      case Dispatching(k, _, queue, inFlight) =>
        StagePipeline(k, s.actor.ledger.active[k], Other, lane, inFlight, queue, s.history);
      case Committing(k, _) =>
        assert |lane| > 1;
        StagePipeline(k, s.actor.ledger.active[k], Other, lane[..|lane| - 1], {}, [], s.history);
        assert lane[1..][..|lane| - 2] == lane[..|lane| - 1][1..];
    }
  }

  lemma StartStage(s: System, effect: Effect)
    requires Inv(s) && s.actor.lane != [] && s.actor.running == [] && s.actor.lane[0].CommitAction?
    ensures StartRequest(s, effect).Ok? && Inv(StartRequest(s, effect).value)
  {
    CorePop(s.actor.lane);
    StagePhase(s);
    var lane := Core(s.actor.lane);
    assert |lane| > 1 ==> lane[1..][|lane| - 2] == lane[|lane| - 1];
  }

  /**
   * An epoch commit reaches the lane's head only after all its actions were committed, each
   * once: what is completed is what was dispatched, so the commit is never deferred.
   */
  lemma NeverDeferred(s: System)
    requires Inv(s) && s.actor.lane != [] && s.actor.running == [] && s.actor.lane[0].CommitEpoch?
    ensures var r := s.actor.lane[0]; var a := s.actor.(lane := s.actor.lane[1..]);
      && s.phase == Committing(r.kind, r.epoch) && Core(s.actor.lane) == [r]
      && IsActive(a.ledger, r.kind, r.epoch) && a.ledger.active.Keys == {r.kind}
      && a.ledger.active[r.kind].completed == s.history
      && (r.exhausted ==> s.history == a.ledger.active[r.kind].expected)
      && ReadyToCommit(a, r.kind, r.exhausted)
  {
    CorePop(s.actor.lane);
    var lane, r := Core(s.actor.lane), s.actor.lane[0];
    assert |lane| == 1;
    assert lane[..0] == [] && LaneIds([]) == {};
    assert s.history == s.actor.ledger.active[r.kind].completed + {} + {} + {};
  }

  lemma StartClosing(s: System, effect: Effect)
    requires Inv(s) && s.actor.lane != [] && s.actor.running == [] && s.actor.lane[0].CommitEpoch?
    ensures StartRequest(s, effect).Ok? && Inv(StartRequest(s, effect).value)
  {
    CorePop(s.actor.lane);
    NeverDeferred(s);
    assert s.actor.ledger.active - {s.actor.lane[0].kind} == map[];
  }

  lemma StartStep(s: System, effect: Effect)
    requires Inv(s) && s.actor.lane != [] && s.actor.running == []
    ensures StartRequest(s, effect).Ok? && Inv(StartRequest(s, effect).value)
  {
    match s.actor.lane[0] {
      case ApplyScan => StartPlan(s, effect);
      case CommitAction(_, _) => StartStage(s, effect);
      case CommitEpoch(_, _, _) => StartClosing(s, effect);
      case GetNextWork(_) => StartNextWork(s, effect);
      case _ => StartAside(s, effect);
    }
  }

  // ---------------------------------------------------------------- the running transaction finishes

  /** The actor once the finished operation is taken off. */
  lemma TakenOff(a: Actor, fs: Fs, i: nat)
    requires Plumbing(a, fs) && i < |a.running|
    ensures i == 0 && a.running[..0] + a.running[1..] == []
    ensures a.running[0].opId in a.pendingOps && a.pendingOps[a.running[0].opId] == a.running[0].op
    ensures a.pendingOps - {a.running[0].opId} == map[]
  {
  }

  lemma NumberedWell(epoch: nat, actions: seq<ActionId>)
    requires PlanOf(epoch, actions)
    ensures WellFormed(Started(epoch, actions))
  {
  }

  /** A plan being made is all there is of the protocol. */
  lemma PlanningAlone(s: System)
    requires Inv(s) && s.actor.running != [] && (Running(s.actor).Plan? || Running(s.actor).NextWork?)
    ensures s.fs.pending == [] && CoreReplies(s.replies) == [] && s.actor.ledger.active == map[] && Core(s.actor.lane) == []
    ensures if Running(s.actor).Plan? then s.phase.PlanningImport?
            else s.phase.AwaitingNextWork? && s.phase.boundary == Running(s.actor).boundary && s.work == Running(s.actor).work
  {
  }

  /** The plan on its way back to the engine. */
  lemma PlanMade(s: System, plan: Option<Started>)
    requires Plumbing(s.actor, s.fs) && s.fs.pending == [] && Core(s.actor.lane) == [] && s.actor.running == []
    requires if s.phase.PlanningImport? then CoreReplies(s.replies) == [ScanPlanned(plan)]
             else s.phase.AwaitingNextWork? && CoreReplies(s.replies) == [NextWorkIs(s.phase.boundary, plan)] && (plan.None? ==> !s.work)
    requires if plan.None? then s.actor.ledger.active == map[]
             else Installed(s.actor.ledger.active, if s.phase.PlanningImport? then Import else Projection, plan.value)
    ensures Inv(s)
  {
  }

  lemma FinishPlan(s: System, actions: seq<ActionId>)
    requires Inv(s) && s.actor.running != [] && s.actor.running[0].op.Plan? && PlanOf(s.actor.running[0].op.epoch, actions)
    ensures FinishTask(s, 0, actions).Ok? && Inv(FinishTask(s, 0, actions).value)
  {
    TakenOff(s.actor, s.fs, 0);
    PlanningAlone(s);
    var epoch := s.actor.running[0].op.epoch;
    var plan := if actions == [] then None else Some(Started(epoch, actions));
    NumberedWell(epoch, actions);
    ReplyPush(s.replies, ScanPlanned(plan));
    PlanMade(FinishTask(s, 0, actions).value, plan);
  }

  lemma FinishNextWork(s: System, actions: seq<ActionId>)
    requires Inv(s) && s.actor.running != [] && s.actor.running[0].op.NextWork? && PlanOf(s.actor.running[0].op.epoch, actions)
    ensures FinishTask(s, 0, actions).Ok? && Inv(FinishTask(s, 0, actions).value)
  {
    TakenOff(s.actor, s.fs, 0);
    PlanningAlone(s);
    var op := s.actor.running[0].op;
    var plan := if !op.work then None else Some(Started(op.epoch, actions));
    NumberedWell(op.epoch, actions);
    ReplyPush(s.replies, NextWorkIs(op.boundary, plan));
    PlanMade(FinishTask(s, 0, actions).value, plan);
  }

  lemma CompletePipeline(kind: Kind, act: Active, id: ActionId, lane: seq<Request>, inFlight: set<ActionId>, queue: seq<ActionId>, history: set<ActionId>)
    requires Pipeline(kind, act, Stage(kind, id), lane, inFlight, queue, history)
    ensures Pipeline(kind, act.(completed := act.completed + {id}), Other, lane, inFlight, queue, history)
    ensures id in act.expected && id !in act.completed && id.epoch == act.epoch
  {
    assert id in history;
  }

  lemma FinishStagePhase(s: System)
    requires Inv(s) && s.actor.running != [] && s.actor.running[0].op.Stage?
    ensures var kind := s.actor.running[0].op.kind; var id := s.actor.running[0].op.id;
      && Admissible(s.actor.ledger, kind, id)
      && PhaseInv(s.phase, Core(s.actor.lane), Other, CoreReplies(s.replies), s.fs.pending,
                  Complete(s.actor.ledger, kind, id).value.active, s.history)
  {
    var kind, id, lane := s.actor.running[0].op.kind, s.actor.running[0].op.id, Core(s.actor.lane);
    match s.phase {
      case Dispatching(k, _, queue, inFlight) =>
        CompletePipeline(k, s.actor.ledger.active[k], id, lane, inFlight, queue, s.history);
      case Committing(k, _) =>
        CompletePipeline(k, s.actor.ledger.active[k], id, lane[..|lane| - 1], {}, [], s.history);
    }
  }

  lemma FinishStage(s: System, actions: seq<ActionId>)
    requires Inv(s) && s.actor.running != [] && s.actor.running[0].op.Stage?
    ensures FinishTask(s, 0, actions).Ok? && Inv(FinishTask(s, 0, actions).value)
  {
    TakenOff(s.actor, s.fs, 0);
    FinishStagePhase(s);
  }

  lemma FinishClose(s: System, actions: seq<ActionId>)
    requires Inv(s) && s.actor.running != [] && s.actor.running[0].op.Close?
    ensures FinishTask(s, 0, actions).Ok? && Inv(FinishTask(s, 0, actions).value)
  {
    TakenOff(s.actor, s.fs, 0);
    ReplyPush(s.replies, EpochClosed(s.actor.running[0].op.kind));
    assert s.phase.Committing?;
  }

  lemma FinishAside(s: System, actions: seq<ActionId>)
    requires Inv(s) && s.actor.running != [] && Quiet(s.actor.running[0].op)
    ensures FinishTask(s, 0, actions).Ok? && Inv(FinishTask(s, 0, actions).value)
  {
    TakenOff(s.actor, s.fs, 0);
    var op := s.actor.running[0].op;
    var reply := if op.Batch? then BatchDone else ChoreDone;
    var a := s.actor.(running := [], pendingOps := map[]);
    var events := s.events + if op == Batch(true) then 1 else 0;
    AsideDone(s, a, reply, events);
    assert FinishTask(s, 0, actions) == Ok(s.(actor := a, replies := s.replies + [reply], events := events));
  }

  lemma AsideDone(s: System, a: Actor, reply: Reply, events: nat)
    requires Inv(s) && s.actor.running != [] && Quiet(s.actor.running[0].op) && a == s.actor.(running := [], pendingOps := map[])
    requires !IsCoreReply(reply) && events == s.events + if s.actor.running[0].op == Batch(true) then 1 else 0
    ensures Inv(s.(actor := a, replies := s.replies + [reply], events := events))
  {
    assert CoreReplies(s.replies + [reply]) == CoreReplies(s.replies) by {
      ReplyPush(s.replies, reply);
      assert CoreReplies(s.replies) + [] == CoreReplies(s.replies);
    }
    QuietFrame(s.phase, Core(s.actor.lane), s.actor.running[0].op, Other, CoreReplies(s.replies), s.fs.pending,
               s.actor.ledger.active, s.history);
  }

  lemma FinishStep(s: System, i: nat, actions: seq<ActionId>)
    requires Inv(s) && Enabled(s, FinishOp(i, actions))
    ensures FinishTask(s, i, actions).Ok? && Inv(FinishTask(s, i, actions).value)
  {
    assert i == 0;
    match s.actor.running[0].op {
      case Plan(_) => FinishPlan(s, actions);
      case NextWork(_, _, _) => FinishNextWork(s, actions);
      case Stage(_, _) => FinishStage(s, actions);
      case Close(_, _) => FinishClose(s, actions);
      case _ => FinishAside(s, actions);
    }
  }
}
