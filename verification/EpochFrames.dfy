/** What each step of the epoch machine leaves alone: the view other machines need of it. */
module EpochFrames {
  import opened Common
  import opened Scans
  import opened Epochs
  import opened EpochSafety
  import opened EpochSteps
  import opened EpochResults

  // ---------------------------------------------------------------- the lane

  /** The request at the head of the lane and the epoch it belongs to. */
  lemma HeadInTurn(s: System)
    requires Inv(s) && s.actor.running == [] && s.actor.lane != []
    ensures match s.actor.lane[0]
      case ApplyScan => s.actor.ledger.active == map[] && s.phase.PlanningImport?
      case GetNextWork(_) => s.actor.ledger.active == map[] && s.phase.AwaitingNextWork?
      case CommitAction(kind, id) => s.actor.ledger.active.Keys == {kind} && id in s.actor.ledger.active[kind].expected && id in s.history
      case CommitEpoch(kind, epoch, exhausted) =>
        && s.actor.ledger.active.Keys == {kind} && s.phase == Committing(kind, epoch)
        && s.actor.ledger.active[kind].completed == s.history
        && (exhausted ==> s.history == s.actor.ledger.active[kind].expected)
        && ReadyToCommit(s.actor.(lane := s.actor.lane[1..]), kind, exhausted)
        && Core(s.actor.lane) == [s.actor.lane[0]]
      case _ => true
  {
    CorePop(s.actor.lane);
    if s.actor.lane[0].CommitAction? { StagePhase(s); StageInHistory(s); }
    if s.actor.lane[0].CommitEpoch? { NeverDeferred(s); }
  }

  lemma StageInHistory(s: System)
    requires Inv(s) && s.actor.running == [] && s.actor.lane != [] && s.actor.lane[0].CommitAction?
    ensures s.actor.lane[0].id in s.history
  {
    CorePop(s.actor.lane);
    var lane := Core(s.actor.lane);
    match s.phase {
      case Dispatching(_, _, _, _) => assert lane[0].id in LaneIds(lane);
      case Committing(_, _) => assert lane[..|lane| - 1][0] == lane[0] && lane[0].id in LaneIds(lane[..|lane| - 1]);
    }
  }

  /** An action commit belongs to the epoch under way. */
  lemma HeadKind(s: System)
    requires Inv(s) && s.actor.running == [] && s.actor.lane != [] && s.actor.lane[0].CommitAction? && Busy(s.phase)
    ensures s.actor.lane[0].kind == s.phase.kind
  {
    HeadInTurn(s);
    assert s.actor.ledger.active.Keys == {s.phase.kind} || s.actor.ledger.active == map[];
    assert s.actor.lane[0].kind in s.actor.ledger.active.Keys;
  }

  /** Whether the tables call for a projection once the request has started. */
  function WorkAfter(r: Request, work: bool, effect: Effect): bool {
    match r
    case ApplyBatch => if effect.changed then effect.work else work
    case GetNextWork(_) => work
    case Chore => work
    case _ => effect.work
  }

  predicate RunsFor(r: Request, op: Op, work: bool) {
    match r
    case ApplyScan => op.Plan?
    case GetNextWork(_) => op.NextWork? && op.work == work
    case CommitAction(_, _) => op.Stage?
    case CommitEpoch(kind, _, _) => op.Close? && op.kind == kind
    case ApplyBatch => op.Batch?
    case Chore => op.Other?
  }

  /** Starting a request changes nothing of the engine, and of the ledger only its reservations and closures. */
  lemma StartFrame(s: System, effect: Effect)
    requires Inv(s) && s.actor.lane != [] && s.actor.running == []
    ensures StartRequest(s, effect).Ok?
    ensures var s' := StartRequest(s, effect).value; var r := s.actor.lane[0];
      && s'.phase == s.phase && s'.fs == s.fs && s'.history == s.history && s'.pendingScan == s.pendingScan
      && s'.actor.ledger.active == (if r.CommitEpoch? then map[] else s.actor.ledger.active)
      && s'.actor.lane == s.actor.lane[1..]
      && s'.work == WorkAfter(r, s.work, effect) && RunsFor(r, Running(s'.actor), s.work)
  {
    StartStep(s, effect);
    HeadInTurn(s);
    StartFields(s, effect);
  }

  lemma StartFields(s: System, effect: Effect)
    requires s.actor.lane != [] && s.actor.running == [] && StartRequest(s, effect).Ok?
    requires s.actor.lane[0].CommitEpoch? ==>
      var r := s.actor.lane[0];
      s.actor.ledger.active.Keys == {r.kind} && ReadyToCommit(s.actor.(lane := s.actor.lane[1..]), r.kind, r.exhausted)
    ensures var s' := StartRequest(s, effect).value; var r := s.actor.lane[0];
      && s'.phase == s.phase && s'.fs == s.fs && s'.history == s.history && s'.pendingScan == s.pendingScan
      && s'.actor.ledger.active == (if r.CommitEpoch? then map[] else s.actor.ledger.active)
      && s'.actor.lane == s.actor.lane[1..]
      && s'.work == WorkAfter(r, s.work, effect) && RunsFor(r, Running(s'.actor), s.work)
  {
    if s.actor.lane[0].CommitEpoch? { assert s.actor.ledger.active - {s.actor.lane[0].kind} == map[]; }
  }

  predicate EndsDiscarding(lane: seq<Request>) {
    lane != [] && lane[|lane| - 1].CommitEpoch? && !lane[|lane| - 1].exhausted
  }

  /** The discarding commit stays the last request of its phase until it is taken. */
  lemma PopDiscarding(s: System)
    requires Inv(s) && s.actor.lane != [] && s.actor.running == []
    ensures var lane := s.actor.lane;
      if lane[0].CommitEpoch? then Core(lane[1..]) == [] && (Discarding(s) <==> !lane[0].exhausted)
      else EndsDiscarding(Core(lane[1..])) <==> Discarding(s)
  {
    HeadInTurn(s);
    PopEnd(s.actor.lane);
  }

  lemma PopEnd(lane: seq<Request>)
    requires lane != []
    ensures lane[0].CommitEpoch? && Core(lane) == [lane[0]] ==> Core(lane[1..]) == []
    ensures !lane[0].CommitEpoch? ==> (EndsDiscarding(Core(lane[1..])) <==> EndsDiscarding(Core(lane)))
  {
    CorePop(lane);
    var c := Core(lane);
    if IsCore(lane[0]) { assert |c| > 1 ==> c[1..][|c| - 2] == c[|c| - 1]; }
  }

  /** The same epochs with the same actions, whatever has been completed of them. */
  predicate SamePlans(a: map<Kind, Active>, b: map<Kind, Active>) {
    a.Keys == b.Keys && forall k :: k in a ==> b[k].expected == a[k].expected && b[k].epoch == a[k].epoch
  }

  /** Finishing a transaction changes nothing of the engine; a planned epoch becomes active. */
  predicate Finished(s: System, s': System, actions: seq<ActionId>) {
    var op, active, active' := Running(s.actor), s.actor.ledger.active, s'.actor.ledger.active;
    && s'.phase == s.phase && s'.fs == s.fs && s'.history == s.history && s'.pendingScan == s.pendingScan
    && s'.work == s.work && s'.actor.lane == s.actor.lane && s'.actor.running == []
    && (op.Plan? || op.NextWork? ==> active == map[])
    && (op.Plan? && actions != [] ==> active' == map[Import := Active(op.epoch, IdSet(actions), {})])
    && (op.NextWork? && op.work ==> active' == map[Projection := Active(op.epoch, IdSet(actions), {})])
    && ((op.Plan? && actions == []) || (op.NextWork? && !op.work) || op.Close? || Quiet(op) ==> s'.actor.ledger == s.actor.ledger)
    && (op.Stage? ==> SamePlans(active, active'))
  }

  lemma FinishFrame(s: System, actions: seq<ActionId>)
    requires Inv(s) && Enabled(s, FinishOp(0, actions))
    ensures FinishTask(s, 0, actions).Ok? && Inv(FinishTask(s, 0, actions).value)
    ensures Finished(s, FinishTask(s, 0, actions).value, actions)
  {
    FinishStep(s, 0, actions);
    TakenOff(s.actor, s.fs, 0);
    RunningAlone(s);
    if Running(s.actor).Stage? { StagedFields(s, actions); } else { FinishFields(s, actions); }
  }

  /** The fields, for anything but an action commit. */
  lemma FinishFields(s: System, actions: seq<ActionId>)
    requires |s.actor.running| == 1 && FinishTask(s, 0, actions).Ok? && !Running(s.actor).Stage?
    requires Running(s.actor).Plan? || Running(s.actor).NextWork? ==> s.actor.ledger.active == map[]
    ensures Finished(s, FinishTask(s, 0, actions).value, actions)
  {
    assert s.actor.running[..0] + s.actor.running[1..] == [];
  }

  lemma StagedFields(s: System, actions: seq<ActionId>)
    requires |s.actor.running| == 1 && FinishTask(s, 0, actions).Ok? && Running(s.actor).Stage? && s.actor.deferred == map[]
    ensures Finished(s, FinishTask(s, 0, actions).value, actions)
  {
    assert s.actor.running[..0] + s.actor.running[1..] == [];
  }

  /** A planning request runs only between epochs. */
  lemma RunningAlone(s: System)
    requires Inv(s)
    ensures Running(s.actor).Plan? || Running(s.actor).NextWork? ==> s.actor.ledger.active == map[]
    ensures Running(s.actor).Plan? ==> s.phase.PlanningImport?
    ensures Running(s.actor).NextWork? ==> s.phase.AwaitingNextWork?
  {
  }

  // ---------------------------------------------------------------- the engine

  /** Phases in which an epoch's actions or its commit are under way. */
  predicate Busy(p: Phase) { p.Dispatching? || p.Committing? }

  predicate IsAsk(step: Step) { step.AskScan? || step.AskBatch? || step.AskChore? || step.TakeEvent? || step.TakeCleanup? }

  /** Requests, events and chores leave the actor's epoch and running transaction alone. */
  lemma AskActor(s: System, step: Step)
    requires Inv(s) && Enabled(s, step) && IsAsk(step)
    ensures Next(s, step).Ok? && Inv(Next(s, step).value)
    ensures var s' := Next(s, step).value;
      s'.actor.ledger == s.actor.ledger && s'.actor.running == s.actor.running && s'.work == s.work
  {
    EngineStep(s, step);
    DriveActor(Handled(s, step));
  }

  /** The loop top only appends to the lane. */
  lemma DriveActor(s: System)
    ensures var s' := Drive(s);
      && s'.actor.ledger == s.actor.ledger && s'.actor.running == s.actor.running && s'.work == s.work
      && s'.pendingScan == s.pendingScan
  {
    DispatchActor(Cleanup(s));
  }

  lemma {:induction false} DispatchActor(s: System)
    ensures Dispatch(s).actor == s.actor && Dispatch(s).work == s.work && Dispatch(s).pendingScan == s.pendingScan
    decreases if s.phase.Dispatching? then |s.phase.queue| else 0
  {
    if s.phase.Dispatching? && s.fs.phaseInflight == 0 && s.phase.queue != [] {
      var id := s.phase.queue[0];
      DispatchActor(FsSend(s.(phase := s.phase.(queue := s.phase.queue[1..], inFlight := s.phase.inFlight + {id}),
                              history := s.history + {id}), Perform(s.phase.kind, id)));
    }
  }

  /** An epoch under way is not disturbed by them. */
  lemma AskBusy(s: System, step: Step)
    requires Inv(s) && Enabled(s, step) && IsAsk(step) && Busy(s.phase) && Next(s, step).Ok?
    ensures SameEpoch(s, Next(s, step).value)
    ensures s.pendingScan == Some(Full) ==> Next(s, step).value.pendingScan == Some(Full)
  {
    HandledBusy(s, step);
    DriveActor(Handled(s, step));
    DriveBusy(s, Handled(s, step));
  }

  /** And none is begun by them. */
  lemma AskIdle(s: System, step: Step)
    requires Inv(s) && Enabled(s, step) && IsAsk(step) && !Busy(s.phase) && Next(s, step).Ok?
    ensures var s' := Next(s, step).value;
      && !Busy(s'.phase) && (s.fs.pending != [] ==> s'.fs.pending == s.fs.pending)
      && (s'.phase.AwaitingNextWork? ==> s.phase.AwaitingNextWork? || (s.actor.ledger.active == map[] && Quiet(Running(s.actor))))
  {
    DriveIdle(Handled(s, step));
  }

  function Handled(s: System, step: Step): System
    requires Enabled(s, step) && IsAsk(step)
  {
    match step
    case AskScan(scope) => RequestScan(s, scope)
    case AskBatch => Send(s, ApplyBatch)
    case AskChore => Send(s, Chore)
    case TakeEvent => OnProjectionChanged(s.(events := s.events - 1))
    case TakeCleanup => if OnCleanup(s).Ok? then OnCleanup(s).value else s
  }

  lemma HandledBusy(s: System, step: Step)
    requires Inv(s) && Enabled(s, step) && Busy(s.phase) && IsAsk(step)
    ensures var s1 := Handled(s, step);
      && s1.phase == s.phase && s1.fs.pending == s.fs.pending && s1.fs.phaseInflight == s.fs.phaseInflight
      && s1.history == s.history && Core(s1.actor.lane) == Core(s.actor.lane)
      && (s.pendingScan == Some(Full) ==> s1.pendingScan == Some(Full))
  {
    assert Core(s.actor.lane) + [] == Core(s.actor.lane);
    CorePush(s.actor.lane, ApplyBatch);
    CorePush(s.actor.lane, Chore);
  }

  /** With an action out, or the commit requested, the loop top does nothing to the epoch. */
  lemma DriveBusy(s: System, s1: System)
    requires Inv(s) && Busy(s.phase) && s1.phase == s.phase && s1.fs.pending == s.fs.pending && s1.fs.phaseInflight == s.fs.phaseInflight
    requires s1.history == s.history && Core(s1.actor.lane) == Core(s.actor.lane)
    ensures var s' := Drive(s1);
      && s'.phase == s.phase && s'.fs.pending == s.fs.pending && s'.history == s.history && Core(s'.actor.lane) == Core(s.actor.lane)
  {
  }

  lemma DriveIdle(s: System)
    requires !s.phase.Dispatching? && !s.phase.Draining?
    ensures Drive(s) == Cleanup(s)
  {
  }

  // ---------------------------------------------------------------- answers

  /** What taking an answer can do to the epoch under way. */
  datatype Turn = Same | Begun(kind: Kind, started: Started) | Boundary

  function TurnOf(r: Reply): Turn {
    match r
    case ScanPlanned(plan) => if plan.Some? then Begun(Import, plan.value) else Boundary
    case NextWorkIs(_, plan) => if plan.Some? then Begun(Projection, plan.value) else Boundary
    case EpochClosed(_) => Boundary
    case _ => Same
  }

  lemma ReplyActor(s: System, i: nat)
    requires Inv(s) && i < |s.replies|
    ensures Next(s, TakeReply(i)).Ok? && Inv(Next(s, TakeReply(i)).value)
    ensures var s' := Next(s, TakeReply(i)).value;
      s'.actor.ledger == s.actor.ledger && s'.actor.running == s.actor.running && s'.work == s.work
  {
    ReplyStep(s, i);
    var s0 := s.(replies := s.replies[..i] + s.replies[i + 1..]);
    ReplyFields(s0, s.replies[i]);
    DriveActor(OnReply(s0, s.replies[i]).value);
  }

  lemma ReplyFields(s: System, r: Reply)
    requires OnReply(s, r).Ok?
    ensures var s' := OnReply(s, r).value;
      s'.actor.ledger == s.actor.ledger && s'.actor.running == s.actor.running && s'.work == s.work
  {
  }

  /** The epoch under way is where it was. */
  predicate SameEpoch(s: System, s': System) {
    && s'.phase == s.phase && s'.fs.pending == s.fs.pending && s'.history == s.history
    && Core(s'.actor.lane) == Core(s.actor.lane)
  }

  lemma ReplyAside(s: System, i: nat)
    requires Inv(s) && i < |s.replies| && !IsCoreReply(s.replies[i])
    ensures var s1 := s.(replies := s.replies[..i] + s.replies[i + 1..]);
      && Next(s, TakeReply(i)) == Ok(Drive(s1))
      && (Busy(s.phase) ==> SameEpoch(s, Drive(s1)))
      && (!Busy(s.phase) ==> Drive(s1).phase == s.phase && Drive(s1).fs.pending == s.fs.pending)
      && Drive(s1).pendingScan == s.pendingScan
  {
    var s1 := s.(replies := s.replies[..i] + s.replies[i + 1..]);
    DriveActor(s1);
    if Busy(s.phase) { DriveBusy(s, s1); } else { DriveIdle(s1); }
  }

  /** A core answer is taken with nothing out: it ends at a boundary or begins the epoch it names. */
  lemma ReplyTurn(s: System, i: nat)
    requires Inv(s) && i < |s.replies| && IsCoreReply(s.replies[i])
    ensures s.fs.pending == [] && Next(s, TakeReply(i)).Ok?
    ensures var s' := Next(s, TakeReply(i)).value; var turn := TurnOf(s.replies[i]);
      if turn.Begun? then
        && s' == Drive(Begin(s.(replies := s.replies[..i] + s.replies[i + 1..]), turn.kind, turn.started))
        && Installed(s.actor.ledger.active, turn.kind, turn.started)
        && (turn.kind.Projection? ==> s.phase.AwaitingNextWork?)
      else !Busy(s'.phase) && s.actor.ledger.active == map[] && Quiet(Running(s.actor))
  {
    AtMostOneReply(s);
    ReplyTake(s.replies, i);
    var s0 := s.(replies := s.replies[..i] + s.replies[i + 1..]);
    ReplyExpected(s, s.replies[i]);
    if !TurnOf(s.replies[i]).Begun? {
      AtBoundary(s0, s.replies[i]);
      DriveIdle(OnReply(s0, s.replies[i]).value);
    }
  }

  /** The phase waits for the protocol's answer, and the ledger has installed what it brings. */
  lemma ReplyExpected(s: System, r: Reply)
    requires Inv(s) && IsCoreReply(r) && CoreReplies(s.replies) == [r]
    ensures s.fs.pending == [] && Quiet(Running(s.actor))
    ensures match r
      case ScanPlanned(_) => s.phase.PlanningImport?
      case EpochClosed(kind) => s.phase.Committing? && s.phase.kind == kind
      case NextWorkIs(b, _) => s.phase.AwaitingNextWork? && s.phase.boundary == b
    ensures var turn := TurnOf(r);
      if turn.Begun? then Installed(s.actor.ledger.active, turn.kind, turn.started) else s.actor.ledger.active == map[]
  {
  }

  lemma AtBoundary(s: System, r: Reply)
    requires IsCoreReply(r) && !TurnOf(r).Begun?
    requires match r
      case ScanPlanned(_) => s.phase.PlanningImport?
      case EpochClosed(kind) => s.phase.Committing? && s.phase.kind == kind
      case NextWorkIs(b, _) => s.phase.AwaitingNextWork? && s.phase.boundary == b
    ensures OnReply(s, r).Ok? && !Busy(OnReply(s, r).value.phase) && !OnReply(s, r).value.phase.Draining?
  {
  }

  /** The only answer to an epoch being closed ends it at a boundary, and a full scan that is pending is sent. */
  lemma CloseTurn(s: System, i: nat)
    requires Inv(s) && i < |s.replies| && IsCoreReply(s.replies[i]) && Busy(s.phase) && s.pendingScan == Some(Full)
    ensures Next(s, TakeReply(i)).Ok? && s.phase.Committing?
    ensures var s' := Next(s, TakeReply(i)).value; s'.phase.Scanning? && s'.fs.pending == [Scan(Full)]
  {
    ReplyTurn(s, i);
    AtMostOneReply(s);
    ReplyTake(s.replies, i);
    var s0 := s.(replies := s.replies[..i] + s.replies[i + 1..]);
    CoreReplyMid(s, s.replies[i], s0.replies);
    var s1 := OnReply(s0, s.replies[i]).value;
    assert s1 == EnterBoundary(s0);
    DriveIdle(s1);
    assert [] + [Scan(Full)] == [Scan(Full)];
  }

  /** No protocol answer is on its way while actions are dispatched. */
  lemma NoTurn(s: System, i: nat)
    requires Inv(s) && i < |s.replies| && s.phase.Dispatching?
    ensures !IsCoreReply(s.replies[i])
  {
    if IsCoreReply(s.replies[i]) { ReplyTurn(s, i); }
  }

  /** A begun epoch has its first action out, or nothing to do and its commit requested. */
  lemma BegunFrame(s: System, kind: Kind, st: Started)
    requires s.fs.pending == [] && s.fs.phaseInflight == 0
    ensures var s' := Drive(Begin(s, kind, st));
      if st.actions == [] then
        && s'.phase == Committing(kind, st.epoch) && s'.history == {} && s'.fs.pending == []
        && s'.actor.lane == s.actor.lane + [CommitEpoch(kind, st.epoch, true)]
      else
        && s'.phase.Dispatching? && s'.phase.kind == kind && s'.phase.epoch == st.epoch
        && s'.history == {st.actions[0]} && s'.fs.pending == [Perform(kind, st.actions[0])]
  {
    var s1 := Cleanup(Begin(s, kind, st));
    if st.actions != [] {
      var id := st.actions[0];
      var s2 := FsSend(s1.(phase := Dispatching(kind, st.epoch, st.actions[1..], {id}), history := {id}), Perform(kind, id));
      assert {} + {id} == {id} && [] + [Perform(kind, id)] == [Perform(kind, id)];
      assert Dispatch(s1) == Dispatch(s2) == s2;
    }
  }

  // ---------------------------------------------------------------- file-system answers

  /** An answer to a scan or an import read begins no projection. */
  lemma OtherAnswer(s: System, i: nat, invalid: bool, swapLeft: bool)
    requires Inv(s) && i < |s.fs.pending| && (s.fs.pending[i].Scan? || s.fs.pending[i].kind.Import?)
    ensures Next(s, TakeFs(i, invalid, swapLeft)).Ok?
    ensures var s' := Next(s, TakeFs(i, invalid, swapLeft)).value;
      && s'.actor.ledger == s.actor.ledger && s'.actor.running == s.actor.running && s'.work == s.work
      && (s'.phase.PlanningImport? || (Busy(s'.phase) && s'.phase.kind.Import?))
  {
    OneTask(s, i);
    FsStep(s, i, invalid, swapLeft);
    var s1 := OnFs(s, i, invalid, swapLeft).value;
    DriveActor(s1);
    if s.fs.pending[0].Perform? {
      var id := s.fs.pending[0].id;
      PerformedIs(s, Import, id, invalid, swapLeft);
      DriveKind(s1);
    } else {
      DriveIdle(s1);
    }
  }

  lemma {:induction false} DispatchKind(s: System)
    requires s.phase.Dispatching?
    ensures Dispatch(s).phase.Dispatching? && Dispatch(s).phase.kind == s.phase.kind
    decreases |s.phase.queue|
  {
    if s.fs.phaseInflight == 0 && s.phase.queue != [] {
      var id := s.phase.queue[0];
      DispatchKind(FsSend(s.(phase := s.phase.(queue := s.phase.queue[1..], inFlight := s.phase.inFlight + {id}),
                             history := s.history + {id}), Perform(s.phase.kind, id)));
    }
  }

  lemma DriveKind(s: System)
    requires s.phase.Dispatching?
    ensures Busy(Drive(s).phase) && Drive(s).phase.kind == s.phase.kind
  {
    DispatchKind(Cleanup(s));
  }

  /** An accepted action is followed by the next one, or by the commit of the exhausted plan. */
  lemma AcceptedFrame(s: System, i: nat, swapLeft: bool)
    requires Inv(s) && i < |s.fs.pending| && s.fs.pending[i].Perform? && s.fs.pending[i].kind.Projection?
    ensures Next(s, TakeFs(i, false, swapLeft)).Ok?
    ensures var s' := Next(s, TakeFs(i, false, swapLeft)).value;
      && s'.actor.ledger == s.actor.ledger && s'.actor.running == s.actor.running && s'.work == s.work
      && s.phase.Dispatching? && s.phase.kind.Projection? && Advanced(s, s')
  {
    OneTask(s, i);
    var id := s.fs.pending[0].id;
    PerformedIs(s, Projection, id, false, swapLeft);
    var s1 := Answered(s, AfterAnswer(s.phase, Projection, false), Projection, id, false, swapLeft);
    assert OnFs(s, i, false, swapLeft) == Ok(s1);
    DriveActor(s1);
    AcceptedDrive(s, s1, id);
  }

  /** The next action of the plan is out, or the plan is exhausted. */
  predicate Advanced(s: System, s': System)
    requires s.phase.Dispatching?
  {
    if s.phase.queue == [] then
      s'.phase == Committing(Projection, s.phase.epoch) && s'.history == s.history && s'.fs.pending == [] && !Discarding(s')
    else
      var next := s.phase.queue[0];
      && s'.phase.Dispatching? && s'.phase.kind.Projection? && s'.history == s.history + {next}
      && s'.fs.pending == [Perform(Projection, next)] && next !in s.history
      && Projection in s.actor.ledger.active && next in s.actor.ledger.active[Projection].expected
  }

  lemma AcceptedDrive(s: System, s1: System, id: ActionId)
    requires Inv(s) && s.phase.Dispatching? && s.phase.kind.Projection? && s1.phase == AfterAnswer(s.phase, Projection, false)
    requires s1.fs.pending == [] && s1.fs.phaseInflight == 0 && s1.history == s.history
    ensures Advanced(s, Drive(s1))
  {
    var s2 := Cleanup(s1);
    if s.phase.queue == [] {
      CorePush(s2.actor.lane, CommitEpoch(Projection, s.phase.epoch, true));
    } else {
      var next := s.phase.queue[0];
      assert next in IdSet(s.phase.queue);
      var s3 := FsSend(s2.(phase := s2.phase.(queue := s2.phase.queue[1..], inFlight := {} + {next}),
                           history := s2.history + {next}), Perform(Projection, next));
      assert [] + [Perform(Projection, next)] == [Perform(Projection, next)];
      assert Dispatch(s2) == Dispatch(s3) == s3;
    }
  }
}
