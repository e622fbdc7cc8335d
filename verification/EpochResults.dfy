/** What holds in every run of engine, semantic actor and file-system client. */
module EpochResults {
  import opened Common
  import opened Scans
  import opened Epochs
  import opened EpochSafety
  import opened EpochSteps

  lemma InitialInv(work: bool)
    ensures Inv(Initial(work))
  {
  }

  lemma AsideStep(s: System, r: Request)
    requires Inv(s) && (r.ApplyBatch? || r.Chore?)
    ensures var step := if r.ApplyBatch? then AskBatch else AskChore;
      Next(s, step).Ok? && Inv(Next(s, step).value)
  {
    SendMid(s, r);
    DriveInv(Send(s, r));
  }

  lemma ScanStep(s: System, scope: Scope)
    requires Inv(s)
    ensures Next(s, AskScan(scope)).Ok? && Inv(Next(s, AskScan(scope)).value)
  {
    ScanMid(s, scope);
    DriveInv(RequestScan(s, scope));
  }

  lemma EventStep(s: System)
    requires Inv(s) && s.events > 0
    ensures Next(s, TakeEvent).Ok? && Inv(Next(s, TakeEvent).value)
  {
    EventMid(s);
    DriveInv(OnProjectionChanged(s.(events := s.events - 1)));
  }

  lemma CleanupDone(s: System)
    requires Inv(s) && s.fs.cleanups > 0
    ensures Next(s, TakeCleanup).Ok? && Inv(Next(s, TakeCleanup).value)
  {
    DriveInv(OnCleanup(s).value);
  }

  lemma EngineStep(s: System, step: Step)
    requires Inv(s) && Enabled(s, step) && !step.StartOp? && !step.FinishOp?
    ensures Next(s, step).Ok? && Inv(Next(s, step).value)
  {
    match step {
      case TakeReply(i) => ReplyStep(s, i);
      case TakeFs(i, invalid, swapLeft) => FsStep(s, i, invalid, swapLeft);
      case TakeCleanup => CleanupDone(s);
      case AskScan(scope) => ScanStep(s, scope);
      case AskBatch => AsideStep(s, ApplyBatch);
      case AskChore => AsideStep(s, Chore);
      case TakeEvent => EventStep(s);
    }
  }

  /** No step reaches a panic, assert, expect or bail. */
  lemma StepSafe(s: System, step: Step)
    requires Inv(s) && Enabled(s, step)
    ensures Next(s, step).Ok? && Inv(Next(s, step).value)
  {
    match step {
      case StartOp(effect) => StartStep(s, effect);
      case FinishOp(i, actions) => FinishStep(s, i, actions);
      case _ => EngineStep(s, step);
    }
  }

  /** A run of enabled steps from the engine's start; `Fault` as soon as one faults. */
  ghost predicate Reaches(s: System, steps: seq<Step>, end: Outcome<System>)
    decreases |steps|
  {
    if steps == [] then end == Ok(s)
    else if !Enabled(s, steps[0]) then false
    else match Next(s, steps[0])
      case Fault => end == Fault
      case Ok(s') => Reaches(s', steps[1..], end)
  }

  lemma {:induction false} RunSafe(s: System, steps: seq<Step>, end: Outcome<System>)
    requires Inv(s) && Reaches(s, steps, end)
    ensures end.Ok? && Inv(end.value)
    decreases |steps|
  {
    if steps != [] {
      StepSafe(s, steps[0]);
      RunSafe(Next(s, steps[0]).value, steps[1..], end);
    }
  }

  ghost predicate Reachable(s: System) {
    exists work, steps :: Reaches(Initial(work), steps, Ok(s))
  }

  lemma ReachableInv(s: System)
    requires Reachable(s)
    ensures Inv(s)
  {
    var work, steps :| Reaches(Initial(work), steps, Ok(s));
    InitialInv(work);
    RunSafe(Initial(work), steps, Ok(s));
  }

  /** No run of the daemon faults. */
  lemma NoRunFaults(work: bool, steps: seq<Step>)
    ensures !Reaches(Initial(work), steps, Fault)
  {
    InitialInv(work);
    if Reaches(Initial(work), steps, Fault) { RunSafe(Initial(work), steps, Fault); }
  }

  // ---------------------------------------------------------------- epochs

  /** At most one epoch is active, import or projection; one transaction and one file operation at a time. */
  lemma OneAtATime(s: System)
    requires Reachable(s)
    ensures !(Import in s.actor.ledger.active && Projection in s.actor.ledger.active)
    ensures |s.actor.running| <= 1 && |s.fs.pending| <= 1
  {
    ReachableInv(s);
  }

  /**
   * The order of transactions the replica relies on: a scan is applied and a plan is made only
   * between epochs, and actions and commits belong to the one epoch that is active. Minting
   * never overlaps a projection.
   */
  lemma TransactionsInTurn(s: System)
    requires Reachable(s) && s.actor.running == [] && s.actor.lane != []
    ensures match s.actor.lane[0]
      case ApplyScan => s.actor.ledger.active == map[]
      case GetNextWork(_) => s.actor.ledger.active == map[]
      case CommitAction(kind, _) => s.actor.ledger.active.Keys == {kind}
      case CommitEpoch(kind, _, _) => s.actor.ledger.active.Keys == {kind}
      case _ => true
  {
    ReachableInv(s);
    CorePop(s.actor.lane);
    if s.actor.lane[0].CommitAction? { StagePhase(s); }
    if s.actor.lane[0].CommitEpoch? { NeverDeferred(s); }
  }

  /** Epoch commits are never deferred; the deferred slots stay empty. */
  lemma DeferralUnused(s: System)
    requires Reachable(s)
    ensures s.actor.deferred == map[]
  {
    ReachableInv(s);
  }

  /** When an epoch commit starts, its completed actions are exactly the dispatched ones, and for an exhausted plan all of it. */
  lemma CommittedOnce(s: System)
    requires Reachable(s) && s.actor.running == [] && s.actor.lane != [] && s.actor.lane[0].CommitEpoch?
    ensures var r := s.actor.lane[0];
      && IsActive(s.actor.ledger, r.kind, r.epoch)
      && s.actor.ledger.active[r.kind].completed == s.history
      && (r.exhausted ==> s.history == s.actor.ledger.active[r.kind].expected)
  {
    ReachableInv(s);
    NeverDeferred(s);
  }

  lemma DriveLate(s: System)
    requires !s.phase.Dispatching?
    ensures Drive(s).history == s.history && !Drive(s).phase.Dispatching?
  {
  }

  lemma LateReply(s: System, i: nat)
    requires Inv(s) && i < |s.replies| && s.phase.Committing?
    ensures var o := OnReply(s.(replies := s.replies[..i] + s.replies[i + 1..]), s.replies[i]);
      o.Ok? ==> o.value.history == s.history && !o.value.phase.Dispatching?
  {
    AtMostOneReply(s);
    ReplyTake(s.replies, i);
  }

  lemma LateOther(s: System, step: Step)
    requires Enabled(s, step) && s.phase.Committing? && !step.TakeReply? && !step.TakeFs?
    ensures Next(s, step).Ok? ==> Next(s, step).value.history == s.history && !Next(s, step).value.phase.Dispatching?
  {
    match step {
      case AskScan(scope) => DriveLate(RequestScan(s, scope));
      case AskBatch => DriveLate(Send(s, ApplyBatch));
      case AskChore => DriveLate(Send(s, Chore));
      case TakeEvent => DriveLate(OnProjectionChanged(s.(events := s.events - 1)));
      case TakeCleanup => if OnCleanup(s).Ok? { DriveLate(OnCleanup(s).value); }
      case _ =>
    }
  }

  lemma NothingOut(s: System)
    requires Inv(s) && s.phase.Committing?
    ensures s.fs.pending == []
  {
  }

  /** After an epoch's commit is requested, nothing more of the epoch is dispatched. */
  lemma NoLateDispatch(s: System, step: Step)
    requires Reachable(s) && Enabled(s, step) && s.phase.Committing?
    ensures Next(s, step).Ok? && Next(s, step).value.history == s.history && !Next(s, step).value.phase.Dispatching?
  {
    ReachableInv(s);
    StepSafe(s, step);
    NothingOut(s);
    match step {
      case TakeReply(i) =>
        var s1 := OnReply(s.(replies := s.replies[..i] + s.replies[i + 1..]), s.replies[i]).value;
        LateReply(s, i);
        DriveLate(s1);
      case _ => LateOther(s, step);
    }
  }

  /** One operation being out at a time, Draining is passed through within a step. */
  lemma DrainingPasses(s: System)
    requires Reachable(s)
    ensures !s.phase.Draining?
  {
    ReachableInv(s);
  }

  // ---------------------------------------------------------------- discarded projections

  /** Until the commit of a discarded projection is taken, a full scan is pending. */
  lemma DiscardedMeansFullScan(s: System)
    requires Reachable(s) && s.actor.lane != [] && s.actor.lane[0].CommitEpoch? && !s.actor.lane[0].exhausted
    ensures s.pendingScan == Some(Full)
  {
    ReachableInv(s);
    OnlyCommit(s);
  }

  /** The commit request of a discarded projection is in the lane. */
  predicate Discarding(s: System) {
    var lane := Core(s.actor.lane);
    lane != [] && lane[|lane| - 1].CommitEpoch? && !lane[|lane| - 1].exhausted
  }

  /**
   * An action's refusal at once ends dispatching: the discarding commit is requested, a full
   * scan is pending, and what was dispatched stays as it is.
   */
  lemma RefusalDiscards(s: System, i: nat, swapLeft: bool)
    requires Inv(s) && i < |s.fs.pending| && s.fs.pending[i].Perform? && s.fs.pending[i].kind.Projection?
    ensures var o := Next(s, TakeFs(i, true, swapLeft));
      && s.phase.Dispatching? && s.phase.kind.Projection?
      && o.Ok? && Discarding(o.value) && o.value.phase == Committing(Projection, s.phase.epoch) && o.value.pendingScan == Some(Full)
      && o.value.fs.pending == [] && o.value.work == s.work
      && o.value.history == s.history && o.value.actor.ledger == s.actor.ledger && o.value.actor.running == s.actor.running
  {
    OneTask(s, i);
    var id := s.fs.pending[0].id;
    OutFor(s, Projection, id);
    PerformedIs(s, Projection, id, true, swapLeft);
    DrainDrive(Answered(s, Draining(s.phase.epoch, {}), Projection, id, true, swapLeft), s.phase.epoch);
  }

  /** Draining with nothing out, the loop top requests the discarding commit. */
  lemma DrainDrive(s: System, epoch: nat)
    requires s.phase == Draining(epoch, {})
    ensures var s' := Drive(s);
      && Discarding(s') && s'.phase == Committing(Projection, epoch) && s'.pendingScan == s.pendingScan
      && s'.fs.pending == s.fs.pending && s'.work == s.work && s'.history == s.history
      && s'.actor.ledger == s.actor.ledger && s'.actor.running == s.actor.running
  {
    CorePush(Cleanup(s).actor.lane, CommitEpoch(Projection, epoch, false));
  }

  /** An epoch commit at the head of the lane is the last request of its phase. */
  lemma OnlyCommit(s: System)
    requires Inv(s) && s.actor.lane != [] && s.actor.lane[0].CommitEpoch?
    ensures Core(s.actor.lane) == [s.actor.lane[0]]
  {
    CorePop(s.actor.lane);
    var lane := Core(s.actor.lane);
    assert s.phase.Committing? && lane[0].CommitEpoch?;
  }

  /** The engine never waits for nothing: outside Idle something is queued, running or on its way back. */
  lemma NeverStuck(s: System)
    requires Reachable(s) && !s.phase.Idle?
    ensures s.actor.lane != [] || s.actor.running != [] || s.replies != [] || s.fs.pending != []
  {
    ReachableInv(s);
  }
}
