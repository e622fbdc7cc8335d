/** Epoch numbers, and what is refused: answers, requests and completions out of turn. */
module EpochGuards {
  import opened Common
  import opened Epochs
  import opened EpochFrames
  import opened EpochScans

  // ---------------------------------------------------------------- epoch numbers

  /** The step reserves the number `epoch` for an epoch of this kind. */
  predicate Reserves(s: System, step: Step, kind: Kind, epoch: nat)
    requires Enabled(s, step) && Next(s, step).Ok?
  {
    var running := Next(s, step).value.actor.running;
    && step.StartOp? && running != []
    && match running[|running| - 1].op
       case Plan(e) => s.actor.lane[0].ApplyScan? && kind.Import? && e == epoch
       case NextWork(e, _, _) => s.actor.lane[0].GetNextWork? && kind.Projection? && e == epoch
       case _ => false
  }

  /** A request to plan reserves a number. */
  lemma PlanningReserves(s: System, effect: Effect)
    requires Enabled(s, StartOp(effect)) && Next(s, StartOp(effect)).Ok?
    ensures s.actor.lane[0].ApplyScan? ==> Reserves(s, StartOp(effect), Import, NextEpoch(s.actor.ledger, Import))
    ensures s.actor.lane[0].GetNextWork? ==> Reserves(s, StartOp(effect), Projection, NextEpoch(s.actor.ledger, Projection))
  {
  }

  lemma DriveLedger(s: System)
    ensures Drive(s).actor.ledger == s.actor.ledger
  {
    DriveActor(s);
  }

  lemma ReplyLedger(s: System, i: nat)
    requires i < |s.replies| && Next(s, TakeReply(i)).Ok?
    ensures Next(s, TakeReply(i)).value.actor.ledger == s.actor.ledger
  {
    var s1 := OnReply(s.(replies := s.replies[..i] + s.replies[i + 1..]), s.replies[i]).value;
    assert s1.actor.ledger == s.actor.ledger;
    DriveLedger(s1);
  }

  lemma FsLedger(s: System, i: nat, invalid: bool, swapLeft: bool)
    requires i < |s.fs.pending| && OnFs(s, i, invalid, swapLeft).Ok?
    ensures Next(s, TakeFs(i, invalid, swapLeft)).value.actor.ledger == s.actor.ledger
  {
    AnswerLedger(s, i, invalid, swapLeft);
    DriveLedger(OnFs(s, i, invalid, swapLeft).value);
  }

  lemma AnswerLedger(s: System, i: nat, invalid: bool, swapLeft: bool)
    requires i < |s.fs.pending| && OnFs(s, i, invalid, swapLeft).Ok?
    ensures OnFs(s, i, invalid, swapLeft).value.actor.ledger == s.actor.ledger
  {
  }

  lemma AskLedger(s: System, step: Step)
    requires Enabled(s, step) && IsAsk(step) && Next(s, step).Ok?
    ensures Next(s, step).value.actor.ledger == s.actor.ledger
  {
    assert Handled(s, step).actor.ledger == s.actor.ledger;
    DriveLedger(Handled(s, step));
  }

  lemma FinishNumbers(s: System, i: nat, actions: seq<ActionId>)
    requires i < |s.actor.running| && FinishTask(s, i, actions).Ok?
    ensures FinishTask(s, i, actions).value.actor.ledger.next == s.actor.ledger.next
  {
  }

  lemma NumbersStep(s: System, step: Step, kind: Kind)
    requires Enabled(s, step) && Next(s, step).Ok?
    ensures NextEpoch(Next(s, step).value.actor.ledger, kind) >= NextEpoch(s.actor.ledger, kind)
    ensures forall e: nat :: Reserves(s, step, kind, e) ==> NextEpoch(s.actor.ledger, kind) == e < NextEpoch(Next(s, step).value.actor.ledger, kind)
  {
    match step {
      case StartOp(_) =>
      case FinishOp(i, actions) => FinishNumbers(s, i, actions);
      case TakeReply(i) => ReplyLedger(s, i);
      case TakeFs(i, invalid, swapLeft) => FsLedger(s, i, invalid, swapLeft);
      case _ => AskLedger(s, step);
    }
  }

  lemma {:induction false} NumbersRise(ss: seq<System>, steps: seq<Step>, i: nat, j: nat, kind: Kind)
    requires Trace(ss, steps) && i <= j <= |steps|
    ensures NextEpoch(ss[i].actor.ledger, kind) <= NextEpoch(ss[j].actor.ledger, kind)
  {
    if i < j {
      NumbersRise(ss, steps, i, j - 1, kind);
      assert Goes(ss[j - 1], steps[j - 1], ss[j - 1 + 1]);
      NumbersStep(ss[j - 1], steps[j - 1], kind);
    }
  }

  /** No two epochs of a kind in one run of the daemon have the same number. */
  lemma EpochNumbersFresh(ss: seq<System>, steps: seq<Step>, i: nat, j: nat, kind: Kind, d: nat, e: nat)
    requires Trace(ss, steps) && i < j < |steps| && Goes(ss[i], steps[i], ss[i + 1]) && Goes(ss[j], steps[j], ss[j + 1])
    requires Reserves(ss[i], steps[i], kind, d) && Reserves(ss[j], steps[j], kind, e)
    ensures d < e
  {
    NumbersStep(ss[i], steps[i], kind);
    NumbersRise(ss, steps, i + 1, j, kind);
    NumbersStep(ss[j], steps[j], kind);
  }

  // ---------------------------------------------------------------- what is refused

  /** The reply answers what the engine waits for. */
  predicate ReplyInTurn(phase: Phase, r: Reply) {
    match r
    case ScanPlanned(_) => phase.PlanningImport?
    case EpochClosed(kind) => phase.Committing? && phase.kind == kind
    case NextWorkIs(boundary, _) => phase.AwaitingNextWork? && phase.boundary == boundary
    case _ => true
  }

  /** The answer is to the scan that is out, or to an action of the current epoch that is out. */
  predicate TaskInTurn(phase: Phase, t: FsTask) {
    match t
    case Scan(_) => phase.Scanning?
    case Perform(kind, id) =>
      || (phase.Dispatching? && phase.kind == kind && phase.epoch == id.epoch && id in phase.inFlight)
      || (phase.Draining? && kind.Projection? && phase.epoch == id.epoch && id in phase.inFlight)
  }

  predicate RequestInTurn(a: Actor, r: Request) {
    match r
    case ApplyScan => Import !in a.ledger.active
    case GetNextWork(_) => Projection !in a.ledger.active
    case CommitAction(kind, id) =>
      && kind in a.ledger.active && a.ledger.active[kind].epoch == id.epoch
      && id in a.ledger.active[kind].expected && id !in a.ledger.active[kind].completed
    case CommitEpoch(kind, epoch, _) => kind in a.ledger.active && a.ledger.active[kind].epoch == epoch && kind !in a.deferred
    case _ => true
  }

  predicate InTurn(s: System, step: Step)
    requires Enabled(s, step)
  {
    match step
    case TakeReply(i) => ReplyInTurn(s.phase, s.replies[i])
    case TakeFs(i, _, _) => s.fs.phaseInflight > 0 && TaskInTurn(s.phase, s.fs.pending[i])
    case TakeCleanup => s.fs.cleanupInflight > 0
    case StartOp(_) => RequestInTurn(s.actor, s.actor.lane[0])
    case FinishOp(i, _) =>
      var t := s.actor.running[i];
      t.opId in s.actor.pendingOps && s.actor.pendingOps[t.opId] == t.op
    case _ => true
  }

  /** A step out of turn faults. */
  lemma OutOfTurnFaults(s: System, step: Step)
    requires Enabled(s, step) && !InTurn(s, step)
    ensures Next(s, step).Fault?
  {
  }

  /** An epoch's commit is requested only with none of its actions queued or out. */
  lemma CommitsLast(s: System)
    requires RequestCommit(s) != s
    ensures s.phase.Dispatching? || s.phase.Draining?
    ensures s.phase.inFlight == {} && (s.phase.Dispatching? ==> s.phase.queue == [])
  {
  }

  /** A plan with an action of another epoch, or with one twice, is not installed, nor one beside another of its kind. */
  lemma LedgerAdmits(l: Ledger, kind: Kind, st: Started)
    requires Install(l, kind, st).Ok?
    ensures kind !in l.active && forall i :: 0 <= i < |st.actions| ==> st.actions[i].epoch == st.epoch
    ensures forall i, j :: 0 <= i < j < |st.actions| ==> st.actions[i] != st.actions[j]
    ensures Install(Install(l, kind, st).value, kind, st).Fault?
  {
  }

  /** Completing twice, in another epoch, or without being planned is refused, and an exhausted plan must be complete. */
  lemma LedgerRefuses(l: Ledger, kind: Kind, id: ActionId, epoch: nat)
    ensures Complete(l, kind, id).Ok? ==>
      && kind in l.active && l.active[kind].epoch == id.epoch && id in l.active[kind].expected
      && Complete(Complete(l, kind, id).value, kind, id).Fault?
    ensures Finish(l, kind, epoch, true).Ok? ==> kind in l.active && l.active[kind].epoch == epoch && l.active[kind].expected <= l.active[kind].completed
    ensures Finish(l, kind, epoch, false).Ok? ==> kind in l.active && l.active[kind].epoch == epoch
    ensures forall exhausted :: Finish(l, kind, epoch, exhausted).Ok? ==> kind !in Finish(l, kind, epoch, exhausted).value.active
  {
  }

  /** An action of the epoch has not been committed, or is just being. */
  predicate Unfinished(a: Actor, kind: Kind, exhausted: bool)
    requires kind in a.ledger.active
  {
    || ((kind.Import? || exhausted) && |a.ledger.active[kind].completed| != |a.ledger.active[kind].expected|)
    || (kind.Projection? && exists i :: i in a.pendingOps && a.pendingOps[i].Stage? && a.pendingOps[i].kind.Projection?)
  }

  /** Such an epoch's commit waits; it starts nothing and leaves the epoch open. */
  lemma UnfinishedWaits(s: System, effect: Effect, kind: Kind, epoch: nat, exhausted: bool)
    requires s.actor.lane != [] && s.actor.lane[0] == CommitEpoch(kind, epoch, exhausted)
    requires IsActive(s.actor.ledger, kind, epoch) && kind !in s.actor.deferred && Unfinished(s.actor, kind, exhausted)
    ensures StartRequest(s, effect).Ok?
    ensures var a := StartRequest(s, effect).value.actor;
      a.ledger == s.actor.ledger && a.running == s.actor.running && a.deferred == s.actor.deferred[kind := Deferred(epoch, exhausted)]
  {
  }
}
