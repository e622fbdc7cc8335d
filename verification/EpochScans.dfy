/** Scan requests and cleanups over runs of the engine. */
module EpochScans {
  import opened Common
  import opened Crdt
  import opened Scans
  import opened Epochs
  import opened EpochFrames

  /** The states of a run, one more than its steps. */
  ghost predicate Trace(ss: seq<System>, steps: seq<Step>) {
    |ss| == |steps| + 1 && forall i :: 0 <= i < |steps| ==> Goes(ss[i], steps[i], ss[i + 1])
  }

  ghost predicate Goes(s: System, step: Step, s': System) { Enabled(s, step) && Next(s, step) == Ok(s') }

  // ---------------------------------------------------------------- scans

  /** What the step asks to be scanned: a requested scope, or everything after a refused action. */
  function Asked(s: System, step: Step): Option<Scope>
    requires Enabled(s, step)
  {
    match step
    case AskScan(scope) => Some(scope)
    case TakeFs(i, invalid, _) => if invalid && s.fs.pending[i].Perform? then Some(Full) else None
    case _ => None
  }

  function Remembered(s: System, step: Step): Option<Scope>
    requires Enabled(s, step)
  {
    var asked := Asked(s, step);
    if asked.Some? then Remember(s.pendingScan, asked.value) else s.pendingScan
  }

  /** `f'` has no scan that `f` has not. */
  predicate NoNewScan(f: seq<FsTask>, f': seq<FsTask>) { forall t :: t in f' && t.Scan? ==> t in f }

  /** Either the scope stays remembered, or just this scope is being scanned. */
  predicate Moved(f: seq<FsTask>, scope: Option<Scope>, s': System) {
    || (s'.pendingScan == scope && NoNewScan(f, s'.fs.pending))
    || (s'.pendingScan.None? && s'.phase.Scanning? && scope.Some? && Scan(scope.value) in s'.fs.pending
        && NoNewScan(f + [Scan(scope.value)], s'.fs.pending))
  }

  lemma {:induction false} DispatchMoves(f: seq<FsTask>, scope: Option<Scope>, s: System)
    requires Moved(f, scope, s)
    ensures Moved(f, scope, Dispatch(s))
    decreases if s.phase.Dispatching? then |s.phase.queue| else 0
  {
    if s.phase.Dispatching? && s.fs.phaseInflight == 0 && s.phase.queue != [] {
      var id := s.phase.queue[0];
      DispatchMoves(f, scope, FsSend(s.(phase := s.phase.(queue := s.phase.queue[1..], inFlight := s.phase.inFlight + {id}),
                                        history := s.history + {id}), Perform(s.phase.kind, id)));
    }
  }

  lemma DriveMoves(f: seq<FsTask>, scope: Option<Scope>, s: System)
    requires Moved(f, scope, s)
    ensures Moved(f, scope, Drive(s))
  {
    DispatchMoves(f, scope, Cleanup(s));
  }

  lemma BoundaryMoves(f: seq<FsTask>, s: System)
    requires NoNewScan(f, s.fs.pending)
    ensures Moved(f, s.pendingScan, EnterBoundary(s))
  {
  }

  lemma PerformedMoves(s: System, i: nat, invalid: bool, swapLeft: bool)
    requires i < |s.fs.pending| && OnFs(s, i, invalid, swapLeft).Ok?
    ensures Moved(s.fs.pending, Remembered(s, TakeFs(i, invalid, swapLeft)), OnFs(s, i, invalid, swapLeft).value)
  {
    assert NoNewScan(s.fs.pending, s.fs.pending[..i] + s.fs.pending[i + 1..]);
  }

  lemma ReplyMoves(s: System, i: nat)
    requires i < |s.replies|
    ensures var o := OnReply(s.(replies := s.replies[..i] + s.replies[i + 1..]), s.replies[i]);
      o.Ok? ==> Moved(s.fs.pending, s.pendingScan, o.value)
  {
    BoundaryMoves(s.fs.pending, s.(replies := s.replies[..i] + s.replies[i + 1..]));
  }

  /**
   * What a step does to the remembered scope: it is widened by what the step asks for and
   * then either kept, or handed whole to the file system and forgotten.
   */
  lemma ScopeMoves(s: System, step: Step)
    requires Enabled(s, step) && Next(s, step).Ok?
    ensures Moved(s.fs.pending, Remembered(s, step), Next(s, step).value)
  {
    var f, scope := s.fs.pending, Remembered(s, step);
    match step {
      case AskScan(_) => DriveMoves(f, scope, RequestScan(s, step.scope));
      case AskBatch => DriveMoves(f, scope, Send(s, ApplyBatch));
      case AskChore => DriveMoves(f, scope, Send(s, Chore));
      case TakeEvent => DriveMoves(f, scope, OnProjectionChanged(s.(events := s.events - 1)));
      case TakeReply(i) =>
        ReplyMoves(s, i);
        DriveMoves(f, scope, OnReply(s.(replies := s.replies[..i] + s.replies[i + 1..]), s.replies[i]).value);
      case TakeFs(i, invalid, swapLeft) =>
        PerformedMoves(s, i, invalid, swapLeft);
        DriveMoves(f, scope, OnFs(s, i, invalid, swapLeft).value);
      case TakeCleanup => DriveMoves(f, scope, OnCleanup(s).value);
      case _ =>
    }
  }

  predicate Wanted(scope: Option<Scope>, p: Path) { scope.Some? && Contains(scope.value, p) }

  /** A scan that covers `p` is out. */
  predicate BeingScanned(f: seq<FsTask>, p: Path) { exists t :: t in f && t.Scan? && Contains(t.scope, p) }

  /** A request is remembered beside what is already wanted, and no wider than it must be. */
  lemma RememberCovers(o: Option<Scope>, scope: Scope, p: Path)
    ensures Wanted(o, p) || Contains(scope, p) ==> Wanted(Remember(o, scope), p)
    ensures Wanted(Remember(o, scope), p) ==>
      Wanted(o, p) || Contains(scope, p) || (o.Some? && !Wider(o.value, scope) && !Wider(scope, o.value))
  {
    if o.Some? { CoalesceExact(o.value, scope); }
  }

  lemma StaysWanted(s: System, step: Step, p: Path)
    requires Enabled(s, step) && Next(s, step).Ok? && (Wanted(s.pendingScan, p) || Wanted(Asked(s, step), p))
    ensures Wanted(Next(s, step).value.pendingScan, p) || BeingScanned(Next(s, step).value.fs.pending, p)
  {
    ScopeMoves(s, step);
    if Asked(s, step).Some? { RememberCovers(s.pendingScan, Asked(s, step).value, p); }
  }

  /**
   * In every run, a path asked for at step `i` stays remembered until a scan that covers it
   * is with the file system.
   */
  lemma {:induction false} RequestIsScanned(ss: seq<System>, steps: seq<Step>, i: nat, j: nat, p: Path)
    requires Trace(ss, steps) && i < j <= |steps| && Goes(ss[i], steps[i], ss[i + 1]) && Wanted(Asked(ss[i], steps[i]), p)
    ensures Wanted(ss[j].pendingScan, p) || exists k :: i < k <= j && BeingScanned(ss[k].fs.pending, p)
  {
    if i + 1 < j { RequestIsScanned(ss, steps, i, j - 1, p); }
    assert Goes(ss[j - 1], steps[j - 1], ss[j - 1 + 1]);
    if i + 1 == j || Wanted(ss[j - 1].pendingScan, p) { StaysWanted(ss[j - 1], steps[j - 1], p); }
  }

  /** A refused import or projection action leaves a full scan pending. */
  lemma RefusedThenFull(s: System, i: nat, swapLeft: bool)
    requires Enabled(s, TakeFs(i, true, swapLeft)) && Next(s, TakeFs(i, true, swapLeft)).Ok? && s.fs.pending[i].Perform?
    ensures Next(s, TakeFs(i, true, swapLeft)).value.pendingScan == Some(Full)
  {
    var s1 := OnFs(s, i, true, swapLeft).value;
    assert s1.pendingScan == Some(Full);
    DriveActor(s1);
  }

  /** The engine begins with a scan of everything. */
  lemma BeginsWithFull(work: bool)
    ensures Initial(work).fs.pending == [Scan(Full)] && Initial(work).pendingScan.None?
  {
  }

  // ---------------------------------------------------------------- cleanups

  /** Swap files still to be removed. */
  function Owed(s: System): nat { s.cleanupQueue + s.fs.cleanups }

  /** As many removals are out as the client takes, and one waits only if that many are. */
  predicate CleanupInv(s: System) {
    && s.fs.cleanups == s.fs.cleanupInflight <= MAX_CLEANUP_IN_FLIGHT
    && (s.cleanupQueue > 0 ==> s.fs.cleanupInflight == MAX_CLEANUP_IN_FLIGHT)
  }

  predicate LeavesSwap(s: System, step: Step)
    requires Enabled(s, step)
  {
    step.TakeFs? && step.swapLeft && s.fs.pending[step.i].Perform? && s.fs.pending[step.i].kind.Projection?
  }

  lemma {:induction false} DispatchCleanups(s: System)
    ensures var s' := Dispatch(s); s'.cleanupQueue == s.cleanupQueue && s'.fs.cleanups == s.fs.cleanups && s'.fs.cleanupInflight == s.fs.cleanupInflight
    decreases if s.phase.Dispatching? then |s.phase.queue| else 0
  {
    if s.phase.Dispatching? && s.fs.phaseInflight == 0 && s.phase.queue != [] {
      var id := s.phase.queue[0];
      DispatchCleanups(FsSend(s.(phase := s.phase.(queue := s.phase.queue[1..], inFlight := s.phase.inFlight + {id}),
                                 history := s.history + {id}), Perform(s.phase.kind, id)));
    }
  }

  lemma DriveCleanups(s: System)
    requires s.fs.cleanups == s.fs.cleanupInflight <= MAX_CLEANUP_IN_FLIGHT
    ensures CleanupInv(Drive(s)) && Owed(Drive(s)) == Owed(s)
  {
    DispatchCleanups(Cleanup(s));
  }

  function OwedAfter(s: System, step: Step): int
    requires Enabled(s, step)
  {
    Owed(s) + (if LeavesSwap(s, step) then 1 else 0) - (if step.TakeCleanup? then 1 else 0)
  }

  predicate SameCleanups(s: System, s': System) {
    s'.cleanupQueue == s.cleanupQueue && s'.fs.cleanups == s.fs.cleanups && s'.fs.cleanupInflight == s.fs.cleanupInflight
  }

  /** The step keeps the account. */
  predicate Balanced(s: System, step: Step)
    requires Enabled(s, step) && Next(s, step).Ok?
  {
    CleanupInv(Next(s, step).value) && Owed(Next(s, step).value) == OwedAfter(s, step)
  }

  lemma FsBalanced(s: System, i: nat, invalid: bool, swapLeft: bool)
    requires i < |s.fs.pending| && OnFs(s, i, invalid, swapLeft).Ok? && CleanupInv(s)
    ensures Balanced(s, TakeFs(i, invalid, swapLeft))
  {
    var s1 := OnFs(s, i, invalid, swapLeft).value;
    assert SameCleanups(s.(cleanupQueue := s.cleanupQueue + if LeavesSwap(s, TakeFs(i, invalid, swapLeft)) then 1 else 0), s1);
    DriveCleanups(s1);
  }

  lemma ReplyBalanced(s: System, i: nat)
    requires i < |s.replies| && CleanupInv(s) && Next(s, TakeReply(i)).Ok?
    ensures Balanced(s, TakeReply(i))
  {
    var s1 := OnReply(s.(replies := s.replies[..i] + s.replies[i + 1..]), s.replies[i]).value;
    assert SameCleanups(s, s1);
    DriveCleanups(s1);
  }

  lemma SemanticBalanced(s: System, step: Step)
    requires Enabled(s, step) && (step.StartOp? || step.FinishOp?) && Next(s, step).Ok? && CleanupInv(s)
    ensures Balanced(s, step)
  {
    assert SameCleanups(s, Next(s, step).value);
  }

  lemma AskBalanced(s: System, step: Step)
    requires Enabled(s, step) && IsAsk(step) && CleanupInv(s) && Next(s, step).Ok?
    ensures Balanced(s, step)
  {
    var s1 := Handled(s, step);
    assert Next(s, step) == Ok(Drive(s1)) && (!step.TakeCleanup? ==> SameCleanups(s, s1));
    DriveCleanups(s1);
  }

  lemma CleanupStep(s: System, step: Step)
    requires Enabled(s, step) && Next(s, step).Ok? && CleanupInv(s)
    ensures Balanced(s, step)
  {
    match step {
      case TakeReply(i) => ReplyBalanced(s, i);
      case TakeFs(i, invalid, swapLeft) => FsBalanced(s, i, invalid, swapLeft);
      case StartOp(_) => SemanticBalanced(s, step);
      case FinishOp(_, _) => SemanticBalanced(s, step);
      case _ => AskBalanced(s, step);
    }
  }

  function Count(which: seq<bool>): nat { if which == [] then 0 else Count(which[..|which| - 1]) + if which[|which| - 1] then 1 else 0 }

  /** The steps that left a swap file behind, and those that took a removal's answer. */
  ghost function Left(ss: seq<System>, steps: seq<Step>): seq<bool>
    requires Trace(ss, steps)
  {
    seq(|steps|, i requires 0 <= i < |steps| => assert Goes(ss[i], steps[i], ss[i + 1]); LeavesSwap(ss[i], steps[i]))
  }

  function Removed(steps: seq<Step>): seq<bool> { seq(|steps|, i requires 0 <= i < |steps| => steps[i].TakeCleanup?) }

  /** Every swap file left behind is removed once or still waits to be, and removals are not held back for nothing. */
  lemma {:induction false} EverySwapRemoved(ss: seq<System>, steps: seq<Step>, work: bool)
    requires Trace(ss, steps) && ss[0] == Initial(work)
    ensures CleanupInv(ss[|steps|])
    ensures Owed(ss[|steps|]) + Count(Removed(steps)) == Count(Left(ss, steps))
  {
    if steps != [] {
      var k := |steps| - 1;
      EverySwapRemoved(ss[..k + 1], steps[..k], work);
      assert Goes(ss[k], steps[k], ss[k + 1]);
      CleanupStep(ss[k], steps[k]);
      assert Left(ss, steps)[..k] == Left(ss[..k + 1], steps[..k]) && Removed(steps)[..k] == Removed(steps[..k]);
    }
  }
}
