/** What holds in every run of a whole daemon: epochs, tables and disk together. */
module JointResults {
  import opened Common
  import opened Crdt
  import opened Scans
  import opened Files
  import opened FileStore
  import opened Delivery
  import opened Replica
  import opened ReplicaSafety
  import opened Network
  import opened Projection
  import opened ProjectionSafety
  import opened Joint
  import opened JointSafety
  import opened JointRefines
  import E = Epochs
  import ES = EpochSafety
  import ER = EpochResults
  import EF = EpochFrames

  ghost predicate JointMove(env: Env, me: Me, j: Joint, step: JointStep, j': Joint) {
    JointEnabled(env, me, j, step) && JointNext(env, me, j, step) == Ok(j')
  }

  /** A run of a daemon from its installation, with the steps taken. */
  ghost predicate IsJointRun(env: Env, me: Me, js: seq<Joint>, steps: seq<JointStep>) {
    && |js| == |steps| + 1 && js[0] == NewDaemon()
    && forall i :: 0 <= i < |steps| ==> JointMove(env, me, js[i], steps[i], js[i + 1])
  }

  lemma {:induction false} JointRunInv(env: Env, me: Me, js: seq<Joint>, steps: seq<JointStep>, i: nat)
    requires IsJointRun(env, me, js, steps) && i < |js|
    ensures JInv(js[i])
  {
    if i == 0 {
      NewKeeps();
    } else {
      JointRunInv(env, me, js, steps, i - 1);
      assert JointMove(env, me, js[i - 1], steps[i - 1], js[(i - 1) + 1]);
      MoveKeeps(env, me, js[i - 1], steps[i - 1], js[i]);
    }
  }

  lemma MoveKeeps(env: Env, me: Me, j: Joint, step: JointStep, j': Joint)
    requires JInv(j) && JointMove(env, me, j, step, j')
    ensures JInv(j')
  {
    JointStepSafe(env, me, j, step);
  }

  /** The machine never panics: a step of a daemon fails only if its transaction does. */
  lemma OnlyTransactionsFail(env: Env, me: Me, js: seq<Joint>, steps: seq<JointStep>, i: nat, step: JointStep)
    requires IsJointRun(env, me, js, steps) && i < |js| && JointEnabled(env, me, js[i], step)
    ensures if step.Start? then JointNext(env, me, js[i], step).Fault? <==> TablesAfter(env, me, js[i], step.arg).Fault?
            else JointNext(env, me, js[i], step).Ok?
  {
    JointRunInv(env, me, js, steps, i);
    JointStepFaults(env, me, js[i], step);
  }

  // ---------------------------------------------------------------- refinement

  ghost predicate Behind(env: Env, me: Me, hs: seq<Host>, j: Joint) { IsHostRun(env, me, hs) && Shows(j, hs[|hs| - 1]) }

  /** Every run of the daemon is, in its tables and on its disk, a run of `Projection`. */
  lemma {:induction false} RunRefines(env: Env, me: Me, js: seq<Joint>, steps: seq<JointStep>, i: nat)
    requires IsJointRun(env, me, js, steps) && i < |js|
    ensures exists hs :: Behind(env, me, hs, js[i])
  {
    if i == 0 {
      var h := Host(Disk(map[], 1, 0), map[], Local(Tables(0, {}, map[], map[], {}, map[], map[], [], map[], map[]), Mode.Idle), {}, map[]);
      assert Behind(env, me, [h], js[0]);
    } else {
      RunRefines(env, me, js, steps, i - 1);
      var before :| Behind(env, me, before, js[i - 1]);
      JointRunInv(env, me, js, steps, i - 1);
      assert JointMove(env, me, js[i - 1], steps[i - 1], js[(i - 1) + 1]);
      StepRefines(env, me, before, js[i - 1], steps[i - 1], js[i]);
    }
  }

  lemma BehindNext(env: Env, me: Me, before: seq<Host>, step: Option<HostStep>, j': Joint)
    requires IsHostRun(env, me, before) && Matched(env, me, before[|before| - 1], step, j')
    ensures exists hs :: Behind(env, me, hs, j')
  {
    if step.Some? {
      RunGrows(env, me, before, step.value);
      assert Behind(env, me, before + [HostNext(env, me, before[|before| - 1], step.value).value], j');
    } else {
      assert Behind(env, me, before, j');
    }
  }

  lemma StepRefines(env: Env, me: Me, before: seq<Host>, j: Joint, step: JointStep, j': Joint)
    requires JInv(j) && JointMove(env, me, j, step, j') && Behind(env, me, before, j)
    ensures exists hs :: Behind(env, me, hs, j')
  {
    StepMatched(env, me, j, step, before[|before| - 1]);
    BehindNext(env, me, before, HostOf(j, step), j');
  }

  lemma RunGrows(env: Env, me: Me, hs: seq<Host>, step: HostStep)
    requires IsHostRun(env, me, hs) && HostEnabled(env, me, hs[|hs| - 1], step) && HostNext(env, me, hs[|hs| - 1], step).Ok?
    ensures IsHostRun(env, me, hs + [HostNext(env, me, hs[|hs| - 1], step).value])
  {
    var next := HostNext(env, me, hs[|hs| - 1], step).value;
    var hs' := hs + [next];
    forall i | 0 <= i < |hs'| - 1 ensures HostStepTo(env, me, hs'[i], hs'[i + 1]) {
      if i < |hs| - 1 { assert HostStepTo(env, me, hs[i], hs[i + 1]); }
    }
  }

  /** The guarantee of `ReplacesOnlyWhatPriorRecorded` for the whole daemon. */
  lemma DaemonReplacesOnlyItsOwn(env: Env, me: Me, js: seq<Joint>, steps: seq<JointStep>, i: nat, k: nat)
    requires IsJointRun(env, me, js, steps) && i < |js| && k < |js[i].sys.fs.pending| && !js[i].answered
    requires IsAction(js[i], js[i].sys.fs.pending[k])
    ensures var j := js[i]; var p := j.order[j.sys.fs.pending[k].id.num];
      var disk := Ran(env, j, k).disk; var prior := j.tables.priorTree;
      && (forall q :: q != p ==> (q in disk.files <==> q in j.disk.files) && (q in disk.files ==> disk.files[q] == j.disk.files[q]))
      && (disk != j.disk ==>
            if p in j.disk.files then IsLive(prior, p) && prior[p].finger == FingerOf(env.hash, j.disk.files[p])
            else !IsLive(prior, p) && p in disk.files)
  {
    var j := js[i];
    var p := j.order[j.sys.fs.pending[k].id.num];
    RunRefines(env, me, js, steps, i);
    var hs :| Behind(env, me, hs, js[i]);
    JointRunInv(env, me, js, steps, i);
    RanMatched(env, me, j, k, hs[|hs| - 1]);
    ReplacesOnlyWhatPriorRecorded(env, me, hs, |hs| - 1, p);
  }

  // ---------------------------------------------------------------- prior moves only after success

  predicate SamePrior(t: Tables, u: Tables) {
    u.priorNs == t.priorNs && u.priorText == t.priorText && u.priorTree == t.priorTree
  }

  /**
   * While a projection is open prior moves only by its commit, and that comes only after every
   * planned action has ended on disk and none was refused.
   */
  lemma PriorMovesOnSuccess(env: Env, me: Me, js: seq<Joint>, steps: seq<JointStep>, i: nat)
    requires IsJointRun(env, me, js, steps) && i < |steps|
    requires ModeOf(js[i]).Projecting? && !SamePrior(js[i].tables, js[i + 1].tables)
    ensures steps[i].Start? && js[i].sys.actor.lane != [] && js[i].sys.actor.lane[0].CommitEpoch? && js[i].sys.actor.lane[0].exhausted
    ensures Succeeded(js[i].done, js[i].plan, FingersOf(js[i].plan, js[i].done))
    ensures forall p :: p in js[i].plan ==> p in js[i].done && !js[i].done[p].Refused?
    ensures js[i + 1].tables.priorNs == js[i].target
  {
    RunRefines(env, me, js, steps, i);
    var hs :| Behind(env, me, hs, js[i]);
    var h := hs[|hs| - 1];
    JointRunInv(env, me, js, steps, i);
    assert JointMove(env, me, js[i], steps[i], js[i + 1]);
    StepMatched(env, me, js[i], steps[i], h);
    ProjectingMoves(env, me, js[i], steps[i], h, js[i + 1]);
  }

  /** What the transactions of an open projection do to prior. */
  lemma HostPrior(env: Env, me: Me, h: Host, step: HostStep)
    requires HostEnabled(env, me, h, step) && HostNext(env, me, h, step).Ok? && h.local.mode.Projecting?
    ensures var t := HostNext(env, me, h, step).value.local.tables;
      if step.Db? && step.step.CommitProjectionEpoch? then
        Succeeded(h.done, h.local.mode.plan, step.step.fingers) && t.priorNs == h.local.mode.target
      else SamePrior(h.local.tables, t)
  {
    if step.Db? && step.step.CommitProjectionEpoch? {
      KeepsTarget(h.local.tables.(priorNs := h.local.mode.target), h.local.mode.plan, step.step.order, step.step.fingers, step.step.now);
    }
  }

  lemma ProjectingMoves(env: Env, me: Me, j: Joint, step: JointStep, h: Host, j': Joint)
    requires Shows(j, h) && ModeOf(j).Projecting? && Matched(env, me, h, HostOf(j, step), j') && !SamePrior(j.tables, j'.tables)
    ensures step.Start? && j.sys.actor.lane != [] && j.sys.actor.lane[0].CommitEpoch? && j.sys.actor.lane[0].exhausted
    ensures Succeeded(j.done, j.plan, FingersOf(j.plan, j.done)) && j'.tables.priorNs == j.target
  {
    HostPrior(env, me, h, HostOf(j, step).value);
    CommitStep(j, step);
  }

  /** The commit of a projection on the host is the commit of an exhausted plan in the machine. */
  lemma CommitStep(j: Joint, step: JointStep)
    requires var hs := HostOf(j, step); hs.Some? && hs.value.Db? && hs.value.step.CommitProjectionEpoch?
    ensures step.Start? && j.sys.actor.lane != [] && j.sys.actor.lane[0].CommitEpoch? && j.sys.actor.lane[0].exhausted
    ensures HostOf(j, step).value.step.fingers == FingersOf(j.plan, j.done)
  {
  }

  lemma {:induction false} KeepsTarget(t: Tables, plan: Plan, ps: seq<Path>, fingers: map<Path, Fingerprint>, now: int)
    requires forall p :: p in ps ==> p in plan && p in fingers
    ensures CommitActions(t, plan, ps, fingers, now).priorNs == t.priorNs
  {
    if ps != [] { KeepsTarget(t, plan, ps[..|ps| - 1], fingers, now); }
  }

  // ---------------------------------------------------------------- refused actions

  /** An action of the projection under way was refused. */
  predicate Refusing(j: Joint) { EF.Busy(j.sys.phase) && j.sys.phase.kind.Projection? && AnyRefused(j.done) }

  /** The full scan that follows is with the file system. */
  predicate FullScanOut(j: Joint) { j.sys.phase.Scanning? && j.sys.fs.pending == [E.Scan(Full)] }

  /** No further operation can be executed, and the pending scan is full once the refusal has been heard of. */
  lemma RefusedStops(j: Joint)
    requires JInv(j) && Refusing(j)
    ensures j.answered || j.sys.fs.pending == []
    ensures j.sys.phase.Committing? ==> j.sys.pendingScan == Some(Full)
    ensures j.sys.phase.Dispatching? ==> j.sys.fs.pending != [] && Invalidates(j, j.sys.fs.pending[0])
  {
    if j.sys.phase.Committing? { ER.NothingOut(j.sys); }
  }

  lemma RefusedTaken(s: E.System, i: nat, swapLeft: bool)
    requires ES.Inv(s) && EF.Busy(s.phase) && s.phase.kind.Projection? && i < |s.fs.pending|
    ensures i == 0
    ensures var o := E.Next(s, E.TakeFs(i, true, swapLeft));
      o.Ok? && EF.Busy(o.value.phase) && o.value.phase.kind.Projection?
  {
    InDispatch(s);
    ER.RefusalDiscards(s, i, swapLeft);
  }

  lemma RefusedReplied(j: Joint, i: nat)
    requires JInv(j) && Refusing(j) && i < |j.sys.replies|
    ensures var o := E.Next(j.sys, E.TakeReply(i));
      && o.Ok?
      && ((EF.Busy(o.value.phase) && o.value.phase.kind.Projection?) || (o.value.phase.Scanning? && o.value.fs.pending == [E.Scan(Full)]))
  {
    RefusedStops(j);
    if ES.IsCoreReply(j.sys.replies[i]) {
      if j.sys.phase.Dispatching? { EF.NoTurn(j.sys, i); } else { EF.CloseTurn(j.sys, i); }
    } else {
      EF.ReplyAside(j.sys, i);
    }
  }

  lemma InDispatch(s: E.System)
    requires ES.Inv(s) && s.fs.pending != [] && EF.Busy(s.phase)
    ensures |s.fs.pending| == 1 && s.phase.Dispatching? && s.fs.pending[0].Perform? && s.fs.pending[0].kind == s.phase.kind
  {
    if s.phase.Committing? { ER.NothingOut(s); }
  }

  lemma RefusedStarts(env: Env, me: Me, j: Joint, arg: Arg)
    requires JInv(j) && Refusing(j) && j.sys.actor.lane != [] && j.sys.actor.running == [] && ArgOk(env, me, j, arg)
    requires Started(env, me, j, arg).Ok?
    ensures Refusing(Started(env, me, j, arg).value)
  {
    EF.HeadInTurn(j.sys);
    StartShape(env, me, j, arg);
    EF.StartFrame(j.sys, E.Effect(Announced(me.origin, arg.batch), Works(Started(env, me, j, arg).value.tables)));
  }

  /** A refusal is not forgotten: short of a crash, whatever happens the epoch goes on being discarded until the full scan is sent. */
  lemma RefusedHolds(env: Env, me: Me, j: Joint, step: JointStep)
    requires JInv(j) && Refusing(j) && JointEnabled(env, me, j, step) && JointNext(env, me, j, step).Ok? && !step.Crash?
    ensures var j' := JointNext(env, me, j, step).value; Refusing(j') || FullScanOut(j')
    ensures !step.FsRun?
  {
    RefusedStops(j);
    match step {
      case User(_) =>
      case Ask(s) => EF.AskBusy(j.sys, s);
      case FsRun(i) =>
      case Start(arg) => RefusedStarts(env, me, j, arg);
        StartShape(env, me, j, arg);
      case Finish(i) => FinishEnabled(j, i);
        EF.FinishFrame(j.sys, PlannedIds(j));
      case TakeFs(i, swapLeft) => RefusedTaken(j.sys, i, swapLeft);
      case TakeReply(i) => RefusedReplied(j, i);
    }
  }

  /** What the lane can hold next: marks of writes done, the discarding commit, batches and chores. */
  lemma RefusedHead(j: Joint)
    requires JInv(j) && Refusing(j) && j.sys.actor.lane != [] && j.sys.actor.running == []
    ensures match j.sys.actor.lane[0]
      case CommitAction(kind, _) => kind.Projection?
      case CommitEpoch(kind, _, exhausted) => kind.Projection? && !exhausted
      case ApplyBatch => true
      case Chore => true
      case _ => false
  {
    EF.HeadInTurn(j.sys);
    if j.sys.actor.lane[0].CommitEpoch? { CommitIs(j); }
    if j.sys.actor.lane[0].CommitAction? { EF.HeadKind(j.sys); }
  }

  /** None of them moves prior. */
  lemma HeadKeepsPrior(env: Env, me: Me, j: Joint, arg: Arg)
    requires j.sys.actor.lane != [] && ArgOk(env, me, j, arg) && TablesAfter(env, me, j, arg).Ok?
    requires var r := j.sys.actor.lane[0];
      (r.CommitAction? && r.kind.Projection?) || (r.CommitEpoch? && r.kind.Projection? && !r.exhausted) || r.ApplyBatch? || r.Chore?
    ensures SamePrior(j.tables, TablesAfter(env, me, j, arg).value)
  {
  }

  /** Neither they nor anything else moves prior, short of a crash or not. */
  lemma RefusedKeepsPrior(env: Env, me: Me, j: Joint, step: JointStep)
    requires JInv(j) && Refusing(j) && JointEnabled(env, me, j, step) && JointNext(env, me, j, step).Ok?
    ensures SamePrior(j.tables, JointNext(env, me, j, step).value.tables)
  {
    if step.Start? {
      RefusedHead(j);
      StartShape(env, me, j, step.arg);
      HeadKeepsPrior(env, me, j, step.arg);
    } else {
      OthersKeepTables(env, me, j, step);
    }
  }

  lemma OthersKeepTables(env: Env, me: Me, j: Joint, step: JointStep)
    requires JointEnabled(env, me, j, step) && JointNext(env, me, j, step).Ok? && !step.Start?
    ensures SamePrior(j.tables, JointNext(env, me, j, step).value.tables)
  {
    if step.FsRun? { RanFrame(env, j, step.i); }
  }

  ghost predicate Uncrashed(steps: seq<JointStep>, i: nat, k: nat) {
    forall m :: i <= m < k && m < |steps| ==> !steps[m].Crash?
  }

  /** From `i` to `k` no table of prior has changed and no file operation was executed. */
  predicate Held(js: seq<Joint>, steps: seq<JointStep>, i: nat, k: nat)
    requires i <= k < |js|
  {
    SamePrior(js[i].tables, js[k].tables) && forall m :: i <= m < k && m < |steps| ==> !steps[m].FsRun?
  }

  /** The refusal is on record and prior has been left alone. */
  predicate StillRefusing(js: seq<Joint>, steps: seq<JointStep>, i: nat, k: nat)
    requires i <= k < |js|
  {
    && Refusing(js[k]) && Held(js, steps, i, k)
    && (js[k].sys.phase.Committing? ==> js[k].sys.pendingScan == Some(Full))
  }

  /** One step of it. */
  predicate RefusedTurn(j: Joint, step: JointStep, j': Joint) {
    && SamePrior(j.tables, j'.tables) && !step.FsRun?
    && (FullScanOut(j') || (Refusing(j') && (j'.sys.phase.Committing? ==> j'.sys.pendingScan == Some(Full))))
  }

  lemma RefusedStep(env: Env, me: Me, j: Joint, step: JointStep, j': Joint)
    requires JInv(j) && JInv(j') && Refusing(j) && JointMove(env, me, j, step, j') && !step.Crash?
    ensures RefusedTurn(j, step, j')
  {
    RefusedHolds(env, me, j, step);
    RefusedKeepsPrior(env, me, j, step);
    if Refusing(j') { RefusedStops(j'); }
  }

  lemma RefusedAt(env: Env, me: Me, js: seq<Joint>, steps: seq<JointStep>, k: nat)
    requires IsJointRun(env, me, js, steps) && k < |steps| && Refusing(js[k]) && !steps[k].Crash?
    ensures RefusedTurn(js[k], steps[k], js[k + 1])
  {
    JointRunInv(env, me, js, steps, k);
    JointRunInv(env, me, js, steps, k + 1);
    RefusedStep(env, me, js[k], steps[k], js[k + 1]);
  }

  /** The books of a refusal are carried on by each such step. */
  lemma RefusedOn(js: seq<Joint>, steps: seq<JointStep>, i: nat, k: nat)
    requires |js| == |steps| + 1 && i <= k < |steps| && StillRefusing(js, steps, i, k) && RefusedTurn(js[k], steps[k], js[k + 1])
    ensures StillRefusing(js, steps, i, k + 1) || (FullScanOut(js[k + 1]) && Held(js, steps, i, k + 1))
  {
    HeldOn(js, steps, i, k);
  }

  lemma HeldOn(js: seq<Joint>, steps: seq<JointStep>, i: nat, k: nat)
    requires |js| == |steps| + 1 && i <= k < |steps| && Held(js, steps, i, k) && SamePrior(js[k].tables, js[k + 1].tables) && !steps[k].FsRun?
    ensures Held(js, steps, i, k + 1)
  {
  }

  lemma RefusedFirst(env: Env, me: Me, js: seq<Joint>, steps: seq<JointStep>, i: nat)
    requires IsJointRun(env, me, js, steps) && i < |js| && Refusing(js[i])
    ensures StillRefusing(js, steps, i, i)
  {
    JointRunInv(env, me, js, steps, i);
    RefusedStops(js[i]);
  }

  /** Every step from a refusing state in the stretch is such a step. */
  predicate Turns(js: seq<Joint>, steps: seq<JointStep>, i: nat, k: nat)
    requires |js| == |steps| + 1
  {
    forall m :: i <= m < k && m < |steps| && Refusing(js[m]) ==> RefusedTurn(js[m], steps[m], js[m + 1])
  }

  ghost predicate ScannedBy(js: seq<Joint>, steps: seq<JointStep>, i: nat, k: nat)
    requires k < |js|
  {
    exists m :: i < m <= k && FullScanOut(js[m]) && Held(js, steps, i, m)
  }

  lemma {:induction false} RefusedCarries(js: seq<Joint>, steps: seq<JointStep>, i: nat, k: nat)
    requires |js| == |steps| + 1 && i <= k < |js| && Turns(js, steps, i, k) && StillRefusing(js, steps, i, i)
    ensures StillRefusing(js, steps, i, k) || ScannedBy(js, steps, i, k)
  {
    if i < k {
      RefusedCarries(js, steps, i, k - 1);
      if StillRefusing(js, steps, i, k - 1) { RefusedOn(js, steps, i, k - 1); }
    }
  }

  /**
   * Any outcome but success leaves prior unadvanced: from a refusal on, unless the daemon
   * crashes, no table of prior changes and no further file operation is executed, and once the
   * refusal has been heard of a full scan is pending, until that scan, which starts the next
   * import, is with the file system.
   */
  lemma RefusedThenFullScan(env: Env, me: Me, js: seq<Joint>, steps: seq<JointStep>, i: nat, k: nat)
    requires IsJointRun(env, me, js, steps) && i <= k < |js| && Refusing(js[i]) && Uncrashed(steps, i, k)
    ensures StillRefusing(js, steps, i, k) || ScannedBy(js, steps, i, k)
  {
    RefusedFirst(env, me, js, steps, i);
    forall m | i <= m < k && m < |steps| && Refusing(js[m]) ensures RefusedTurn(js[m], steps[m], js[m + 1]) {
      RefusedAt(env, me, js, steps, m);
    }
    RefusedCarries(js, steps, i, k);
  }

  lemma RefusedResult(env: Env, j: Joint, i: nat)
    requires i < |j.sys.fs.pending| && IsAction(j, j.sys.fs.pending[i]) && !IsRead(j, j.sys.fs.pending[i])
    ensures var j' := Ran(env, j, i); var p := j.order[j.sys.fs.pending[i].id.num];
      && j'.tables == j.tables && j'.sys == j.sys && p in j'.done
      && j'.done[p] == PerformOn(env, j.disk, p, j.plan[p]).1 && (j'.done[p].Refused? ==> j'.disk == j.disk)
  {
  }

  /** A refusal makes the state refusing, and leaves the disk and the tables as they were. */
  lemma RefusalLeavesEverything(env: Env, j: Joint, i: nat)
    requires JInv(j) && i < |j.sys.fs.pending| && !j.answered && IsAction(j, j.sys.fs.pending[i])
    ensures var j' := Ran(env, j, i); var p := j.order[j.sys.fs.pending[i].id.num];
      && p in j'.done && j'.done[p] == PerformOn(env, j.disk, p, j.plan[p]).1
      && (j'.done[p].Refused? ==> Refusing(j') && j'.disk == j.disk && j'.tables == j.tables)
  {
    InRange(j, i);
    RefusedResult(env, j, i);
  }

  // ---------------------------------------------------------------- wake-ups

  /**
   * No lost wake-up: when the engine is idle and the prior/stable pair calls for a projection,
   * an event is queued or the batch that will send it is running; and no scan is pending.
   */
  lemma NeverIdleOnWork(env: Env, me: Me, js: seq<Joint>, steps: seq<JointStep>, i: nat)
    requires IsJointRun(env, me, js, steps) && i < |js| && js[i].sys.phase.Idle?
    ensures js[i].sys.pendingScan.None?
    ensures PlanOf(js[i].tables) != map[] ==>
      js[i].sys.events > 0 || (js[i].sys.actor.running != [] && js[i].sys.actor.running[0].op == E.Batch(true))
  {
    JointRunInv(env, me, js, steps, i);
  }
}
