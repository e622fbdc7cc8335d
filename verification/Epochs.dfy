/**
 * The engine's phase machine (engine/actor.rs), the semantic actor's request lane and epoch
 * ledger (semantic/actor.rs) and the file-system client (fs/client.rs), joined by mailboxes.
 * Imports and projections run through the same machinery and are told apart by `Kind`.
 * A handler that would hit a panic, assert, expect or bail is a `Fault`.
 */
module Epochs {
  import opened Common
  import opened Scans

  const MAX_CLEANUP_IN_FLIGHT := 16

  datatype Kind = Import | Projection

  datatype ActionId = ActionId(epoch: nat, num: nat)

  /** An epoch as the semantic service starts it. */
  datatype Started = Started(epoch: nat, actions: seq<ActionId>)

  // ---------------------------------------------------------------- engine state

  datatype Phase =
    | Idle
    | AwaitingNextWork(boundary: nat, dirty: bool)
    | Scanning
    | PlanningImport
    | Dispatching(kind: Kind, epoch: nat, queue: seq<ActionId>, inFlight: set<ActionId>)
    | Draining(epoch: nat, inFlight: set<ActionId>)      // an invalidated projection
    | Committing(kind: Kind, epoch: nat)

  datatype FsTask = Scan(scope: Scope) | Perform(kind: Kind, id: ActionId)

  /** `pending` are tasks whose answers have not been taken; the counters are the client's own. */
  datatype Fs = Fs(pending: seq<FsTask>, phaseInflight: nat, cleanups: nat, cleanupInflight: nat)

  // ---------------------------------------------------------------- semantic actor state

  /** `exhausted` is false for an epoch that ends because an action invalidated it. */
  datatype Request =
    | ApplyScan
    | CommitAction(kind: Kind, id: ActionId)
    | CommitEpoch(kind: Kind, epoch: nat, exhausted: bool)
    | GetNextWork(boundary: nat)
    | ApplyBatch
    | Chore                                             // outbox reads, releases, trims, cursor reads

  /** A request being executed; the epoch of a plan is reserved when its request starts. */
  datatype Op =
    | Plan(epoch: nat)
    | Stage(kind: Kind, id: ActionId)
    | Close(kind: Kind, epoch: nat)
    | NextWork(epoch: nat, boundary: nat, work: bool)
    | Batch(changed: bool)
    | Other

  datatype Task = Task(opId: nat, op: Op)

  datatype Active = Active(epoch: nat, expected: set<ActionId>, completed: set<ActionId>)

  /** `SemanticRuntimeState`. */
  datatype Ledger = Ledger(next: map<Kind, nat>, active: map<Kind, Active>)

  datatype Deferred = Deferred(epoch: nat, exhausted: bool)

  datatype Actor = Actor(
    lane: seq<Request>,
    ledger: Ledger,
    nextOp: nat,
    pendingOps: map<nat, Op>,
    running: seq<Task>,
    deferred: map<Kind, Deferred>)

  datatype Reply =
    | ScanPlanned(plan: Option<Started>)
    | EpochClosed(kind: Kind)
    | NextWorkIs(boundary: nat, plan: Option<Started>)
    | BatchDone
    | ChoreDone

  /**
   * The whole system. `work` says whether the prior and stable tables currently call for a
   * projection; `events` counts queued ProjectionChanged events; `history` collects, for the
   * current epoch, the actions dispatched.
   */
  datatype System = System(
    phase: Phase, boundaries: nat, pendingScan: Option<Scope>,
    fs: Fs, cleanupQueue: nat,
    actor: Actor, replies: seq<Reply>, events: nat, work: bool,
    history: set<ActionId>)

  // ---------------------------------------------------------------- engine handlers

  function Send(s: System, r: Request): System { s.(actor := s.actor.(lane := s.actor.lane + [r])) }

  function FsSend(s: System, t: FsTask): System {
    s.(fs := s.fs.(pending := s.fs.pending + [t], phaseInflight := s.fs.phaseInflight + 1))
  }

  function EnterBoundary(s: System): System {
    if s.pendingScan.Some? then FsSend(s.(pendingScan := None, phase := Scanning), Scan(s.pendingScan.value))
    else
      var b := s.boundaries + 1;
      Send(s.(boundaries := b, phase := AwaitingNextWork(b, false)), GetNextWork(b))
  }

  function RequestScan(s: System, scope: Scope): System {
    var s1 := s.(pendingScan := Remember(s.pendingScan, scope));
    if s.phase.Idle? then EnterBoundary(s1) else s1
  }

  /** The dispatch loop of `drive_phase`: one action at a time, as long as the client accepts. */
  function Dispatch(s: System): System
    decreases if s.phase.Dispatching? then |s.phase.queue| else 0
  {
    if s.phase.Dispatching? && s.fs.phaseInflight == 0 && s.phase.queue != [] then
      var id := s.phase.queue[0];
      Dispatch(FsSend(s.(phase := s.phase.(queue := s.phase.queue[1..], inFlight := s.phase.inFlight + {id}),
                         history := s.history + {id}),
                      Perform(s.phase.kind, id)))
    else s
  }

  /** The commit half of `drive_phase`. */
  function RequestCommit(s: System): System {
    match s.phase
    case Dispatching(kind, epoch, queue, inFlight) =>
      if queue == [] && inFlight == {}
      then Send(s.(phase := Committing(kind, epoch)), CommitEpoch(kind, epoch, true)) else s
    case Draining(epoch, inFlight) =>
      if inFlight == {}
      then Send(s.(phase := Committing(Projection, epoch)), CommitEpoch(Projection, epoch, false)) else s
    case _ => s
  }

  /** `drive_cleanup`. */
  function Cleanup(s: System): System {
    var room := if s.fs.cleanupInflight < MAX_CLEANUP_IN_FLIGHT then MAX_CLEANUP_IN_FLIGHT - s.fs.cleanupInflight else 0;
    var n := if s.cleanupQueue < room then s.cleanupQueue else room;
    s.(cleanupQueue := s.cleanupQueue - n,
       fs := s.fs.(cleanups := s.fs.cleanups + n, cleanupInflight := s.fs.cleanupInflight + n))
  }

  /** The top of the engine loop. */
  function Drive(s: System): System { RequestCommit(Dispatch(Cleanup(s))) }

  function OnProjectionChanged(s: System): System {
    match s.phase
    case Idle => EnterBoundary(s)
    case AwaitingNextWork(b, _) => s.(phase := AwaitingNextWork(b, true))
    case _ => s
  }

  function Begin(s: System, kind: Kind, started: Started): System {
    s.(phase := Dispatching(kind, started.epoch, started.actions, {}), history := {})
  }

  function OnReply(s: System, r: Reply): Outcome<System> {
    match r
    case ScanPlanned(plan) =>
      if !s.phase.PlanningImport? then Fault
      else if plan.Some? then Ok(Begin(s, Import, plan.value)) else Ok(EnterBoundary(s))
    case EpochClosed(kind) =>
      if !(s.phase.Committing? && s.phase.kind == kind) then Fault else Ok(EnterBoundary(s))
    case NextWorkIs(boundary, plan) =>
      if !s.phase.AwaitingNextWork? then Fault
      else if boundary != s.phase.boundary then Fault
      else if plan.Some? then Ok(Begin(s, Projection, plan.value))
      else if s.phase.dirty || s.pendingScan.Some? then Ok(EnterBoundary(s))
      else Ok(s.(phase := Idle))
    case BatchDone => Ok(s)
    case ChoreDone => Ok(s)
  }

  /** An action's answer; `invalid` is `invalidates_import` or `invalidates_projection`. */
  function OnPerformed(s: System, kind: Kind, id: ActionId, invalid: bool, swapLeft: bool): Outcome<System> {
    match s.phase
    case Dispatching(k, epoch, queue, inFlight) =>
      if k != kind || id.epoch != epoch || id !in inFlight then Fault
      else
        var phase := if kind.Projection? && invalid then Draining(epoch, inFlight - {id})
                     else Dispatching(k, epoch, queue, inFlight - {id});
        Ok(AfterPerformed(s.(phase := phase), kind, id, invalid, swapLeft))
    case Draining(epoch, inFlight) =>
      if kind.Import? || id.epoch != epoch || id !in inFlight then Fault
      else Ok(AfterPerformed(s.(phase := Draining(epoch, inFlight - {id})), kind, id, invalid, swapLeft))
    case _ => Fault
  }

  function AfterPerformed(s: System, kind: Kind, id: ActionId, invalid: bool, swapLeft: bool): System {
    var s1 := if kind.Projection? && swapLeft then s.(cleanupQueue := s.cleanupQueue + 1) else s;
    Send(if invalid then RequestScan(s1, Full) else s1, CommitAction(kind, id))
  }

  /** A file-system answer; the client's counter must not underflow. */
  function OnFs(s: System, i: nat, invalid: bool, swapLeft: bool): Outcome<System>
    requires i < |s.fs.pending|
  {
    if s.fs.phaseInflight == 0 then Fault
    else
      var s1 := s.(fs := s.fs.(pending := s.fs.pending[..i] + s.fs.pending[i + 1..], phaseInflight := s.fs.phaseInflight - 1));
      match s.fs.pending[i]
      case Scan(_) => if !s.phase.Scanning? then Fault else Ok(Send(s1.(phase := PlanningImport), ApplyScan))
      case Perform(kind, id) => OnPerformed(s1, kind, id, invalid, swapLeft)
  }

  function OnCleanup(s: System): Outcome<System>
    requires s.fs.cleanups > 0
  {
    if s.fs.cleanupInflight == 0 then Fault
    else Ok(s.(fs := s.fs.(cleanups := s.fs.cleanups - 1, cleanupInflight := s.fs.cleanupInflight - 1)))
  }

  // ---------------------------------------------------------------- the epoch ledger

  function NextEpoch(l: Ledger, kind: Kind): nat { if kind in l.next then l.next[kind] else 0 }

  function Reserve(l: Ledger, kind: Kind): Outcome<Ledger> {
    if kind in l.active then Fault else Ok(l.(next := l.next[kind := NextEpoch(l, kind) + 1]))
  }

  /** Every action belongs to the epoch and no id is repeated. */
  predicate WellFormed(st: Started) {
    && (forall i :: 0 <= i < |st.actions| ==> st.actions[i].epoch == st.epoch)
    && (forall i, j :: 0 <= i < j < |st.actions| ==> st.actions[i] != st.actions[j])
  }

  function IdSet(ids: seq<ActionId>): set<ActionId> { set id | id in ids }

  function Install(l: Ledger, kind: Kind, st: Started): Outcome<Ledger> {
    if kind in l.active || !WellFormed(st) then Fault
    else Ok(l.(active := l.active[kind := Active(st.epoch, IdSet(st.actions), {})]))
  }

  /** The checks shared by `validate_*_action` and `finish_*_action`. */
  predicate Admissible(l: Ledger, kind: Kind, id: ActionId) {
    && kind in l.active && l.active[kind].epoch == id.epoch
    && id in l.active[kind].expected && id !in l.active[kind].completed
  }

  function Complete(l: Ledger, kind: Kind, id: ActionId): Outcome<Ledger> {
    if !Admissible(l, kind, id) then Fault
    else Ok(l.(active := l.active[kind := l.active[kind].(completed := l.active[kind].completed + {id})]))
  }

  predicate IsActive(l: Ledger, kind: Kind, epoch: nat) { kind in l.active && l.active[kind].epoch == epoch }

  predicate AllCompleted(l: Ledger, kind: Kind)
    requires kind in l.active
  {
    |l.active[kind].completed| == |l.active[kind].expected|
  }

  /** `finish_*_epoch`: an exhausted epoch must be complete; every expected action is then found completed. */
  function Finish(l: Ledger, kind: Kind, epoch: nat, exhausted: bool): Outcome<Ledger> {
    if !IsActive(l, kind, epoch) then Fault
    else if exhausted && (!AllCompleted(l, kind) || !(l.active[kind].expected <= l.active[kind].completed)) then Fault
    else Ok(l.(active := l.active - {kind}))
  }

  // ---------------------------------------------------------------- the request lane

  function Push(a: Actor, op: Op): Actor {
    a.(nextOp := a.nextOp + 1, pendingOps := a.pendingOps[a.nextOp := op], running := a.running + [Task(a.nextOp, op)])
  }

  predicate ActionCommitPending(a: Actor) {
    exists i :: i in a.pendingOps && a.pendingOps[i].Stage? && a.pendingOps[i].kind.Projection?
  }

  /** Whether an epoch commit may start now or must be deferred. */
  predicate ReadyToCommit(a: Actor, kind: Kind, exhausted: bool)
    requires kind in a.ledger.active
  {
    if kind.Import? then AllCompleted(a.ledger, kind)
    else !ActionCommitPending(a) && (exhausted ==> AllCompleted(a.ledger, kind))
  }

  function StartClose(a: Actor, kind: Kind, epoch: nat, exhausted: bool): Outcome<Actor> {
    match Finish(a.ledger, kind, epoch, exhausted)
    case Fault => Fault
    case Ok(l) => Ok(Push(a.(ledger := l), Close(kind, epoch)))
  }

  /** What running the transaction does to the tables: whether they now call for a projection. */
  datatype Effect = Effect(changed: bool, work: bool)

  /** The semantic actor takes a request; only when nothing is running. */
  function StartRequest(s: System, effect: Effect): Outcome<System>
    requires s.actor.lane != []
  {
    var a := s.actor.(lane := s.actor.lane[1..]);
    match s.actor.lane[0]
    case ApplyScan =>
      (match Reserve(a.ledger, Import)
       case Fault => Fault
       case Ok(l) => Ok(s.(actor := Push(a.(ledger := l), Plan(NextEpoch(a.ledger, Import))), work := effect.work)))
    case CommitAction(kind, id) =>
      if !Admissible(a.ledger, kind, id) then Fault
      else Ok(s.(actor := Push(a, Stage(kind, id)), work := effect.work))
    case CommitEpoch(kind, epoch, exhausted) =>
      if !IsActive(a.ledger, kind, epoch) || kind in a.deferred then Fault
      else if ReadyToCommit(a, kind, exhausted) then
        (match StartClose(a, kind, epoch, exhausted)
         case Fault => Fault
         case Ok(a1) => Ok(s.(actor := a1, work := effect.work)))
      else Ok(s.(actor := a.(deferred := a.deferred[kind := Deferred(epoch, exhausted)])))
    case GetNextWork(boundary) =>
      (match Reserve(a.ledger, Projection)
       case Fault => Fault
       case Ok(l) => Ok(s.(actor := Push(a.(ledger := l), NextWork(NextEpoch(a.ledger, Projection), boundary, s.work)))))
    case ApplyBatch =>
      Ok(s.(actor := Push(a, Batch(effect.changed)), work := if effect.changed then effect.work else s.work))
    case Chore => Ok(s.(actor := Push(a, Other)))
  }

  /** A deferred epoch commit whose actions have all been committed starts now. */
  function StartDeferred(a: Actor, kind: Kind): Outcome<Actor> {
    if kind !in a.deferred then Ok(a)
    else if !IsActive(a.ledger, kind, a.deferred[kind].epoch) then Fault
    else if !ReadyToCommit(a, kind, a.deferred[kind].exhausted) then Ok(a)
    else StartClose(a.(deferred := a.deferred - {kind}), kind, a.deferred[kind].epoch, a.deferred[kind].exhausted)
  }

  /** The running transaction finishes; `actions` is the plan it produced, if it is one that plans. */
  function FinishTask(s: System, i: nat, actions: seq<ActionId>): Outcome<System>
    requires i < |s.actor.running|
  {
    var t := s.actor.running[i];
    var a0 := s.actor.(running := s.actor.running[..i] + s.actor.running[i + 1..]);
    if t.opId !in a0.pendingOps || a0.pendingOps[t.opId] != t.op then Fault
    else
      var a := a0.(pendingOps := a0.pendingOps - {t.opId});
      match t.op
      case Plan(epoch) =>
        if actions == [] then Ok(s.(actor := a, replies := s.replies + [ScanPlanned(None)]))
        else Planned(s, a, Import, Started(epoch, actions), ScanPlanned(Some(Started(epoch, actions))))
      case NextWork(epoch, boundary, work) =>
        if !work then Ok(s.(actor := a, replies := s.replies + [NextWorkIs(boundary, None)]))
        else Planned(s, a, Projection, Started(epoch, actions), NextWorkIs(boundary, Some(Started(epoch, actions))))
      case Stage(kind, id) =>
        (match Complete(a.ledger, kind, id)
         case Fault => Fault
         case Ok(l) =>
           match StartDeferred(a.(ledger := l), kind)
           case Fault => Fault
           case Ok(a1) => Ok(s.(actor := a1)))
      case Close(kind, _) => Ok(s.(actor := a, replies := s.replies + [EpochClosed(kind)]))
      case Batch(changed) =>
        Ok(s.(actor := a, replies := s.replies + [BatchDone], events := s.events + if changed then 1 else 0))
      case Other => Ok(s.(actor := a, replies := s.replies + [ChoreDone]))
  }

  function Planned(s: System, a: Actor, kind: Kind, st: Started, reply: Reply): Outcome<System> {
    match Install(a.ledger, kind, st)
    case Fault => Fault
    case Ok(l) => Ok(s.(actor := a.(ledger := l), replies := s.replies + [reply]))
  }

  // ---------------------------------------------------------------- steps

  datatype Step =
    | AskScan(scope: Scope)                       // a watcher event, the full-scan timer or a command
    | AskBatch | AskChore
    | TakeEvent
    | TakeReply(i: nat)                           // replies are polled in any order
    | TakeFs(i: nat, invalid: bool, swapLeft: bool)
    | TakeCleanup
    | StartOp(effect: Effect)
    | FinishOp(i: nat, actions: seq<ActionId>)

  /** Ids are numbered within their epoch, as `apply_scan` and `get_next_work` number them. */
  predicate PlanOf(epoch: nat, actions: seq<ActionId>) {
    forall i :: 0 <= i < |actions| ==> actions[i] == ActionId(epoch, i)
  }

  predicate Enabled(s: System, step: Step) {
    match step
    case AskScan(_) => true
    case AskBatch => true
    case AskChore => true
    case TakeEvent => s.events > 0
    case TakeReply(i) => i < |s.replies|
    case TakeFs(i, _, _) => i < |s.fs.pending|
    case TakeCleanup => s.fs.cleanups > 0
    case StartOp(_) => s.actor.lane != [] && s.actor.running == []
    case FinishOp(i, actions) =>
      && i < |s.actor.running|
      && (s.actor.running[i].op.Plan? || s.actor.running[i].op.NextWork? ==> PlanOf(s.actor.running[i].op.epoch, actions))
      && (s.actor.running[i].op.NextWork? ==> (s.actor.running[i].op.work <==> actions != []))
  }

  /** An engine step runs a handler and goes round the loop; a semantic step leaves the engine alone. */
  function Next(s: System, step: Step): Outcome<System>
    requires Enabled(s, step)
  {
    match step
    case AskScan(scope) => Ok(Drive(RequestScan(s, scope)))
    case AskBatch => Ok(Drive(Send(s, ApplyBatch)))
    case AskChore => Ok(Drive(Send(s, Chore)))
    case TakeEvent => Ok(Drive(OnProjectionChanged(s.(events := s.events - 1))))
    case TakeReply(i) =>
      (match OnReply(s.(replies := s.replies[..i] + s.replies[i + 1..]), s.replies[i])
       case Fault => Fault
       case Ok(s1) => Ok(Drive(s1)))
    case TakeFs(i, invalid, swapLeft) =>
      (match OnFs(s, i, invalid, swapLeft)
       case Fault => Fault
       case Ok(s1) => Ok(Drive(s1)))
    case TakeCleanup =>
      (match OnCleanup(s)
       case Fault => Fault
       case Ok(s1) => Ok(Drive(s1)))
    case StartOp(effect) => StartRequest(s, effect)
    case FinishOp(i, actions) => FinishTask(s, i, actions)
  }

  /** The engine has just asked for its first full scan. */
  function Initial(work: bool): System {
    RequestScan(System(Idle, 0, None, Fs([], 0, 0, 0), 0, Actor([], Ledger(map[Import := 0, Projection := 0], map[]), 0, map[], [], map[]), [], 0, work, {}), Full)
  }
}
