/**
 * One whole daemon: the epoch machine with the tables its transactions work on and the disk
 * its file operations touch. Which epoch is open, what counts as a refusal and whether there
 * is work to do are not assumed here but read off the machine, the disk and the tables.
 */
module Joint {
  import opened Common
  import opened Crdt
  import opened Order
  import opened Files
  import opened FileStore
  import opened Delivery
  import opened Replica
  import opened ReplicaSafety
  import opened ReplicaSteps
  import opened Projection
  import E = Epochs
  import ES = EpochSafety

  /** A file to read in an import epoch, as the scan saw it. */
  datatype Target = Target(path: Path, stat: Stat)

  datatype Joint = Joint(
    sys: E.System,
    tables: Tables, disk: Disk, versions: Versions,        // `versions` is history
    // the projection planned last: what it aims at, its actions by number, how each ended
    target: NsDoc, plan: Plan, order: seq<Path>, done: map<Path, Performed>,
    // the import planned last: its files by number, and what reading them gave
    files: seq<Target>, readings: map<nat, Reading>,
    answered: bool)                                        // the file-system operation that is out has been executed

  /** What a transaction is given from outside: scan results, foreign edits, the log, the clock. */
  datatype Arg = Arg(
    missing: seq<Path>, files: seq<Target>,
    supply: Supply, cutoff: int, ignore: bool,
    order: seq<Path>, batch: seq<Record>, now: int)

  datatype JointStep =
    | User(change: Change)
    | Ask(step: E.Step)                // scans, batches and chores asked for, events and cleanups taken
    | TakeReply(i: nat)
    | FsRun(i: nat) | TakeFs(i: nat, swapLeft: bool)
    | Start(arg: Arg) | Finish(i: nat)
    | Crash

  // ---------------------------------------------------------------- which epoch is open

  predicate ProjectionOpen(op: E.Op, active: map<E.Kind, E.Active>) { E.Projection in active || (op.NextWork? && op.work) }

  predicate ImportOpen(op: E.Op, active: map<E.Kind, E.Active>, files: seq<Target>) {
    E.Import in active || (op.Plan? && files != [])
  }

  /** From planning, which already has the tables, to the start of the commit. */
  function ModeBy(op: E.Op, active: map<E.Kind, E.Active>, target: NsDoc, plan: Plan, files: seq<Target>): Mode {
    if ProjectionOpen(op, active) then Projecting(target, plan)
    else if ImportOpen(op, active, files) then Importing
    else Idle
  }

  function ModeOf(j: Joint): Mode {
    ModeBy(ES.Running(j.sys.actor), j.sys.actor.ledger.active, j.target, j.plan, j.files)
  }

  predicate Works(t: Tables) { PlanOf(t) != map[] }

  // ---------------------------------------------------------------- file operations

  function ReadTarget(env: Env, j: Joint, num: nat): Joint
    requires num < |j.files|
  {
    var f := j.files[num];
    match GuardedRead(env.hash, j.disk, f.path, PresentStat(f.stat))
    case Read(bytes, finger) => j.(answered := true, readings := j.readings[num := Reading(f.path, finger, bytes)])
    case ConflictBeforeRead(_) => j.(answered := true, readings := j.readings - {num})
  }

  function PerformPlanned(env: Env, j: Joint, p: Path): Joint
    requires p in j.plan
  {
    var (disk, result) := PerformOn(env, j.disk, p, j.plan[p]);
    j.(answered := true, disk := disk, done := j.done[p := result],
       versions := Observe(j.versions, j.disk, ChangeOf(env, j.disk, p, j.plan[p])))
  }

  predicate IsRead(j: Joint, t: E.FsTask) { t.Perform? && t.kind.Import? && t.id.num < |j.files| }

  predicate IsAction(j: Joint, t: E.FsTask) {
    t.Perform? && t.kind.Projection? && t.id.num < |j.order| && j.order[t.id.num] in j.plan
  }

  /** The file system executes the operation that is out. */
  function Ran(env: Env, j: Joint, i: nat): Joint
    requires i < |j.sys.fs.pending|
  {
    var t := j.sys.fs.pending[i];
    if IsRead(j, t) then ReadTarget(env, j, t.id.num)
    else if IsAction(j, t) then PerformPlanned(env, j, j.order[t.id.num])
    else j.(answered := true)
  }

  /** `invalidates_import` and `invalidates_projection` of the outcome. */
  predicate Invalidates(j: Joint, t: E.FsTask) {
    match t
    case Scan(_) => false
    case Perform(kind, id) =>
      if kind.Import? then id.num !in j.readings
      else id.num < |j.order| && j.order[id.num] in j.done && j.done[j.order[id.num]].Refused?
  }

  // ---------------------------------------------------------------- transactions

  function FingersOf(plan: Plan, done: map<Path, Performed>): map<Path, Fingerprint> {
    map p | p in plan :: if p in done && done[p].Wrote? then done[p].finger else Fingerprint(Stat(0, 0, 0), [])
  }

  /** An epoch commit that is not deferred. */
  predicate Closes(a: E.Actor, r: E.Request) {
    r.CommitEpoch? && r.kind in a.ledger.active && E.ReadyToCommit(a, r.kind, r.exhausted)
  }

  ghost predicate ArgOk(env: Env, me: Me, j: Joint, arg: Arg)
    requires j.sys.actor.lane != []
  {
    match j.sys.actor.lane[0]
    case ApplyScan => forall p :: p in arg.missing ==> p in j.tables.priorTree && j.tables.priorTree[p].deletedAt.None?
    case CommitAction(kind, id) =>
      kind.Import? && id.num in j.readings && !arg.ignore ==> SupplyOk(env, j.tables, j.readings[id.num], arg.supply, arg.cutoff, me.client)
    case GetNextWork(_) => Distinct(arg.order) && forall p :: p in arg.order <==> p in PlanOf(j.tables)
    case _ => true
  }

  /** `stage_import_action_tx` for a file that was read, `commit_projection_action` for a write that is on disk. */
  function ActionTables(env: Env, j: Joint, kind: E.Kind, id: E.ActionId, supply: Supply, ignore: bool): Outcome<Tables>
    requires kind.Import? && id.num in j.readings && !ignore ==> (supply.reuse.Some? ==> supply.reuse.value in j.tables.priorTree)
  {
    if kind.Import? then
      if id.num in j.readings && !ignore then Stage(env, j.tables, j.readings[id.num], supply) else Ok(j.tables)
    else if id.num < |j.order| && j.order[id.num] in j.done && j.done[j.order[id.num]].Wrote? then
      Ok(MarkApplied(j.tables, j.order[id.num], j.done[j.order[id.num]].finger))
    else Ok(j.tables)
  }

  /** `commit_sync_import_epoch_tx` and `commit_projection_epoch_tx`; a discarded plan is only dropped. */
  ghost function ClosedTables(me: Me, j: Joint, kind: E.Kind, exhausted: bool, now: int): Outcome<Tables> {
    if kind.Import? then
      (match CommitImport(me, j.tables)
       case Fault => Fault
       case Ok(tx) => Ok(tx.tables))
    else if exhausted && forall p :: p in j.order ==> p in j.plan then
      Ok(CommitActions(j.tables.(priorNs := j.target), j.plan, j.order, FingersOf(j.plan, j.done), now))
    else Ok(j.tables)
  }

  /** The transaction the request at the head of the lane runs. */
  ghost function TablesAfter(env: Env, me: Me, j: Joint, arg: Arg): Outcome<Tables>
    requires j.sys.actor.lane != [] && ArgOk(env, me, j, arg)
  {
    var t, r := j.tables, j.sys.actor.lane[0];
    match r
    case ApplyScan =>
      (match LocalDeletes(me, t, arg.missing, arg.now)
       case Fault => Fault
       case Ok(tx) => Ok(tx.tables))
    case CommitAction(kind, id) => ActionTables(env, j, kind, id, arg.supply, arg.ignore)
    case CommitEpoch(kind, _, exhausted) =>
      if Closes(j.sys.actor.(lane := j.sys.actor.lane[1..]), r) then ClosedTables(me, j, kind, exhausted, arg.now) else Ok(t)
    case GetNextWork(_) => Ok(NextWork(env, t))
    case ApplyBatch => ApplyBatch(me.origin, t, t.cursor, arg.batch)
    case Chore => Ok(t)
  }

  /** Only a batch with another daemon's record in it changes stable and is announced. */
  predicate Announced(me: nat, batch: seq<Record>) { exists i :: 0 <= i < |batch| && batch[i].origin != me }

  /** The machine, told what the transaction left, takes the request. */
  function StartedOn(me: Me, j: Joint, arg: Arg, t: Tables): Outcome<Joint>
    requires j.sys.actor.lane != []
  {
    match E.StartRequest(j.sys, E.Effect(Announced(me.origin, arg.batch), Works(t)))
    case Fault => Fault
    case Ok(s) =>
      var j1 := j.(sys := s, tables := t);
      Ok(match j.sys.actor.lane[0]
         case ApplyScan => j1.(files := arg.files, readings := map[])
         case GetNextWork(_) => j1.(target := j.tables.stableNs, plan := PlanOf(j.tables), order := arg.order, done := map[])
         case _ => j1)
  }

  /** The request starts: its transaction runs on the tables and the machine learns whether there is work. */
  ghost function Started(env: Env, me: Me, j: Joint, arg: Arg): Outcome<Joint>
    requires j.sys.actor.lane != [] && ArgOk(env, me, j, arg)
  {
    match TablesAfter(env, me, j, arg)
    case Fault => Fault
    case Ok(t) => StartedOn(me, j, arg, t)
  }

  function Numbers(epoch: nat, n: nat): seq<E.ActionId> { seq(n, k requires 0 <= k < n => E.ActionId(epoch, k)) }

  /** The plan the running transaction hands over, its actions numbered in order. */
  function PlannedIds(j: Joint): seq<E.ActionId> {
    match ES.Running(j.sys.actor)
    case Plan(epoch) => Numbers(epoch, |j.files|)
    case NextWork(epoch, _, work) => if work then Numbers(epoch, |j.order|) else []
    case _ => []
  }

  // ---------------------------------------------------------------- steps

  predicate IsAsk(step: E.Step) {
    step.AskScan? || step.AskBatch? || step.AskChore? || step.TakeEvent? || step.TakeCleanup?
  }

  ghost predicate JointEnabled(env: Env, me: Me, j: Joint, step: JointStep) {
    match step
    case User(_) => true
    case Ask(s) => IsAsk(s) && E.Enabled(j.sys, s)
    case TakeReply(i) => i < |j.sys.replies|
    case FsRun(i) => i < |j.sys.fs.pending| && !j.answered
    case TakeFs(i, _) => i < |j.sys.fs.pending| && j.answered
    case Start(arg) => j.sys.actor.lane != [] && j.sys.actor.running == [] && ArgOk(env, me, j, arg)
    case Finish(i) => i < |j.sys.actor.running|
    case Crash => true
  }

  /** What a crash leaves: the durable tables without staged rows, and a fresh machine. */
  function Recovered(j: Joint): Joint {
    var t := j.tables.(staged := []);
    j.(sys := E.Initial(Works(t)), tables := t, done := map[], readings := map[], answered := false)
  }

  ghost function JointNext(env: Env, me: Me, j: Joint, step: JointStep): Outcome<Joint>
    requires JointEnabled(env, me, j, step)
  {
    match step
    case User(c) => Ok(j.(disk := After(j.disk, c), versions := Seen(j.versions, j.disk, c)))
    case Ask(s) =>
      (match E.Next(j.sys, s)
       case Fault => Fault
       case Ok(sys) => Ok(j.(sys := sys)))
    case TakeReply(i) =>
      (match E.Next(j.sys, E.TakeReply(i))
       case Fault => Fault
       case Ok(sys) => Ok(j.(sys := sys)))
    case FsRun(i) => Ok(Ran(env, j, i))
    case TakeFs(i, swapLeft) =>
      (match E.Next(j.sys, E.TakeFs(i, Invalidates(j, j.sys.fs.pending[i]), swapLeft))
       case Fault => Fault
       case Ok(sys) => Ok(j.(sys := sys, answered := false)))
    case Start(arg) => Started(env, me, j, arg)
    case Finish(i) =>
      (match E.FinishTask(j.sys, i, PlannedIds(j))
       case Fault => Fault
       case Ok(sys) => Ok(j.(sys := sys)))
    case Crash => Ok(Recovered(j))
  }

  /** A daemon with empty tables and an empty disk. */
  function NewDaemon(): Joint {
    Joint(E.Initial(false), Tables(0, {}, map[], map[], {}, map[], map[], [], map[], map[]), Disk(map[], 1, 0), map[],
          {}, map[], [], map[], [], map[], false)
  }
}
