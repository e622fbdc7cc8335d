/**
 * One daemon against its file system: transactions, guarded operations and a user who edits
 * files at any time. When an operation or a transaction may happen is stated here by guards;
 * `JointRefines` proves that the epoch machine keeps to them.
 */
module Projection {
  import opened Common
  import opened Crdt
  import opened Files
  import opened FileStore
  import opened StableTree
  import opened Delivery
  import opened Replica
  import opened ReplicaSafety
  import opened Network

  /** How a planned action ended. */
  datatype Performed = Wrote(finger: Fingerprint) | Erased | Refused

  datatype Host = Host(
    disk: Disk, versions: Versions,              // `versions` is history
    local: Local,
    readings: set<Reading>,                      // files read in the current import epoch
    done: map<Path, Performed>)                  // actions of the current plan that have ended

  datatype HostStep =
    | User(change: Change)
    | ReadFile(path: Path, expected: ExpectedBefore)
    | Perform(path: Path)
    | Db(step: LocalStep)
    | Receive(batch: seq<Record>)
    | Crash

  // ---------------------------------------------------------------- performing a plan

  function ExpectedOf(a: Action): ExpectedBefore {
    match a
    case WriteFile(_, _, expected) => if expected.Some? then Present(expected.value) else Missing
    case DeleteFile(was) => Present(was)
  }

  function PerformOn(env: Env, d: Disk, p: Path, a: Action): (Disk, Performed) {
    match a
    case WriteFile(_, doc, _) =>
      var bytes := env.render(doc);
      (AfterWrite(env.hash, d, p, bytes, ExpectedOf(a)),
       match GuardedWriteResult(env.hash, d, p, bytes, ExpectedOf(a))
       case Written(finger) => Wrote(finger)
       case AlreadyApplied(finger) => Wrote(finger)
       case ConflictBeforeSwap(_) => Refused)
    case DeleteFile(_) =>
      (AfterDelete(env.hash, d, p, ExpectedOf(a)),
       if GuardedDeleteResult(env.hash, d, p, ExpectedOf(a)).Conflict? then Refused else Erased)
  }

  /** The change the operation made, if any. */
  function ChangeOf(env: Env, d: Disk, p: Path, a: Action): Option<Change> {
    match a
    case WriteFile(_, doc, _) =>
      if GuardedWriteResult(env.hash, d, p, env.render(doc), ExpectedOf(a)).Written?
      then Some(Create(p, env.render(doc))) else None
    case DeleteFile(_) =>
      if GuardedDeleteResult(env.hash, d, p, ExpectedOf(a)).Deleted? then Some(Remove(p)) else None
  }

  function Observe(h: Versions, d: Disk, c: Option<Change>): Versions {
    if c.Some? then Seen(h, d, c.value) else h
  }

  // ---------------------------------------------------------------- steps

  predicate Succeeded(done: map<Path, Performed>, plan: Plan, fingers: map<Path, Fingerprint>) {
    forall p :: p in plan ==>
      && p in done && !done[p].Refused?
      && (plan[p].WriteFile? ==> p in fingers && done[p] == Wrote(fingers[p]))
  }

  ghost predicate HostEnabled(env: Env, me: Me, s: Host, step: HostStep) {
    match step
    case User(_) => true
    case ReadFile(_, expected) => s.local.mode.Importing? && (expected.Present? || expected.PresentStat?)
    case Perform(p) =>
      && s.local.mode.Projecting? && p in s.local.mode.plan && p !in s.done
      && forall q :: q in s.done ==> !s.done[q].Refused?
    case Db(step) =>
      && LocalEnabled(env, me, s.local, step)
      && (step.StageFile? ==> step.reading in s.readings)
      && (step.RecordWrite? ==> step.path in s.done && s.done[step.path] == Wrote(step.finger))
      && (step.CommitProjectionEpoch? ==> Succeeded(s.done, s.local.mode.plan, step.fingers))
      && (step.DropProjection? ==> exists p :: p in s.done && s.done[p].Refused?)
    case Receive(_) => true
    case Crash => true
  }

  ghost function HostNext(env: Env, me: Me, s: Host, step: HostStep): Outcome<Host>
    requires HostEnabled(env, me, s, step)
  {
    match step
    case User(c) => Ok(s.(disk := After(s.disk, c), versions := Seen(s.versions, s.disk, c)))
    case ReadFile(p, expected) =>
      (match GuardedRead(env.hash, s.disk, p, expected)
       case Read(bytes, finger) => Ok(s.(readings := s.readings + {Reading(p, finger, bytes)}))
       case ConflictBeforeRead(_) => Ok(s))
    case Perform(p) =>
      var a := s.local.mode.plan[p];
      var (disk, result) := PerformOn(env, s.disk, p, a);
      Ok(s.(disk := disk, versions := Observe(s.versions, s.disk, ChangeOf(env, s.disk, p, a)), done := s.done[p := result]))
    case Db(step) =>
      (match LocalNext(env, me, s.local, step)
       case Fault => Fault
       case Ok(tx) =>
         Ok(s.(local := tx.local,
               readings := if step.ApplyScan? then {} else s.readings,
               done := if step.PlanProjection? then map[] else s.done)))
    case Receive(batch) =>
      (match ApplyBatch(me.origin, s.local.tables, s.local.tables.cursor, batch)
       case Fault => Fault
       case Ok(t) => Ok(s.(local := s.local.(tables := t))))
    case Crash => Ok(s.(local := Local(s.local.tables.(staged := []), Idle), readings := {}, done := map[]))
  }

  // ---------------------------------------------------------------- the invariant

  ghost predicate PriorGenuine(hash: Hash, h: Versions, prior: map<Path, PriorRow>) {
    forall p :: p in prior ==> Genuine(hash, h, prior[p].finger)
  }

  ghost predicate StagedGenuine(hash: Hash, h: Versions, staged: seq<Staged>) {
    forall i :: 0 <= i < |staged| ==> Genuine(hash, h, staged[i].finger)
  }

  ghost predicate ReadingsGenuine(hash: Hash, h: Versions, readings: set<Reading>) {
    forall r :: r in readings ==>
      Genuine(hash, h, r.finger) && h[Version(r.finger.stat.inode, r.finger.stat.mtime)] == r.content
  }

  ghost predicate DoneGenuine(hash: Hash, h: Versions, done: map<Path, Performed>) {
    forall p :: p in done && done[p].Wrote? ==> Genuine(hash, h, done[p].finger)
  }

  /** The plan expects on disk what prior says is there. */
  predicate PlanFromPrior(plan: Plan, prior: map<Path, PriorRow>) {
    forall p :: p in plan ==>
      match plan[p]
      case WriteFile(_, _, expected) =>
        if IsLive(prior, p) then expected == Some(prior[p].finger) else expected == None
      case DeleteFile(was) => IsLive(prior, p) && was == prior[p].finger
  }

  ghost predicate HostInv(env: Env, s: Host) {
    && Recorded(s.versions, s.disk)
    && PriorGenuine(env.hash, s.versions, s.local.tables.priorTree)
    && StagedGenuine(env.hash, s.versions, s.local.tables.staged)
    && ReadingsGenuine(env.hash, s.versions, s.readings)
    && DoneGenuine(env.hash, s.versions, s.done)
    && (s.local.mode.Projecting? ==> PlanFromPrior(s.local.mode.plan, s.local.tables.priorTree))
  }

  // ---------------------------------------------------------------- preservation

  lemma GenuineStays(hash: Hash, h: Versions, h': Versions)
    requires forall v :: v in h ==> v in h' && h'[v] == h[v]
    ensures forall f :: Genuine(hash, h, f) ==> Genuine(hash, h', f)
  {
  }

  /** Anything that changes the disk records the new version and forgets none. */
  lemma KeepChange(env: Env, s: Host, c: Change)
    requires HostInv(env, s)
    ensures HostInv(env, s.(disk := After(s.disk, c), versions := Seen(s.versions, s.disk, c)))
  {
    VersionsNeverReused(s.versions, s.disk, c);
    GenuineStays(env.hash, s.versions, Seen(s.versions, s.disk, c));
  }

  lemma PerformIsChange(env: Env, h: Versions, d: Disk, p: Path, a: Action)
    requires Recorded(h, d)
    ensures var c := ChangeOf(env, d, p, a); var (disk, result) := PerformOn(env, d, p, a);
      && disk == (if c.Some? then After(d, c.value) else d)
      && Recorded(Observe(h, d, c), disk)
      && (forall v :: v in h ==> v in Observe(h, d, c) && Observe(h, d, c)[v] == h[v])
      && (result.Wrote? ==> a.WriteFile? && p in disk.files && result.finger == FingerOf(env.hash, disk.files[p])
                            && disk.files[p].bytes == env.render(a.doc))
  {
    var c := ChangeOf(env, d, p, a);
    if c.Some? { VersionsNeverReused(h, d, c.value); }
  }

  lemma KeepPerform(env: Env, me: Me, s: Host, p: Path)
    requires HostInv(env, s) && HostEnabled(env, me, s, Perform(p))
    ensures HostInv(env, HostNext(env, me, s, Perform(p)).value)
  {
    var a := s.local.mode.plan[p];
    PerformIsChange(env, s.versions, s.disk, p, a);
    var (disk, result) := PerformOn(env, s.disk, p, a);
    var h := Observe(s.versions, s.disk, ChangeOf(env, s.disk, p, a));
    GenuineStays(env.hash, s.versions, h);
    if result.Wrote? { GenuineOnDisk(env.hash, h, disk, p); }
  }

  lemma KeepRead(env: Env, s: Host, p: Path, expected: ExpectedBefore)
    requires HostInv(env, s) && (expected.Present? || expected.PresentStat?) && Matches(env.hash, s.disk, p, expected)
    ensures HostInv(env, s.(readings := s.readings + {Reading(p, FingerOf(env.hash, s.disk.files[p]), s.disk.files[p].bytes)}))
  {
    GenuineOnDisk(env.hash, s.versions, s.disk, p);
  }
}
