/**
 * Self-echo over whole runs of a daemon and its user: how long the evidence of a write lasts,
 * what importing the written file then does, and where suppressed readings come from.
 */
module EchoRuns {
  import opened Common
  import opened Crdt
  import opened Files
  import opened FileStore
  import opened StableTree
  import opened Documents
  import opened Delivery
  import opened Replica
  import opened ReplicaSafety
  import opened Network
  import opened Projection
  import opened ProjectionSafety
  import opened SelfEcho

  ghost predicate HostMove(env: Env, me: Me, s: Host, step: HostStep, s': Host) {
    HostEnabled(env, me, s, step) && HostNext(env, me, s, step) == Ok(s')
  }

  /** A run with the steps taken. */
  ghost predicate IsHostTrace(env: Env, me: Me, ss: seq<Host>, steps: seq<HostStep>) {
    && |ss| == |steps| + 1
    && ss[0] == Host(Disk(map[], 1, 0), map[],
                     Local(Tables(0, {}, map[], map[], {}, map[], map[], [], map[], map[]), Idle), {}, map[])
    && forall i :: 0 <= i < |steps| ==> HostMove(env, me, ss[i], steps[i], ss[i + 1])
  }

  lemma TraceIsRun(env: Env, me: Me, ss: seq<Host>, steps: seq<HostStep>)
    requires IsHostTrace(env, me, ss, steps)
    ensures IsHostRun(env, me, ss)
  {
    forall i | 0 <= i < |ss| - 1 ensures HostStepTo(env, me, ss[i], ss[i + 1]) {
      assert HostMove(env, me, ss[i], steps[i], ss[i + 1]);
    }
  }

  // ---------------------------------------------------------------- how long the evidence lasts

  /** Planning files another object or document under the same path and hash. */
  predicate Refiles(env: Env, t: Tables, p: Path, hash: Bytes, oid: ObjectId, doc: TextDoc) {
    var plan := PlanOf(t);
    p in plan && plan[p].WriteFile? && env.hash(env.render(plan[p].doc)) == hash && Intent(plan[p].row.oid, plan[p].doc) != Intent(oid, doc)
  }

  /** The transactions that end the evidence: an echo is consumed, the path is committed, or the record is replaced. */
  predicate Ends(env: Env, t: Tables, step: LocalStep, p: Path, finger: Fingerprint, oid: ObjectId, doc: TextDoc) {
    match step
    case StageFile(r, _, _) => r.path == p && IsSelfEcho(t, r)
    case CommitProjectionEpoch(order, _, _) => p in order
    case PlanProjection => Refiles(env, t, p, finger.hash, oid, doc)
    case RecordWrite(q, f) => q == p && f.hash == finger.hash && f.stat != finger.stat
    case _ => false
  }

  predicate EndsHost(env: Env, s: Host, step: HostStep, p: Path, finger: Fingerprint, oid: ObjectId, doc: TextDoc) {
    step.Db? && Ends(env, s.local.tables, step.step, p, finger, oid, doc)
  }

  /** `u` has at key `k` what `t` has. */
  predicate SameEvidence(t: Tables, u: Tables, k: IntentKey) {
    && (k in u.intents <==> k in t.intents) && (k in t.intents ==> u.intents[k] == t.intents[k])
    && (k in u.applied <==> k in t.applied) && (k in t.applied ==> u.applied[k] == t.applied[k])
  }

  lemma ActionDrops(t: Tables, p: Path, a: Action, finger: Fingerprint, now: int, k: IntentKey)
    ensures var t' := CommitAction(t, p, a, finger, now); if k.path == p then k !in t'.intents else SameEvidence(t, t', k)
  {
  }

  /** Committing actions drops what is filed for their paths and nothing else. */
  lemma {:induction false} ActionsDropEvidence(t: Tables, plan: Plan, ps: seq<Path>, fingers: map<Path, Fingerprint>, now: int, k: IntentKey)
    requires forall p :: p in ps ==> p in plan && p in fingers
    ensures var t' := CommitActions(t, plan, ps, fingers, now); if k.path in ps then k !in t'.intents else SameEvidence(t, t', k)
  {
    if ps != [] {
      var i := |ps| - 1;
      ActionsDropEvidence(t, plan, ps[..i], fingers, now, k);
      ActionDrops(CommitActions(t, plan, ps[..i], fingers, now), ps[i], plan[ps[i]], fingers[ps[i]], now, k);
      assert ps == ps[..i] + [ps[i]];
    }
  }

  lemma PlanRefiles(env: Env, t: Tables, p: Path, finger: Fingerprint, oid: ObjectId, doc: TextDoc)
    requires AppliedFor(t, p, finger, oid, doc)
    ensures AppliedFor(NextWork(env, t), p, finger, oid, doc) <==> !Refiles(env, t, p, finger.hash, oid, doc)
  {
    var k, plan := IntentKey(p, finger.hash), PlanOf(t);
    if k in IntentsFor(env, plan) {
      assert IntentOf(env, p, plan[p]) == k && IntentsFor(env, plan)[k] == Intent(plan[p].row.oid, plan[p].doc);
    }
  }

  /** Evidence survives every transaction but those that end it, and none of those. */
  lemma EvidenceLocal(env: Env, me: Me, s: Local, step: LocalStep, p: Path, finger: Fingerprint, oid: ObjectId, doc: TextDoc)
    requires LocalEnabled(env, me, s, step) && LocalNext(env, me, s, step).Ok? && AppliedFor(s.tables, p, finger, oid, doc)
    ensures AppliedFor(LocalNext(env, me, s, step).value.local.tables, p, finger, oid, doc) <==> !Ends(env, s.tables, step, p, finger, oid, doc)
  {
    match step {
      case PlanProjection => PlanRefiles(env, s.tables, p, finger, oid, doc);
      case CommitImportEpoch => RowsKeepEvidence(CommitNamespace(me, s.tables).value.tables, s.tables.staged);
      case CommitProjectionEpoch(order, fingers, now) =>
        ActionsDropEvidence(s.tables.(priorNs := s.mode.target), s.mode.plan, order, fingers, now, IntentKey(p, finger.hash));
      case _ =>
    }
  }

  lemma BatchKeepsEvidence(tree: NsDoc -> Outcome<Tree>, me: nat, t: Tables, batch: seq<Record>)
    requires ApplyBatchBy(tree, me, t, t.cursor, batch).Ok?
    ensures var t' := ApplyBatchBy(tree, me, t, t.cursor, batch).value; t'.intents == t.intents && t'.applied == t.applied
  {
  }

  /** The same for everything a daemon does, batches from the log and crashes included, and whatever its user does. */
  lemma EvidenceStep(env: Env, me: Me, s: Host, step: HostStep, p: Path, finger: Fingerprint, oid: ObjectId, doc: TextDoc)
    requires HostEnabled(env, me, s, step) && HostNext(env, me, s, step).Ok? && AppliedFor(s.local.tables, p, finger, oid, doc)
    ensures AppliedFor(HostNext(env, me, s, step).value.local.tables, p, finger, oid, doc) <==> !EndsHost(env, s, step, p, finger, oid, doc)
  {
    match step {
      case Db(db) => EvidenceLocal(env, me, s.local, db, p, finger, oid, doc);
      case Receive(batch) => BatchKeepsEvidence(TreeOf, me.origin, s.local.tables, batch);
      case _ =>
    }
  }

  /** No step of the trace from `i` to `k` ends the evidence. */
  ghost predicate Unended(env: Env, ss: seq<Host>, steps: seq<HostStep>, i: nat, k: nat, p: Path, finger: Fingerprint, oid: ObjectId, doc: TextDoc)
    requires |ss| == |steps| + 1
  {
    forall m :: i <= m < k && m < |steps| ==> !EndsHost(env, ss[m], steps[m], p, finger, oid, doc)
  }

  lemma {:induction false} EvidenceLasts(env: Env, me: Me, ss: seq<Host>, steps: seq<HostStep>, i: nat, k: nat, p: Path, finger: Fingerprint, oid: ObjectId, doc: TextDoc)
    requires IsHostTrace(env, me, ss, steps) && i <= k < |ss| && AppliedFor(ss[i].local.tables, p, finger, oid, doc)
    requires Unended(env, ss, steps, i, k, p, finger, oid, doc)
    ensures AppliedFor(ss[k].local.tables, p, finger, oid, doc)
  {
    if i < k {
      EvidenceLasts(env, me, ss, steps, i, k - 1, p, finger, oid, doc);
      assert !EndsHost(env, ss[k - 1], steps[k - 1], p, finger, oid, doc);
      EvidenceAt(env, me, ss, steps, k - 1, p, finger, oid, doc);
    }
  }

  lemma EvidenceAt(env: Env, me: Me, ss: seq<Host>, steps: seq<HostStep>, k: nat, p: Path, finger: Fingerprint, oid: ObjectId, doc: TextDoc)
    requires IsHostTrace(env, me, ss, steps) && k < |steps| && AppliedFor(ss[k].local.tables, p, finger, oid, doc)
    requires !EndsHost(env, ss[k], steps[k], p, finger, oid, doc)
    ensures AppliedFor(ss[k + 1].local.tables, p, finger, oid, doc)
  {
    assert HostMove(env, me, ss[k], steps[k], ss[k + 1]);
    EvidenceMove(env, me, ss[k], steps[k], ss[k + 1], p, finger, oid, doc);
  }

  lemma EvidenceMove(env: Env, me: Me, s: Host, step: HostStep, s': Host, p: Path, finger: Fingerprint, oid: ObjectId, doc: TextDoc)
    requires HostMove(env, me, s, step, s') && AppliedFor(s.local.tables, p, finger, oid, doc)
    ensures AppliedFor(s'.local.tables, p, finger, oid, doc) <==> !EndsHost(env, s, step, p, finger, oid, doc)
  {
    EvidenceStep(env, me, s, step, p, finger, oid, doc);
  }

  // ---------------------------------------------------------------- what a recorded write is

  /** Every planned write has its intent. */
  ghost predicate Filed(env: Env, t: Tables, plan: Plan) {
    forall p :: p in plan && plan[p].WriteFile? ==>
      IntentOf(env, p, plan[p]) in t.intents && t.intents[IntentOf(env, p, plan[p])] == Intent(plan[p].row.oid, plan[p].doc)
  }

  /** What a write left on disk is the text it was planned with. */
  ghost predicate WroteText(env: Env, h: Versions, a: Action, finger: Fingerprint) {
    && a.WriteFile? && Genuine(env.hash, h, finger)
    && h[Version(finger.stat.inode, finger.stat.mtime)] == env.render(a.doc)
  }

  ghost predicate DoneText(env: Env, h: Versions, plan: Plan, done: map<Path, Performed>) {
    forall p :: p in done ==> p in plan && (done[p].Wrote? ==> WroteText(env, h, plan[p], done[p].finger))
  }

  ghost predicate PlanInv(env: Env, s: Host) {
    s.local.mode.Projecting? ==> Filed(env, s.local.tables, s.local.mode.plan) && DoneText(env, s.versions, s.local.mode.plan, s.done)
  }

  lemma PlanFiles(env: Env, t: Tables)
    ensures Filed(env, NextWork(env, t), PlanOf(t))
  {
    var plan := PlanOf(t);
    forall p | p in plan && plan[p].WriteFile?
      ensures IntentOf(env, p, plan[p]) in NextWork(env, t).intents && NextWork(env, t).intents[IntentOf(env, p, plan[p])] == Intent(plan[p].row.oid, plan[p].doc)
    {
      assert IntentOf(env, p, plan[p]) in IntentsFor(env, plan);
    }
  }

  lemma TextStays(env: Env, h: Versions, h': Versions, plan: Plan, done: map<Path, Performed>)
    requires (forall v :: v in h ==> v in h' && h'[v] == h[v]) && DoneText(env, h, plan, done)
    ensures DoneText(env, h', plan, done)
  {
  }

  lemma PerformText(env: Env, me: Me, s: Host, p: Path)
    requires HostInv(env, s) && PlanInv(env, s) && HostEnabled(env, me, s, HostStep.Perform(p))
    ensures PlanInv(env, HostNext(env, me, s, HostStep.Perform(p)).value)
  {
    var a := s.local.mode.plan[p];
    PerformIsChange(env, s.versions, s.disk, p, a);
    var (disk, result) := PerformOn(env, s.disk, p, a);
    var h := Observe(s.versions, s.disk, ChangeOf(env, s.disk, p, a));
    TextStays(env, s.versions, h, s.local.mode.plan, s.done);
    if result.Wrote? {
      GenuineOnDisk(env.hash, h, disk, p);
      assert WroteText(env, h, a, result.finger);
    }
  }

  lemma PlanInvStep(env: Env, me: Me, s: Host, step: HostStep)
    requires HostInv(env, s) && PlanInv(env, s) && HostEnabled(env, me, s, step) && HostNext(env, me, s, step).Ok?
    ensures PlanInv(env, HostNext(env, me, s, step).value)
  {
    match step {
      case User(c) =>
        VersionsNeverReused(s.versions, s.disk, c);
        if s.local.mode.Projecting? { TextStays(env, s.versions, Seen(s.versions, s.disk, c), s.local.mode.plan, s.done); }
      case Perform(p) => PerformText(env, me, s, p);
      case Db(db) => PlanInvDb(env, me, s, db);
      case Receive(batch) => BatchKeepsEvidence(TreeOf, me.origin, s.local.tables, batch);
      case _ =>
    }
  }

  lemma PlanInvDb(env: Env, me: Me, s: Host, step: LocalStep)
    requires PlanInv(env, s) && HostEnabled(env, me, s, Db(step)) && LocalNext(env, me, s.local, step).Ok?
    ensures PlanInv(env, HostNext(env, me, s, Db(step)).value)
  {
    if step.PlanProjection? { PlanFiles(env, s.local.tables); }
  }

  lemma {:induction false} PlanInvRun(env: Env, me: Me, ss: seq<Host>, steps: seq<HostStep>, i: nat)
    requires IsHostTrace(env, me, ss, steps) && i < |ss|
    ensures HostInv(env, ss[i]) && PlanInv(env, ss[i])
  {
    TraceIsRun(env, me, ss, steps);
    HostRunInv(env, me, ss, i);
    if i > 0 {
      PlanInvRun(env, me, ss, steps, i - 1);
      assert HostMove(env, me, ss[i - 1], steps[i - 1], ss[(i - 1) + 1]);
      PlanInvStep(env, me, ss[i - 1], steps[i - 1]);
    }
  }

  /** The step records that the planned write `a` of `p` left this fingerprint. */
  predicate Records(s: Host, step: HostStep, p: Path, a: Action, finger: Fingerprint) {
    && step == Db(RecordWrite(p, finger))
    && s.local.mode.Projecting? && p in s.local.mode.plan && s.local.mode.plan[p] == a && a.WriteFile?
  }

  /** Whatever write is recorded was planned, has the planned text, and its evidence is now complete. */
  lemma RecordedWrite(env: Env, me: Me, ss: seq<Host>, steps: seq<HostStep>, i: nat, p: Path, finger: Fingerprint) returns (a: Action)
    requires IsHostTrace(env, me, ss, steps) && i < |steps| && steps[i] == Db(RecordWrite(p, finger))
    ensures Records(ss[i], steps[i], p, a, finger)
    ensures WroteText(env, ss[i].versions, a, finger) && finger.hash == env.hash(env.render(a.doc))
    ensures AppliedFor(ss[i + 1].local.tables, p, finger, a.row.oid, a.doc)
  {
    PlanInvRun(env, me, ss, steps, i);
    assert HostMove(env, me, ss[i], steps[i], ss[i + 1]);
    assert p in ss[i].done && ss[i].done[p] == Wrote(finger);
    a := ss[i].local.mode.plan[p];
    assert WroteText(env, ss[i].versions, a, finger);
    assert IntentOf(env, p, a) == IntentKey(p, finger.hash);
  }

  // ---------------------------------------------------------------- reading it back

  ghost predicate Grows(h: Versions, h': Versions) { forall v :: v in h ==> v in h' && h'[v] == h[v] }

  lemma VersionsStep(env: Env, me: Me, s: Host, step: HostStep)
    requires HostInv(env, s) && HostEnabled(env, me, s, step) && HostNext(env, me, s, step).Ok?
    ensures Grows(s.versions, HostNext(env, me, s, step).value.versions)
  {
    match step {
      case User(c) => VersionsNeverReused(s.versions, s.disk, c);
      case Perform(p) => PerformIsChange(env, s.versions, s.disk, p, s.local.mode.plan[p]);
      case _ =>
    }
  }

  lemma VersionsMove(env: Env, me: Me, ss: seq<Host>, steps: seq<HostStep>, i: nat)
    requires IsHostTrace(env, me, ss, steps) && i < |steps|
    ensures Grows(ss[i].versions, ss[i + 1].versions)
  {
    PlanInvRun(env, me, ss, steps, i);
    assert HostMove(env, me, ss[i], steps[i], ss[i + 1]);
    VersionsStep(env, me, ss[i], steps[i]);
  }

  lemma {:induction false} VersionsLast(env: Env, me: Me, ss: seq<Host>, steps: seq<HostStep>, i: nat, k: nat)
    requires IsHostTrace(env, me, ss, steps) && i <= k < |ss|
    ensures Grows(ss[i].versions, ss[k].versions)
  {
    if i < k {
      VersionsLast(env, me, ss, steps, i, k - 1);
      VersionsMove(env, me, ss, steps, k - 1);
    }
  }

  /** From then on a file that has the recorded stat, and any reading that has it, has the fingerprint and the planned text. */
  lemma SameStatSameText(env: Env, me: Me, ss: seq<Host>, steps: seq<HostStep>, i: nat, p: Path, a: Action, finger: Fingerprint, k: nat)
    requires IsHostTrace(env, me, ss, steps) && i < |steps| && Records(ss[i], steps[i], p, a, finger) && i < k < |ss|
    ensures var d := ss[k].disk;
      forall q :: q in d.files && StatOf(d.files[q]) == finger.stat ==>
        GuardedRead(env.hash, d, q, PresentStat(finger.stat)) == Read(env.render(a.doc), finger)
    ensures forall r :: r in ss[k].readings && r.finger.stat == finger.stat ==> r.finger == finger && r.content == env.render(a.doc)
  {
    var _ := RecordedWrite(env, me, ss, steps, i, p, finger);
    VersionsLast(env, me, ss, steps, i, k);
    PlanInvRun(env, me, ss, steps, k);
    var d, v := ss[k].disk, Version(finger.stat.inode, finger.stat.mtime);
    assert Genuine(env.hash, ss[k].versions, finger) && v in ss[k].versions;
    forall q | q in d.files && StatOf(d.files[q]) == finger.stat
      ensures GuardedRead(env.hash, d, q, PresentStat(finger.stat)) == Read(env.render(a.doc), finger)
    {
      StatNamesContent(env.hash, ss[k].versions, d, q, finger);
    }
    forall r | r in ss[k].readings && r.finger.stat == finger.stat ensures r.finger == finger && r.content == env.render(a.doc) {
      assert Genuine(env.hash, ss[k].versions, r.finger);
    }
  }

  /**
   * A write is recorded; its epoch may be discarded, the daemon may crash, batches may arrive,
   * the user may edit. As long as no step ends the evidence, importing the file unchanged since
   * then stages nothing exactly if stable still says what was written: the path then needs no
   * work. Otherwise the file is staged like any other.
   */
  lemma OwnWriteReadBack(env: Env, me: Me, ss: seq<Host>, steps: seq<HostStep>, i: nat, p: Path, a: Action, finger: Fingerprint, k: nat, r: Reading, supply: Supply)
    requires IsHostTrace(env, me, ss, steps) && i < |steps| && Records(ss[i], steps[i], p, a, finger) && i < k < |ss|
    requires Unended(env, ss, steps, i + 1, k, p, finger, a.row.oid, a.doc)
    requires r in ss[k].readings && r.path == p && r.finger.stat == finger.stat
    requires supply.reuse.Some? ==> supply.reuse.value in ss[k].local.tables.priorTree
    ensures r.content == env.render(a.doc)
    ensures var t := ss[k].local.tables; var o := Stage(env, t, r, supply); var row := StagedRow(env, t, r, supply);
      if StillStable(t, p, a.row.oid, a.doc)
      then o.Ok? && o.value.staged == t.staged && UpToDate(o.value, p) && p !in PlanOf(o.value)
      else o == if CanInsert(t.staged, row) then Ok(t.(staged := t.staged + [row])) else Fault
  {
    var _ := RecordedWrite(env, me, ss, steps, i, p, finger);
    var t := ss[k].local.tables;
    EvidenceLasts(env, me, ss, steps, i + 1, k, p, finger, a.row.oid, a.doc);
    SameStatSameText(env, me, ss, steps, i, p, a, finger, k);
    if StillStable(t, p, a.row.oid, a.doc) { EchoSuppressed(env, t, r, supply, a.row.oid, a.doc); }
  }

  // ---------------------------------------------------------------- stable moved on

  /** A foreign text update moves stable on exactly if it brings an operation the written document lacks. */
  lemma UpdateMovesOn(env: Env, me: Me, t: Tables, p: Path, oid: ObjectId, doc: TextDoc, r: Record)
    requires StillStable(t, p, oid, doc) && r.origin != me.origin && r.entry.msg.TextObjectUpdate? && r.entry.msg.oid == oid
    ensures ApplyBatch(me.origin, t, t.cursor, [r]).Ok?
    ensures StillStable(ApplyBatch(me.origin, t, t.cursor, [r]).value, p, oid, doc) <==> r.entry.msg.textOps <= doc
  {
    assert [r][..0] == [] && TextsOf(me.origin, t.stableText, [r]) == ApplyText(t.stableText, oid, r.entry.msg.textOps);
    assert !HasNs(me.origin, [r]);
  }

  /**
   * The input on which a daemon takes its own write for an edit: stable moved on before the
   * file was read back, and prior still has the older text. The staged row then holds an edit
   * exactly if that older text renders otherwise.
   */
  lemma MovedOnIsStaged(env: Env, t: Tables, r: Reading, s: Supply, oid: ObjectId, doc: TextDoc)
    requires AppliedFor(t, r.path, r.finger, oid, doc) && !StillStable(t, r.path, oid, doc)
    requires s.reuse.Some? ==> s.reuse.value in t.priorTree
    requires IsLive(t.priorTree, r.path) && CanInsert(t.staged, StagedRow(env, t, r, s))
    ensures var row := StagedRow(env, t, r, s);
      && Stage(env, t, r, s) == Ok(t.(staged := t.staged + [row]))
      && row.update == if env.render(Doc(t.priorText, t.priorTree[r.path].oid)) == r.content then None else Some(s.edit)
  {
  }

  // ---------------------------------------------------------------- nothing else is suppressed

  lemma AppliedGrows(env: Env, me: Me, s: Host, step: HostStep, k: IntentKey)
    requires HostEnabled(env, me, s, step) && HostNext(env, me, s, step).Ok?
    requires k in HostNext(env, me, s, step).value.local.tables.applied
    ensures var stat := HostNext(env, me, s, step).value.local.tables.applied[k];
      || (k in s.local.tables.applied && s.local.tables.applied[k] == stat)
      || step == Db(RecordWrite(k.path, Fingerprint(stat, k.hash)))
  {
    match step {
      case Db(db) => AppliedGrowsDb(env, me, s.local, db, k);
      case Receive(batch) => BatchKeepsEvidence(TreeOf, me.origin, s.local.tables, batch);
      case _ =>
    }
  }

  lemma AppliedGrowsDb(env: Env, me: Me, s: Local, step: LocalStep, k: IntentKey)
    requires LocalEnabled(env, me, s, step) && LocalNext(env, me, s, step).Ok?
    requires k in LocalNext(env, me, s, step).value.local.tables.applied
    ensures var stat := LocalNext(env, me, s, step).value.local.tables.applied[k];
      (k in s.tables.applied && s.tables.applied[k] == stat) || step == RecordWrite(k.path, Fingerprint(stat, k.hash))
  {
    match step {
      case CommitImportEpoch => RowsKeepEvidence(CommitNamespace(me, s.tables).value.tables, s.tables.staged);
      case CommitProjectionEpoch(order, fingers, now) =>
        ActionsOnlyDrop(s.tables.(priorNs := s.mode.target), s.mode.plan, order, fingers, now, k);
      case _ =>
    }
  }

  lemma {:induction false} ActionsOnlyDrop(t: Tables, plan: Plan, ps: seq<Path>, fingers: map<Path, Fingerprint>, now: int, k: IntentKey)
    requires forall p :: p in ps ==> p in plan && p in fingers
    ensures var t' := CommitActions(t, plan, ps, fingers, now); k in t'.applied ==> k in t.applied && t'.applied[k] == t.applied[k]
  {
    if ps != [] { ActionsOnlyDrop(t, plan, ps[..|ps| - 1], fingers, now, k); }
  }

  /** Every applied mark was made by recording a write. */
  lemma {:induction false} AppliedWasRecorded(env: Env, me: Me, ss: seq<Host>, steps: seq<HostStep>, i: nat, k: IntentKey) returns (m: nat)
    requires IsHostTrace(env, me, ss, steps) && i < |ss| && k in ss[i].local.tables.applied
    ensures m < i && steps[m] == Db(RecordWrite(k.path, Fingerprint(ss[i].local.tables.applied[k], k.hash)))
  {
    assert i > 0;
    assert HostMove(env, me, ss[i - 1], steps[i - 1], ss[(i - 1) + 1]);
    AppliedGrows(env, me, ss[i - 1], steps[i - 1], k);
    if steps[i - 1] == Db(RecordWrite(k.path, Fingerprint(ss[i].local.tables.applied[k], k.hash))) { m := i - 1; }
    else { m := AppliedWasRecorded(env, me, ss, steps, i - 1, k); }
  }

  /**
   * No edit is swallowed: a suppressed reading has the very bytes this daemon planned to write
   * there and recorded with that fingerprint, whatever the hash.
   */
  lemma SuppressedIsOwnWrite(env: Env, me: Me, ss: seq<Host>, steps: seq<HostStep>, i: nat, r: Reading)
    requires IsHostTrace(env, me, ss, steps) && i < |ss| && r in ss[i].readings && IsSelfEcho(ss[i].local.tables, r)
    ensures exists m, a :: 0 <= m < i && Records(ss[m], steps[m], r.path, a, r.finger) && r.content == env.render(a.doc)
  {
    var m := AppliedWasRecorded(env, me, ss, steps, i, IntentKey(r.path, r.finger.hash));
    var a := RecordedWrite(env, me, ss, steps, m, r.path, r.finger);
    SameStatSameText(env, me, ss, steps, m, r.path, a, r.finger, i);
  }
}
