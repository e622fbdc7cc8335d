/** Guarded projection never overwrites anything but the file version prior recorded. */
module ProjectionSafety {
  import opened Common
  import opened Crdt
  import opened Files
  import opened FileStore
  import opened Delivery
  import opened Replica
  import opened ReplicaSafety
  import opened Network
  import opened Projection

  // ---------------------------------------------------------------- transactions

  lemma {:induction false} RowsGenuine(hash: Hash, h: Versions, t: Tables, rows: seq<Staged>)
    requires PriorGenuine(hash, h, t.priorTree) && StagedGenuine(hash, h, rows)
    ensures PriorGenuine(hash, h, CommitRows(t, rows).priorTree)
  {
    if rows != [] { RowsGenuine(hash, h, t, rows[..|rows| - 1]); }
  }

  lemma {:induction false} ActionsGenuine(hash: Hash, h: Versions, t: Tables, plan: Plan, ps: seq<Path>, fingers: map<Path, Fingerprint>, now: int)
    requires forall p :: p in ps ==> p in plan && p in fingers
    requires PriorGenuine(hash, h, t.priorTree)
    requires forall p :: p in ps && plan[p].WriteFile? ==> Genuine(hash, h, fingers[p])
    ensures PriorGenuine(hash, h, CommitActions(t, plan, ps, fingers, now).priorTree)
    ensures CommitActions(t, plan, ps, fingers, now).staged == t.staged
  {
    if ps != [] { ActionsGenuine(hash, h, t, plan, ps[..|ps| - 1], fingers, now); }
  }

  lemma KeepScan(env: Env, me: Me, s: Host, missing: seq<Path>, now: int, importing: bool)
    requires HostInv(env, s) && LocalEnabled(env, me, s.local, ApplyScan(missing, now, importing))
    requires LocalDeletes(me, s.local.tables, missing, now).Ok?
    ensures var t := LocalDeletes(me, s.local.tables, missing, now).value.tables;
      PriorGenuine(env.hash, s.versions, t.priorTree) && t.staged == s.local.tables.staged
  {
  }

  lemma KeepStaged(env: Env, t: Tables, h: Versions, r: Reading, supply: Supply)
    requires PriorGenuine(env.hash, h, t.priorTree) && StagedGenuine(env.hash, h, t.staged) && Genuine(env.hash, h, r.finger)
    requires supply.reuse.Some? ==> supply.reuse.value in t.priorTree
    requires Stage(env, t, r, supply).Ok?
    ensures var t' := Stage(env, t, r, supply).value;
      PriorGenuine(env.hash, h, t'.priorTree) && StagedGenuine(env.hash, h, t'.staged)
  {
  }

  lemma KeepCommitted(env: Env, me: Me, t: Tables, h: Versions)
    requires PriorGenuine(env.hash, h, t.priorTree) && StagedGenuine(env.hash, h, t.staged) && CommitImport(me, t).Ok?
    ensures var t' := CommitImport(me, t).value.tables;
      PriorGenuine(env.hash, h, t'.priorTree) && t'.staged == []
  {
    var t1 := CommitNamespace(me, t).value.tables;
    assert t1.priorTree == t.priorTree;
    RowsGenuine(env.hash, h, t1, t.staged);
  }

  lemma KeepDbImport(env: Env, me: Me, s: Host, step: LocalStep)
    requires HostInv(env, s) && HostEnabled(env, me, s, Db(step)) && LocalNext(env, me, s.local, step).Ok?
    requires step.ApplyScan? || step.StageFile? || step.CommitImportEpoch?
    ensures HostInv(env, HostNext(env, me, s, Db(step)).value)
  {
    match step {
      case ApplyScan(missing, now, importing) => KeepScan(env, me, s, missing, now, importing);
      case StageFile(r, supply, _) => KeepStaged(env, s.local.tables, s.versions, r, supply);
      case CommitImportEpoch => KeepCommitted(env, me, s.local.tables, s.versions);
    }
  }

  lemma PlanIsFromPrior(t: Tables)
    ensures PlanFromPrior(PlanOf(t), t.priorTree)
  {
  }

  lemma KeepDbProjection(env: Env, me: Me, s: Host, step: LocalStep)
    requires HostInv(env, s) && HostEnabled(env, me, s, Db(step)) && LocalNext(env, me, s.local, step).Ok?
    requires !step.ApplyScan? && !step.StageFile? && !step.CommitImportEpoch?
    ensures HostInv(env, HostNext(env, me, s, Db(step)).value)
  {
    match step {
      case PlanProjection => PlanIsFromPrior(s.local.tables);
      case RecordWrite(_, _) =>
      case CommitProjectionEpoch(order, fingers, now) =>
        ActionsGenuine(env.hash, s.versions, s.local.tables.(priorNs := s.local.mode.target), s.local.mode.plan, order, fingers, now);
      case DropProjection =>
    }
  }

  lemma KeepReceive(env: Env, me: Me, s: Host, batch: seq<Record>)
    requires HostInv(env, s) && ApplyBatch(me.origin, s.local.tables, s.local.tables.cursor, batch).Ok?
    ensures HostInv(env, HostNext(env, me, s, Receive(batch)).value)
  {
  }

  lemma HostStepSafe(env: Env, me: Me, s: Host, step: HostStep)
    requires HostInv(env, s) && HostEnabled(env, me, s, step) && HostNext(env, me, s, step).Ok?
    ensures HostInv(env, HostNext(env, me, s, step).value)
  {
    match step {
      case User(c) => KeepChange(env, s, c);
      case ReadFile(p, expected) => if Matches(env.hash, s.disk, p, expected) { KeepRead(env, s, p, expected); }
      case Perform(p) => KeepPerform(env, me, s, p);
      case Db(step) =>
        if step.ApplyScan? || step.StageFile? || step.CommitImportEpoch? { KeepDbImport(env, me, s, step); }
        else { KeepDbProjection(env, me, s, step); }
      case Receive(batch) => KeepReceive(env, me, s, batch);
      case Crash =>
    }
  }

  ghost predicate HostStepTo(env: Env, me: Me, s: Host, s': Host) {
    exists step :: HostEnabled(env, me, s, step) && HostNext(env, me, s, step) == Ok(s')
  }

  /** A run of one daemon and its user from an empty disk and empty tables. */
  ghost predicate IsHostRun(env: Env, me: Me, ss: seq<Host>) {
    && ss != []
    && ss[0] == Host(Disk(map[], 1, 0), map[],
                     Local(Tables(0, {}, map[], map[], {}, map[], map[], [], map[], map[]), Idle), {}, map[])
    && forall i :: 0 <= i < |ss| - 1 ==> HostStepTo(env, me, ss[i], ss[i + 1])
  }

  lemma {:induction false} HostRunInv(env: Env, me: Me, ss: seq<Host>, i: nat)
    requires IsHostRun(env, me, ss) && i < |ss|
    ensures HostInv(env, ss[i])
  {
    if i > 0 {
      HostRunInv(env, me, ss, i - 1);
      assert HostStepTo(env, me, ss[i - 1], ss[(i - 1) + 1]);
      var step :| HostEnabled(env, me, ss[i - 1], step) && HostNext(env, me, ss[i - 1], step) == Ok(ss[i]);
      HostStepSafe(env, me, ss[i - 1], step);
    }
  }

  // ---------------------------------------------------------------- the guarantee

  /**
   * Under every interleaving of user edits: a guarded operation that changes the disk touches
   * its own path only, and replaces or removes a file only if that file is the very version
   * prior recorded, content included; otherwise it creates a file where there was none.
   */
  lemma ReplacesOnlyWhatPriorRecorded(env: Env, me: Me, ss: seq<Host>, i: nat, p: Path)
    requires IsHostRun(env, me, ss) && i < |ss| && HostEnabled(env, me, ss[i], HostStep.Perform(p))
    ensures var s := ss[i]; var disk := HostNext(env, me, s, HostStep.Perform(p)).value.disk; var prior := s.local.tables.priorTree;
      && (forall q :: q != p ==> (q in disk.files <==> q in s.disk.files) && (q in disk.files ==> disk.files[q] == s.disk.files[q]))
      && (disk != s.disk ==>
            if p in s.disk.files then
              var v := VersionOf(s.disk.files[p]);
              && IsLive(prior, p) && Version(prior[p].finger.stat.inode, prior[p].finger.stat.mtime) == v
              && v in s.versions && s.disk.files[p].bytes == s.versions[v]
              && prior[p].finger == FingerOf(env.hash, s.disk.files[p])
            else !IsLive(prior, p) && p in disk.files)
  {
    HostRunInv(env, me, ss, i);
    var s := ss[i];
    var a := s.local.mode.plan[p];
    PerformIsChange(env, s.versions, s.disk, p, a);
  }

  /** A daemon's write is refused exactly when the file is neither the expected version nor already right. */
  lemma RefusedExactly(env: Env, s: Host, p: Path, a: Action)
    requires HostInv(env, s) && s.local.mode.Projecting? && p in s.local.mode.plan && a == s.local.mode.plan[p]
    ensures var prior := s.local.tables.priorTree;
      PerformOn(env, s.disk, p, a).1.Refused? <==>
        && !(if IsLive(prior, p) then p in s.disk.files && StatOf(s.disk.files[p]) == prior[p].finger.stat else p !in s.disk.files)
        && !(a.WriteFile? && p in s.disk.files && s.disk.files[p].bytes == env.render(a.doc))
  {
    var prior := s.local.tables.priorTree;
    if IsLive(prior, p) && p in s.disk.files && StatOf(s.disk.files[p]) == prior[p].finger.stat {
      StatNamesContent(env.hash, s.versions, s.disk, p, prior[p].finger);
    }
  }

  /** A file of another content than prior recorded is not touched, though its stat be the recorded one. */
  lemma OtherContentRefused(env: Env, d: Disk, p: Path, a: Action, finger: Fingerprint)
    requires p in d.files && env.hash(d.files[p].bytes) != finger.hash
    requires a == DeleteFile(finger) || (a.WriteFile? && a.expected == Some(finger) && d.files[p].bytes != env.render(a.doc))
    ensures PerformOn(env, d, p, a) == (d, Refused)
  {
  }
}
