/**
 * How one transaction recognizes a reading of a file this daemon's own projection wrote. It
 * does so only while stable still says what was written; runs are the matter of `EchoRuns`.
 */
module SelfEcho {
  import opened Common
  import opened Crdt
  import opened Files
  import opened FileStore
  import opened StableTree
  import opened Documents
  import opened Delivery
  import opened Replica
  import opened Network
  import opened Projection
  import opened ProjectionSafety

  // ---------------------------------------------------------------- suppression

  /** A write intent for (path, content) that is recorded applied with exactly this fingerprint. */
  predicate AppliedFor(t: Tables, p: Path, finger: Fingerprint, oid: ObjectId, doc: TextDoc) {
    var k := IntentKey(p, finger.hash);
    k in t.intents && t.intents[k] == Intent(oid, doc) && k in t.applied && t.applied[k] == finger.stat
  }

  /** Stable still maps the path to the object and the object to the document. */
  predicate StillStable(t: Tables, p: Path, oid: ObjectId, doc: TextDoc) {
    p in t.stableTree && t.stableTree[p].oid == oid && oid in t.stableText && t.stableText[oid] == doc
  }

  /**
   * If a write was recorded applied and stable has not moved on, importing the file stages
   * nothing, leaves prior equal to stable there, and the next plan skips the path.
   */
  lemma EchoSuppressed(env: Env, t: Tables, r: Reading, s: Supply, oid: ObjectId, doc: TextDoc)
    requires AppliedFor(t, r.path, r.finger, oid, doc) && StillStable(t, r.path, oid, doc)
    requires s.reuse.Some? ==> s.reuse.value in t.priorTree
    ensures Stage(env, t, r, s).Ok?
    ensures var t' := Stage(env, t, r, s).value;
      && t'.staged == t.staged && t'.stableNs == t.stableNs && t'.stableText == t.stableText && t'.stableTree == t.stableTree
      && Doc(t'.priorText, oid) == doc && IsLive(t'.priorTree, r.path) && t'.priorTree[r.path].finger == r.finger
      && UpToDate(t', r.path) && r.path !in PlanOf(t')
      && !AppliedFor(t', r.path, r.finger, oid, doc)
  {
  }

  // ---------------------------------------------------------------- nothing else is suppressed

  /** Every intent is filed under the hash of what it would write. */
  ghost predicate IntentsFiled(env: Env, t: Tables) {
    forall k :: k in t.intents ==> k.hash == env.hash(env.render(t.intents[k].doc))
  }

  lemma {:induction false} RowsKeepEvidence(t: Tables, rows: seq<Staged>)
    ensures CommitRows(t, rows).intents == t.intents && CommitRows(t, rows).applied == t.applied
  {
    if rows != [] { RowsKeepEvidence(t, rows[..|rows| - 1]); }
  }

  lemma {:induction false} ActionsIntents(t: Tables, plan: Plan, ps: seq<Path>, fingers: map<Path, Fingerprint>, now: int)
    requires forall p :: p in ps ==> p in plan && p in fingers
    ensures var t' := CommitActions(t, plan, ps, fingers, now);
      forall k :: k in t'.intents ==> k in t.intents && t'.intents[k] == t.intents[k]
  {
    if ps != [] { ActionsIntents(t, plan, ps[..|ps| - 1], fingers, now); }
  }

  lemma IntentsKept(env: Env, me: Me, s: Local, step: LocalStep)
    requires IntentsFiled(env, s.tables) && LocalEnabled(env, me, s, step) && LocalNext(env, me, s, step).Ok?
    ensures IntentsFiled(env, LocalNext(env, me, s, step).value.local.tables)
  {
    match step {
      case CommitImportEpoch => RowsKeepEvidence(CommitNamespace(me, s.tables).value.tables, s.tables.staged);
      case CommitProjectionEpoch(order, fingers, now) =>
        ActionsIntents(s.tables.(priorNs := s.mode.target), s.mode.plan, order, fingers, now);
      case _ =>
    }
  }

  lemma {:induction false} RunIntents(env: Env, me: Me, ss: seq<Host>, i: nat)
    requires IsHostRun(env, me, ss) && i < |ss|
    ensures IntentsFiled(env, ss[i].local.tables)
  {
    if i > 0 {
      RunIntents(env, me, ss, i - 1);
      assert HostStepTo(env, me, ss[i - 1], ss[(i - 1) + 1]);
      var step :| HostEnabled(env, me, ss[i - 1], step) && HostNext(env, me, ss[i - 1], step) == Ok(ss[i]);
      HostIntents(env, me, ss[i - 1], step);
    }
  }

  lemma HostIntents(env: Env, me: Me, s: Host, step: HostStep)
    requires IntentsFiled(env, s.local.tables) && HostEnabled(env, me, s, step) && HostNext(env, me, s, step).Ok?
    ensures IntentsFiled(env, HostNext(env, me, s, step).value.local.tables)
  {
    match step {
      case Db(db) => IntentsKept(env, me, s.local, db);
      case Receive(batch) => ApplyIntents(TreeOf, me.origin, s.local.tables, batch);
      case _ =>
    }
  }

  lemma ApplyIntents(tree: NsDoc -> Outcome<Tree>, me: nat, t: Tables, batch: seq<Record>)
    requires ApplyBatchBy(tree, me, t, t.cursor, batch).Ok?
    ensures ApplyBatchBy(tree, me, t, t.cursor, batch).value.intents == t.intents
  {
  }

  /** In every run a suppressed reading hashes to what stable renders there. */
  lemma SuppressedIsStable(env: Env, me: Me, ss: seq<Host>, i: nat, r: Reading)
    requires IsHostRun(env, me, ss) && i < |ss| && r in ss[i].readings && IsSelfEcho(ss[i].local.tables, r)
    ensures var t := ss[i].local.tables;
      env.hash(r.content) == env.hash(env.render(t.stableText[t.stableTree[r.path].oid]))
  {
    RunIntents(env, me, ss, i);
    HostRunInv(env, me, ss, i);
    assert Genuine(env.hash, ss[i].versions, r.finger);
  }
}
