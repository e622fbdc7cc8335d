/** The claims that prior's rows name: in every run each is one that somebody made for the row's object. */
module PriorClaims {
  import opened Common
  import opened Crdt
  import opened StableTree
  import opened Documents
  import opened Delivery
  import opened Files
  import opened Replica
  import opened ReplicaSafety
  import opened Network
  import opened NetworkSafety
  import opened Convergence
  import opened StoreCalls
  import opened LocalEdits
  import opened LocalEditRuns

  /** Some operation of the document claims a path for the object under this claim id. */
  ghost predicate Claimed(ns: NsDoc, claim: ClaimId, oid: ObjectId) {
    exists x :: x in ns && x.fact.AddClaim? && x.fact.claim == claim && x.fact.owner == oid
  }

  ghost predicate PriorClaimed(ns: NsDoc, prior: map<Path, PriorRow>) { forall p :: p in prior ==> Claimed(ns, prior[p].claim, prior[p].oid) }

  ghost predicate TreeClaimed(ns: NsDoc, tree: Tree) { forall p :: p in tree ==> Claimed(ns, tree[p].claim, tree[p].oid) }

  ghost predicate StagedClaimed(ns: NsDoc, staged: seq<Staged>) {
    forall i :: 0 <= i < |staged| && staged[i].kind.Update? ==> Claimed(ns, staged[i].claim, staged[i].oid)
  }

  ghost predicate PlanClaimed(ns: NsDoc, plan: Plan) {
    forall p :: p in plan && plan[p].WriteFile? ==> Claimed(ns, plan[p].row.claim, plan[p].row.oid)
  }

  /** An applied mark belongs to an intent. */
  predicate MarksFiled(t: Tables) { t.applied.Keys <= t.intents.Keys }

  ghost predicate ClaimsInv(t: Tables, mode: Mode) {
    && PriorClaimed(t.stableNs, t.priorTree) && StagedClaimed(t.stableNs, t.staged) && PlanClaimed(t.stableNs, PlanIn(mode))
    && MarksFiled(t)
  }

  lemma ClaimsGrow(ns: NsDoc, ns': NsDoc, t: Tables, plan: Plan)
    requires ns <= ns'
    ensures PriorClaimed(ns, t.priorTree) ==> PriorClaimed(ns', t.priorTree)
    ensures StagedClaimed(ns, t.staged) ==> StagedClaimed(ns', t.staged)
    ensures PlanClaimed(ns, plan) ==> PlanClaimed(ns', plan)
  {
    forall claim, oid | Claimed(ns, claim, oid) ensures Claimed(ns', claim, oid) {}
  }

  lemma TreeIsClaimed(ns: NsDoc, tree: Tree)
    requires OneClaimEach(ns) && TreeOf(ns) == Ok(tree)
    ensures TreeClaimed(ns, tree)
  {
    TreeRowsAre(ns);
    forall p | p in tree ensures Claimed(ns, tree[p].claim, tree[p].oid) { assert RowActive(ns, tree[p]); }
  }

  // ---------------------------------------------------------------- one transaction

  lemma DeletesKeep(me: Me, t: Tables, missing: seq<Path>, now: int, tx: Tx)
    requires forall p :: p in missing ==> p in t.priorTree && t.priorTree[p].deletedAt.None?
    requires LocalDeletes(me, t, missing, now) == Ok(tx) && ClaimsInv(t, Mode.Idle) && t.staged == []
    ensures ClaimsInv(tx.tables, Mode.Idle) && ClaimsInv(tx.tables, Importing)
  {
    DeletesMean(me, t, missing, now, tx);
    ClaimsGrow(t.stableNs, tx.tables.stableNs, t, map[]);
    forall p | p in tx.tables.priorTree ensures Claimed(tx.tables.stableNs, tx.tables.priorTree[p].claim, tx.tables.priorTree[p].oid) {
      assert Claimed(tx.tables.stableNs, t.priorTree[p].claim, t.priorTree[p].oid);
    }
  }

  lemma StageKeeps(env: Env, t: Tables, r: Reading, s: Supply)
    requires (s.reuse.Some? ==> s.reuse.value in t.priorTree) && Stage(env, t, r, s).Ok?
    requires ClaimsInv(t, Importing) && TreeClaimed(t.stableNs, t.stableTree)
    ensures ClaimsInv(Stage(env, t, r, s).value, Importing)
  {
  }

  lemma {:induction false} RowsKeep(ns: NsDoc, t: Tables, rows: seq<Staged>)
    requires PriorClaimed(ns, t.priorTree) && forall i :: 0 <= i < |rows| ==> Claimed(ns, rows[i].claim, rows[i].oid)
    ensures PriorClaimed(ns, CommitRows(t, rows).priorTree)
    ensures CommitRows(t, rows).intents == t.intents && CommitRows(t, rows).applied == t.applied
  {
    if rows != [] {
      var k := |rows| - 1;
      RowsKeep(ns, t, rows[..k]);
      RowKeeps(ns, CommitRows(t, rows[..k]), rows[k]);
    }
  }

  lemma RowKeeps(ns: NsDoc, t: Tables, row: Staged)
    requires PriorClaimed(ns, t.priorTree) && Claimed(ns, row.claim, row.oid)
    ensures PriorClaimed(ns, CommitRow(t, row).priorTree)
  {
  }

  lemma ImportKeeps(me: Me, t: Tables, tx: Tx)
    requires ReplicaInv(t, Importing, me.client) && CommitImport(me, t) == Ok(tx) && ClaimsInv(t, Importing)
    ensures ClaimsInv(tx.tables, Mode.Idle)
  {
    var ns' := tx.tables.stableNs;
    ImportMeans(me, t, tx);
    ClaimsGrow(t.stableNs, ns', t, map[]);
    forall i | 0 <= i < |t.staged| ensures Claimed(ns', t.staged[i].claim, t.staged[i].oid) { StagedIsClaimed(me, t, ns', i); }
    ImportParts(me, t, tx);
    RowsKeep(ns', CommitNamespace(me, t).value.tables, t.staged);
  }

  lemma ImportParts(me: Me, t: Tables, tx: Tx)
    requires CommitImport(me, t) == Ok(tx)
    ensures var t1 := CommitNamespace(me, t).value.tables;
      && t1.priorTree == t.priorTree && t1.intents == t.intents && t1.applied == t.applied
      && tx.tables == CommitRows(t1, t.staged).(staged := [])
  {
  }

  lemma StagedIsClaimed(me: Me, t: Tables, ns': NsDoc, i: nat)
    requires i < |t.staged| && StagedClaimed(ns', t.staged)
    requires forall f :: Added(t.stableNs, ns', f) <==> FactOfSome(me, t.staged, f)
    ensures Claimed(ns', t.staged[i].claim, t.staged[i].oid)
  {
    var row := t.staged[i];
    if !row.kind.Update? {
      assert FactOf(me, row, AddClaim(row.claim, row.oid, row.path)) && FactOfSome(me, t.staged, AddClaim(row.claim, row.oid, row.path));
    }
  }

  lemma PlanKeeps(env: Env, t: Tables)
    requires ClaimsInv(t, Mode.Idle) && TreeClaimed(t.stableNs, t.stableTree)
    ensures ClaimsInv(NextWork(env, t), Mode.Idle) && ClaimsInv(NextWork(env, t), Projecting(t.stableNs, PlanOf(t)))
  {
  }

  lemma {:induction false} ActionsKeep(ns: NsDoc, t: Tables, plan: Plan, ps: seq<Path>, fingers: map<Path, Fingerprint>, now: int)
    requires PriorClaimed(ns, t.priorTree) && PlanClaimed(ns, plan) && MarksFiled(t)
    requires forall p :: p in ps ==> p in plan && p in fingers
    ensures PriorClaimed(ns, CommitActions(t, plan, ps, fingers, now).priorTree) && MarksFiled(CommitActions(t, plan, ps, fingers, now))
    ensures CommitActions(t, plan, ps, fingers, now).stableNs == t.stableNs && CommitActions(t, plan, ps, fingers, now).staged == t.staged
  {
    if ps != [] {
      var k := |ps| - 1;
      ActionsKeep(ns, t, plan, ps[..k], fingers, now);
      ActionKeeps(ns, CommitActions(t, plan, ps[..k], fingers, now), ps[k], plan[ps[k]], fingers[ps[k]], now);
    }
  }

  lemma ActionKeeps(ns: NsDoc, t: Tables, p: Path, a: Action, finger: Fingerprint, now: int)
    requires PriorClaimed(ns, t.priorTree) && MarksFiled(t) && (a.WriteFile? ==> Claimed(ns, a.row.claim, a.row.oid))
    ensures var t' := CommitAction(t, p, a, finger, now);
      PriorClaimed(ns, t'.priorTree) && MarksFiled(t') && t'.stableNs == t.stableNs && t'.staged == t.staged
  {
    var t' := CommitAction(t, p, a, finger, now);
    forall q | q in t'.priorTree ensures Claimed(ns, t'.priorTree[q].claim, t'.priorTree[q].oid) {
      assert q in t.priorTree ==> Claimed(ns, t.priorTree[q].claim, t.priorTree[q].oid);
    }
  }

  lemma LocalKeepsClaims(env: Env, me: Me, s: Local, step: LocalStep)
    requires ReplicaInv(s.tables, s.mode, me.client) && OneClaimEach(s.tables.stableNs)
    requires LocalEnabled(env, me, s, step) && LocalNext(env, me, s, step).Ok? && ClaimsInv(s.tables, s.mode)
    ensures var s' := LocalNext(env, me, s, step).value.local; ClaimsInv(s'.tables, s'.mode)
  {
    var t := s.tables;
    TreeIsClaimed(t.stableNs, t.stableTree);
    match step {
      case ApplyScan(missing, now, _) => DeletesKeep(me, t, missing, now, LocalDeletes(me, t, missing, now).value);
      case StageFile(r, supply, cutoff) => StageKeeps(env, t, r, supply);
      case CommitImportEpoch => ImportKeeps(me, t, CommitImport(me, t).value);
      case PlanProjection => PlanKeeps(env, t);
      case CommitProjectionEpoch(order, fingers, now) =>
        ActionsKeep(t.stableNs, t.(priorNs := s.mode.target), s.mode.plan, order, fingers, now);
      case _ =>
    }
  }

  /** A suppressed reading leaves prior's row the stable one, with stable's text and nothing on file for the path. */
  lemma EchoRealigns(t: Tables, r: Reading)
    requires IsSelfEcho(t, r)
    ensures var u, row := Realign(t, r), t.stableTree[r.path];
      && r.path in u.priorTree && u.priorTree[r.path] == PriorRow(row.claimed, row.claim, row.oid, r.finger, None)
      && row.oid in u.priorText && u.priorText[row.oid] == t.stableText[row.oid]
      && (forall k :: k in u.intents || k in u.applied ==> k.path != r.path)
      && (forall k :: k in t.intents && k.path != r.path ==> k in u.intents && u.intents[k] == t.intents[k])
      && (forall k :: k in t.applied && k.path != r.path ==> k in u.applied && u.applied[k] == t.applied[k])
  {
  }

  // ---------------------------------------------------------------- every run

  ghost predicate AllClaims(w: World) {
    forall d :: 0 <= d < |w.daemons| ==> ClaimsInv(w.daemons[d].local.tables, w.daemons[d].local.mode)
  }

  lemma ClaimsStep(env: Env, w: World, step: WorldStep)
    requires WorldInv(w) && AllClaims(w) && WorldEnabled(env, w, step) && WorldNext(env, w, step).Ok?
    ensures AllClaims(WorldNext(env, w, step).value)
  {
    match step {
      case Transact(d, s) =>
        StableIsClean(w, d);
        TreeIsOf(w, d);
        LocalKeepsClaims(env, w.daemons[d].me, w.daemons[d].local, s);
      case Apply(d, count) =>
        var t := w.daemons[d].local.tables;
        BatchKeepsClaims(TreeOf, d, t, w.daemons[d].local.mode, t.cursor, Batch(w, d, count));
      case _ =>
    }
  }

  lemma BatchKeepsClaims(tree: NsDoc -> Outcome<Tree>, me: nat, t: Tables, mode: Mode, first: nat, batch: seq<Record>)
    requires ApplyBatchBy(tree, me, t, first, batch).Ok? && ClaimsInv(t, mode)
    ensures ClaimsInv(ApplyBatchBy(tree, me, t, first, batch).value, mode)
  {
    var t' := ApplyBatchBy(tree, me, t, first, batch).value;
    ClaimsGrow(t.stableNs, t'.stableNs, t, PlanIn(mode));
  }

  /**
   * In every run of the network each row of prior names a claim that was made for its object,
   * and each applied mark an intent that is on file.
   */
  lemma {:induction false} PriorRowsClaimed(env: Env, ws: seq<World>, i: nat)
    requires IsRun(env, ws) && i < |ws|
    ensures AllClaims(ws[i])
  {
    if i == 0 {
      InitialClaims(ws[0]);
    } else {
      PriorRowsClaimed(env, ws, i - 1);
      RunInv(env, ws, i - 1);
      assert StepTo(env, ws[i - 1], ws[i - 1 + 1]);
      ClaimsMove(env, ws[i - 1], ws[i]);
    }
  }

  lemma InitialClaims(w: World)
    requires Initial(w)
    ensures AllClaims(w)
  {
  }

  lemma ClaimsMove(env: Env, w: World, w': World)
    requires WorldInv(w) && AllClaims(w) && StepTo(env, w, w')
    ensures AllClaims(w')
  {
    var step :| WorldEnabled(env, w, step) && WorldNext(env, w, step) == Ok(w');
    ClaimsStep(env, w, step);
  }
}
