/** Removals and imports in runs of the network: what they do to the tree every daemon comes to agree on. */
module LocalEditRuns {
  import opened Common
  import opened Crdt
  import opened StableTree
  import opened Documents
  import opened Replica
  import opened ReplicaSafety
  import opened Network
  import opened NetworkSafety
  import opened Convergence
  import opened StoreCalls
  import opened LocalEdits

  ghost predicate Transacts(env: Env, w: World, d: nat, step: LocalStep, w': World) {
    WorldEnabled(env, w, Transact(d, step)) && WorldNext(env, w, Transact(d, step)) == Ok(w')
  }

  lemma NextIsClean(env: Env, ws: seq<World>, i: nat, d: nat, step: LocalStep, w': World)
    requires IsRun(env, ws) && i < |ws| && Transacts(env, ws[i], d, step, w')
    ensures d < |w'.daemons| && WorldInv(ws[i]) && WorldInv(w')
    ensures OneClaimEach(w'.daemons[d].local.tables.stableNs)
  {
    RunInv(env, ws, i);
    WorldStepSafe(env, ws[i], Transact(d, step));
    StableIsClean(w', d);
  }

  lemma TreeIsOf(w: World, d: nat)
    requires WorldInv(w) && d < |w.daemons|
    ensures var it := w.daemons[d];
      TreeOf(it.local.tables.stableNs) == Ok(it.local.tables.stableTree) && ReplicaInv(it.local.tables, it.local.mode, it.me.client)
  {
    assert DaemonInv(d, w.daemons[d], w.log);
  }

  /** In every run a scan that finds tracked files gone ends exactly their claims and takes their rows out of the tree. */
  lemma DeletedInRun(env: Env, ws: seq<World>, i: nat, d: nat, missing: seq<Path>, now: int, importing: bool, w': World)
    requires IsRun(env, ws) && i < |ws| && Transacts(env, ws[i], d, ApplyScan(missing, now, importing), w')
    ensures d < |w'.daemons|
    ensures var t, t' := ws[i].daemons[d].local.tables, w'.daemons[d].local.tables;
      && (forall x :: IsActive(t'.stableNs, x) <==> IsActive(t.stableNs, x) && forall p :: p in missing ==> x.fact.claim != t.priorTree[p].claim)
      && (forall q, p :: q in t'.stableTree && p in missing ==> t'.stableTree[q].claim != t.priorTree[p].claim)
      && (forall x :: IsActive(t'.stableNs, x) ==> HoldsRow(t'.stableTree, TreeRow(x.fact.path, x.fact.claim, x.fact.owner)))
  {
    NextIsClean(env, ws, i, d, ApplyScan(missing, now, importing), w');
    var me, t := ws[i].daemons[d].me, ws[i].daemons[d].local.tables;
    var tx := LocalDeletes(me, t, missing, now).value;
    TreeIsOf(ws[i], d);
    DeletesMean(me, t, missing, now, tx);
    DeletesInTree(me, t, missing, now, tx);
  }

  /** In every run an import commit gives each file that is new or brought back a claim, and a row in the tree unless that claim was ended before. */
  lemma ImportedInRun(env: Env, ws: seq<World>, i: nat, d: nat, w': World)
    requires IsRun(env, ws) && i < |ws| && Transacts(env, ws[i], d, CommitImportEpoch, w')
    ensures d < |w'.daemons|
    ensures var it := ws[i].daemons[d]; var t, t' := it.local.tables, w'.daemons[d].local.tables;
      && (forall f :: Added(t.stableNs, t'.stableNs, f) <==> FactOfSome(it.me, t.staged, f))
      && (forall k :: 0 <= k < |t.staged| && !t.staged[k].kind.Update? && !IsRemoved(t.stableNs, t.staged[k].claim) ==>
            HoldsRow(t'.stableTree, TreeRow(t.staged[k].path, t.staged[k].claim, t.staged[k].oid)))
  {
    NextIsClean(env, ws, i, d, CommitImportEpoch, w');
    var me, t := ws[i].daemons[d].me, ws[i].daemons[d].local.tables;
    var tx := CommitImport(me, t).value;
    TreeIsOf(ws[i], d);
    ImportMeans(me, t, tx);
    forall k | 0 <= k < |t.staged| && !t.staged[k].kind.Update? && !IsRemoved(t.stableNs, t.staged[k].claim)
      ensures HoldsRow(w'.daemons[d].local.tables.stableTree, TreeRow(t.staged[k].path, t.staged[k].claim, t.staged[k].oid))
    {
      ImportedInTree(me, t, tx, k);
    }
  }
}
