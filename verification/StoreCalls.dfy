/** What the methods of `ReplicaStore` ask of the tables holds wherever the network calls them. */
module StoreCalls {
  import opened Common
  import opened Crdt
  import opened StableTree
  import opened Documents
  import opened Replica
  import opened ReplicaSafety
  import opened Network
  import opened NetworkSafety
  import opened NetworkRuns
  import opened NetworkMint
  import opened Convergence

  lemma StableIsClean(w: World, d: nat)
    requires WorldInv(w) && d < |w.daemons|
    ensures var t := w.daemons[d].local.tables;
      Clean(t.stableNs) && UniqueClaims(t.stableTree) && forall x :: x in t.stableNs ==> InWorld(w, Ns(x))
  {
    var t := w.daemons[d].local.tables;
    forall x | x in t.stableNs ensures InWorld(w, Ns(x)) {
      StableHas(t);
      StableInWorld(w, d, Ns(x));
    }
    OneClaimInWorld(w, t.stableNs);
    assert TreeOf(t.stableNs) == Ok(t.stableTree) by { assert DaemonInv(d, w.daemons[d], w.log); }
    TreeFacts(t.stableNs);
  }

  lemma NewIdsClean(w: World, ns: NsDoc, u: NsDoc)
    requires IdsOnce(w) && Clean(ns) && (forall x :: x in ns ==> InWorld(w, Ns(x))) && NewIds(w, NsPart(u))
    ensures Clean(ns + u)
  {
    forall x, y | x in ns + u && y in ns + u && x.fact.AddClaim? && y.fact.AddClaim? && x.fact.claim == y.fact.claim ensures x == y {
      ClaimsMeet(w, ns, u, x, y);
    }
    forall x, y | x in ns + u && y in ns + u && x.fact.AddObject? && y.fact.AddObject? && x.fact.oid == y.fact.oid ensures x == y {
      ObjectsMeet(w, ns, u, x, y);
    }
  }

  lemma ClaimsMeet(w: World, ns: NsDoc, u: NsDoc, x: NsOp, y: NsOp)
    requires Clean(ns) && (forall z :: z in ns ==> InWorld(w, Ns(z))) && NewIds(w, NsPart(u))
    requires x in ns + u && y in ns + u && x.fact.AddClaim? && y.fact.AddClaim? && x.fact.claim == y.fact.claim
    ensures x == y
  {
    assert IsClaim(Ns(x)) && IsClaim(Ns(y));
    if x in u { assert Ns(x) in NsPart(u); }
    if y in u { assert Ns(y) in NsPart(u); }
  }

  lemma ObjectsMeet(w: World, ns: NsDoc, u: NsDoc, x: NsOp, y: NsOp)
    requires Clean(ns) && (forall z :: z in ns ==> InWorld(w, Ns(z))) && NewIds(w, NsPart(u))
    requires x in ns + u && y in ns + u && x.fact.AddObject? && y.fact.AddObject? && x.fact.oid == y.fact.oid
    ensures x == y
  {
    assert IsObject(Ns(x)) && IsObject(Ns(y));
    if x in u { assert Ns(x) in NsPart(u); }
    if y in u { assert Ns(y) in NsPart(u); }
  }

  lemma RemovalIds(w: World, c: nat, n: nat, t: map<Path, PriorRow>, missing: seq<Path>)
    requires forall p :: p in missing ==> p in t
    ensures NewIds(w, NsPart(NsOps(c, n, Removals(t, missing))))
  {
    var u := NsOps(c, n, Removals(t, missing));
    assert forall x :: x in u ==> x.fact.RemoveClaim?;
  }

  /** In every run: batches from the log, removals of tracked files and commits of staged rows with fresh ids. */
  lemma StoreCallsMet(env: Env, ws: seq<World>, i: nat, d: nat)
    requires IsRun(env, ws) && i < |ws| && d < |ws[i].daemons|
    ensures var w := ws[i]; var it := w.daemons[d]; var t := it.local.tables;
      && UniqueClaims(t.stableTree)
      && (forall count {:trigger Batch(w, d, count)} :: 0 <= count && t.cursor + count <= |w.log| ==> Clean(t.stableNs + NsOf(d, Batch(w, d, count))))
      && (forall missing {:trigger Removals(t.priorTree, missing)} :: (forall p :: p in missing ==> p in t.priorTree) ==>
            Clean(t.stableNs + NsOps(it.me.client, NsClock(t.priorNs, it.me.client), Removals(t.priorTree, missing))))
      && (GeneratedFresh(w, t.staged) ==>
            Clean(t.stableNs + NsOps(it.me.client, NsClock(t.priorNs, it.me.client), StagedFacts(it.me, t.staged))))
  {
    var w := ws[i];
    var it := w.daemons[d];
    var t, n := it.local.tables, NsClock(it.local.tables.priorNs, it.me.client);
    RunInv(env, ws, i);
    StableIsClean(w, d);
    forall count | 0 <= count && t.cursor + count <= |w.log| ensures Clean(t.stableNs + NsOf(d, Batch(w, d, count))) {
      BatchInWorld(w, d, count);
    }
    forall missing | forall p :: p in missing ==> p in t.priorTree
      ensures Clean(t.stableNs + NsOps(it.me.client, n, Removals(t.priorTree, missing)))
    {
      RemovalIds(w, it.me.client, n, t.priorTree, missing);
      NewIdsClean(w, t.stableNs, NsOps(it.me.client, n, Removals(t.priorTree, missing)));
    }
    if GeneratedFresh(w, t.staged) {
      assert StagedShape(t.staged) by { assert DaemonInv(d, it, w.log); }
      StagedNewIds(w, it.me, t.staged, n);
      NewIdsClean(w, t.stableNs, NsOps(it.me.client, n, StagedFacts(it.me, t.staged)));
    }
  }
}
