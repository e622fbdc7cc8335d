/** What the daemon's own edits mean: which claims a removal ends, which claims an import makes. */
module LocalEdits {
  import opened Common
  import opened Crdt
  import opened StableTree
  import opened Documents
  import opened Delivery
  import opened Replica
  import opened ReplicaSafety
  import opened ReplicaMint

  lemma OpsAre(c: nat, n: nat, facts: seq<NsFact>)
    ensures forall x :: x in NsOps(c, n, facts) ==> x.fact in facts
    ensures forall f :: f in facts ==> exists x :: x in NsOps(c, n, facts) && x.fact == f
  {
    forall f | f in facts ensures exists x :: x in NsOps(c, n, facts) && x.fact == f {
      var i :| 0 <= i < |facts| && facts[i] == f;
      assert NsOp(c, n + i, facts[i]) in NsOps(c, n, facts);
    }
  }

  // ---------------------------------------------------------------- removals

  /** The claim of a removed file. */
  ghost predicate ClaimGone(prior: map<Path, PriorRow>, missing: seq<Path>, claim: ClaimId) {
    exists p :: p in missing && p in prior && prior[p].claim == claim
  }

  lemma RemovalsAre(t: map<Path, PriorRow>, missing: seq<Path>)
    requires forall p :: p in missing ==> p in t
    ensures forall f: NsFact :: f in Removals(t, missing) <==> f.RemoveClaim? && ClaimGone(t, missing, f.removed)
  {
    var facts := Removals(t, missing);
    forall f: NsFact | f.RemoveClaim? && ClaimGone(t, missing, f.removed) ensures f in facts {
      var p :| p in missing && t[p].claim == f.removed;
      var i :| 0 <= i < |missing| && missing[i] == p;
      assert facts[i] == f;
    }
  }

  /** Adding the removals to a document ends the claims of the removed files and no other. */
  lemma RemovalsEnd(doc: NsDoc, c: nat, n: nat, t: map<Path, PriorRow>, missing: seq<Path>)
    requires forall p :: p in missing ==> p in t
    ensures forall x :: IsActive(doc + NsOps(c, n, Removals(t, missing)), x) <==>
      IsActive(doc, x) && forall p :: p in missing ==> x.fact.claim != t[p].claim
  {
    var facts := Removals(t, missing);
    var u := NsOps(c, n, facts);
    OpsAre(c, n, facts);
    RemovalsAre(t, missing);
    forall claim ensures IsRemoved(doc + u, claim) <==> IsRemoved(doc, claim) || ClaimGone(t, missing, claim) {
      if ClaimGone(t, missing, claim) {
        assert RemoveClaim(claim) in facts;
        var y :| y in u && y.fact == RemoveClaim(claim);
        assert y in doc + u;
      }
    }
  }

  /**
   * A local delete ends exactly the claims prior has at the missing paths, in prior's namespace
   * and in stable's, and leaves recent tombstones at those paths and every other row alone.
   */
  lemma DeletesMean(me: Me, t: Tables, missing: seq<Path>, now: int, tx: Tx)
    requires forall p :: p in missing ==> p in t.priorTree && t.priorTree[p].deletedAt.None?
    requires LocalDeletes(me, t, missing, now) == Ok(tx)
    ensures forall x :: IsActive(tx.tables.stableNs, x) <==>
      IsActive(t.stableNs, x) && forall p :: p in missing ==> x.fact.claim != t.priorTree[p].claim
    ensures forall x :: IsActive(tx.tables.priorNs, x) <==>
      IsActive(t.priorNs, x) && forall p :: p in missing ==> x.fact.claim != t.priorTree[p].claim
    ensures tx.tables.priorTree.Keys == t.priorTree.Keys
    ensures forall p :: p in t.priorTree ==>
      tx.tables.priorTree[p] == if p in missing then t.priorTree[p].(deletedAt := Some(now)) else t.priorTree[p]
    ensures tx.tables.stableText == t.stableText && tx.tables.priorText == t.priorText
  {
    if missing != [] {
      var n := NsClock(t.priorNs, me.client);
      RemovalsEnd(t.stableNs, me.client, n, t.priorTree, missing);
      RemovalsEnd(t.priorNs, me.client, n, t.priorTree, missing);
    }
  }

  /** So the stable tree loses the rows of those claims, and every other claim keeps a row. */
  lemma DeletesInTree(me: Me, t: Tables, missing: seq<Path>, now: int, tx: Tx)
    requires forall p :: p in missing ==> p in t.priorTree && t.priorTree[p].deletedAt.None?
    requires LocalDeletes(me, t, missing, now) == Ok(tx)
    requires TreeOf(t.stableNs) == Ok(t.stableTree) && OneClaimEach(tx.tables.stableNs)
    ensures forall q, p :: q in tx.tables.stableTree && p in missing ==> tx.tables.stableTree[q].claim != t.priorTree[p].claim
    ensures forall x :: IsActive(t.stableNs, x) && (forall p :: p in missing ==> x.fact.claim != t.priorTree[p].claim) ==>
      HoldsRow(tx.tables.stableTree, TreeRow(x.fact.path, x.fact.claim, x.fact.owner))
  {
    DeletesMean(me, t, missing, now, tx);
    TreeRowsAre(tx.tables.stableNs);
    forall q, p | q in tx.tables.stableTree && p in missing ensures tx.tables.stableTree[q].claim != t.priorTree[p].claim {
      assert RowActive(tx.tables.stableNs, tx.tables.stableTree[q]);
    }
  }

  // ---------------------------------------------------------------- deletions that do not last

  /** Stable has an active claim for the object that prior does not name at any of the missing paths. */
  ghost predicate ClaimedOtherwise(t: Tables, missing: seq<Path>, oid: ObjectId) {
    exists x :: IsActive(t.stableNs, x) && x.fact.owner == oid && forall m :: m in missing && m in t.priorTree ==> x.fact.claim != t.priorTree[m].claim
  }

  ghost predicate InTree(tree: Tree, oid: ObjectId) { exists q :: q in tree && tree[q].oid == oid }

  ghost predicate Claims(doc: NsDoc, oid: ObjectId) { exists x :: IsActive(doc, x) && x.fact.owner == oid }

  /** The objects in the tree are those with an active claim. */
  lemma TreeObjects(doc: NsDoc, tree: Tree, oid: ObjectId)
    requires OneClaimEach(doc) && TreeOf(doc) == Ok(tree)
    ensures InTree(tree, oid) <==> Claims(doc, oid)
  {
    TreeRowsAre(doc);
    if q :| q in tree && tree[q].oid == oid { assert RowActive(doc, tree[q]); }
    if x :| IsActive(doc, x) && x.fact.owner == oid { assert HoldsRow(tree, TreeRow(x.fact.path, x.fact.claim, x.fact.owner)); }
  }

  /** The object of a deleted file leaves the stable tree if and only if nothing but the claims of missing files holds it there. */
  lemma DeletionLasts(me: Me, t: Tables, missing: seq<Path>, now: int, tx: Tx, oid: ObjectId)
    requires forall p :: p in missing ==> p in t.priorTree && t.priorTree[p].deletedAt.None?
    requires LocalDeletes(me, t, missing, now) == Ok(tx)
    requires TreeOf(t.stableNs) == Ok(t.stableTree) && OneClaimEach(tx.tables.stableNs)
    ensures InTree(tx.tables.stableTree, oid) <==> ClaimedOtherwise(t, missing, oid)
  {
    TreeObjects(tx.tables.stableNs, tx.tables.stableTree, oid);
    DeletesMean(me, t, missing, now, tx);
    if x :| IsActive(t.stableNs, x) && x.fact.owner == oid && forall m :: m in missing && m in t.priorTree ==> x.fact.claim != t.priorTree[m].claim {
      assert IsActive(tx.tables.stableNs, x);
    }
  }

  /** Removals of claims that are not active leave the tree as it was. */
  lemma TreeUnmoved(a: NsDoc, b: NsDoc)
    requires a <= b && (forall x :: x in b && x !in a ==> x.fact.RemoveClaim?) && OneObjectEach(a)
    requires forall x :: IsActive(b, x) <==> IsActive(a, x)
    ensures TreeOf(b) == TreeOf(a)
  {
    forall o ensures HasObject(b, o) <==> HasObject(a, o) {}
    if Complete(a) {
      forall o | HasObject(a, o) ensures Creator(b, o) == Creator(a, o) {}
      assert ClaimsOf(b) == ClaimsOf(a);
    }
  }

  lemma StaleTreeKept(me: Me, t: Tables, p: Path, now: int, tx: Tx)
    requires IsLive(t.priorTree, p) && LocalDeletes(me, t, [p], now) == Ok(tx)
    requires TreeOf(t.stableNs) == Ok(t.stableTree) && OneObjectEach(t.stableNs)
    requires forall x :: IsActive(t.stableNs, x) ==> x.fact.claim != t.priorTree[p].claim
    ensures tx.tables.stableTree == t.stableTree && tx.tables.stableText == t.stableText && !IsLive(tx.tables.priorTree, p)
  {
    DeletesMean(me, t, [p], now, tx);
    OpsAre(me.client, NsClock(t.priorNs, me.client), Removals(t.priorTree, [p]));
    TreeUnmoved(t.stableNs, tx.tables.stableNs);
    assert p in [p];
  }

  lemma PlannedBack(t: Tables, u: Tables, p: Path)
    requires p in t.stableTree && UpToDate(t, p) && u.stableTree == t.stableTree && u.stableText == t.stableText && !IsLive(u.priorTree, p)
    ensures p !in PlanOf(t)
    ensures p in PlanOf(u) && PlanOf(u)[p] == WriteFile(t.stableTree[p], Doc(t.stableText, t.stableTree[p].oid), None)
  {
  }

  /**
   * A file that was removed and brought back elsewhere under a new claim looks unchanged to
   * planning, so prior keeps the old claim. Deleting the file then removes the claim that is gone
   * already: the tree stays as it was, and the next plan writes the file back.
   */
  lemma StaleDeleteUndone(me: Me, t: Tables, p: Path, now: int, tx: Tx)
    requires IsLive(t.priorTree, p) && LocalDeletes(me, t, [p], now) == Ok(tx)
    requires TreeOf(t.stableNs) == Ok(t.stableTree) && OneObjectEach(t.stableNs)
    requires p in t.stableTree && UpToDate(t, p) && forall x :: IsActive(t.stableNs, x) ==> x.fact.claim != t.priorTree[p].claim
    ensures p !in PlanOf(t)
    ensures tx.tables.stableTree == t.stableTree
    ensures p in PlanOf(tx.tables) && PlanOf(tx.tables)[p] == WriteFile(t.stableTree[p], Doc(t.stableText, t.stableTree[p].oid), None)
  {
    StaleTreeKept(me, t, p, now, tx);
    PlannedBack(t, tx.tables, p);
  }

  /**
   * How that comes about: one update from another daemon, which removes the claim prior names and
   * claims the same path for the same object anew.
   */
  lemma ReclaimedElsewhere(me: nat, t: Tables, first: nat, r: Record, u: Tables, p: Path, gone: NsOp, again: NsOp)
    requires r.origin != me && r.entry.msg == NamespaceUpdate({gone, again}) && ApplyBatch(me, t, first, [r]) == Ok(u)
    requires p in t.stableTree && UpToDate(t, p) && gone.fact == RemoveClaim(t.priorTree[p].claim)
    requires again.fact.AddClaim? && again.fact.owner == t.priorTree[p].oid && again.fact.path == p
    requires OneClaimEach(u.stableNs) && !IsRemoved(u.stableNs, again.fact.claim) && OnlyClaim(u.stableNs, p, again.fact.claim)
    ensures p in u.stableTree && UpToDate(u, p) && forall x :: IsActive(u.stableNs, x) ==> x.fact.claim != u.priorTree[p].claim
  {
    assert [r][..0] == [] && NsOf(me, [r]) == {gone, again} && TextsOf(me, t.stableText, [r]) == t.stableText;
    assert [r][0] == r && HasNs(me, [r]);
    assert gone in u.stableNs && again in u.stableNs;
    SoleClaimInTree(u.stableNs, again);
  }

  // ---------------------------------------------------------------- imports

  /** What a staged row puts into the namespace: an object if it is new, a claim unless it is an update. */
  predicate FactOf(me: Me, row: Staged, f: NsFact) {
    || (row.kind.New? && f == AddObject(row.oid, Text, me.writer))
    || (!row.kind.Update? && f == AddClaim(row.claim, row.oid, row.path))
  }

  ghost predicate FactOfSome(me: Me, staged: seq<Staged>, f: NsFact) { exists i :: 0 <= i < |staged| && FactOf(me, staged[i], f) }

  lemma {:induction false} StagedFactsAre(me: Me, staged: seq<Staged>, f: NsFact)
    ensures f in StagedFacts(me, staged) <==> FactOfSome(me, staged, f)
  {
    if staged != [] {
      var k := |staged| - 1;
      StagedFactsAre(me, staged[..k], f);
      if FactOfSome(me, staged[..k], f) {
        var i :| 0 <= i < k && FactOf(me, staged[..k][i], f);
        assert FactOf(me, staged[i], f);
      }
      if FactOfSome(me, staged, f) && !FactOf(me, staged[k], f) {
        var i :| 0 <= i < |staged| && FactOf(me, staged[i], f);
        assert FactOf(me, staged[..k][i], f);
      }
    }
  }

  /** The namespace facts `b` has beyond `a`. */
  ghost predicate Added(a: NsDoc, b: NsDoc, f: NsFact) { exists x :: x in b && x !in a && x.fact == f }

  lemma {:induction false} CommitKeepsTree(t: Tables, rows: seq<Staged>)
    ensures CommitRows(t, rows).stableTree == t.stableTree && CommitRows(t, rows).priorNs == t.priorNs
    ensures CommitRows(t, rows).stableNs == t.stableNs
  {
    if rows != [] { CommitKeepsTree(t, rows[..|rows| - 1]); }
  }

  /** No staged row but updates: no namespace facts. */
  lemma NoFacts(me: Me, staged: seq<Staged>)
    requires !NamespaceChanged(staged)
    ensures forall f :: !FactOfSome(me, staged, f)
  {
  }

  /** New operations have clocks the document does not have yet. */
  lemma OpsAreNew(prior: NsDoc, stable: NsDoc, c: nat, facts: seq<NsFact>, x: NsOp)
    requires NsUnder(prior, stable, c) && NsCounted(stable, c) && x in NsOps(c, NsClock(prior, c), facts)
    ensures x !in stable
  {
    var n := LocalNsClock(stable, prior, c);
    assert x.client == c && x.clock >= n;
    assert forall y :: y in stable && y.client == c ==> y.clock < n;
  }

  /**
   * An import adds to the namespace exactly an object for each new file and a claim of its path
   * for each file that is new or brought back, to prior's and to stable's, and ends no claim.
   */
  lemma ImportMeans(me: Me, t: Tables, tx: Tx)
    requires ReplicaInv(t, Importing, me.client) && CommitImport(me, t) == Ok(tx)
    ensures t.stableNs <= tx.tables.stableNs && forall f :: Added(t.stableNs, tx.tables.stableNs, f) <==> FactOfSome(me, t.staged, f)
    ensures t.priorNs <= tx.tables.priorNs && forall f :: Added(t.priorNs, tx.tables.priorNs, f) <==> FactOfSome(me, t.staged, f)
    ensures forall claim :: IsRemoved(tx.tables.stableNs, claim) <==> IsRemoved(t.stableNs, claim)
  {
    var tx1, c := CommitNamespace(me, t).value, me.client;
    CommitKeepsTree(tx1.tables, t.staged);
    if NamespaceChanged(t.staged) {
      var facts := StagedFacts(me, t.staged);
      ImportOps(me, t, facts, t.stableNs);
      ImportOps(me, t, facts, t.priorNs);
    } else {
      NoFacts(me, t.staged);
    }
  }

  lemma ImportOps(me: Me, t: Tables, facts: seq<NsFact>, base: NsDoc)
    requires NsUnder(t.priorNs, t.stableNs, me.client) && NsCounted(t.stableNs, me.client) && facts == StagedFacts(me, t.staged) && base <= t.stableNs
    ensures var after := base + NsOps(me.client, NsClock(t.priorNs, me.client), facts);
      && (forall f :: Added(base, after, f) <==> FactOfSome(me, t.staged, f))
      && (forall claim :: IsRemoved(after, claim) <==> IsRemoved(base, claim))
  {
    var n := NsClock(t.priorNs, me.client);
    var u := NsOps(me.client, n, facts);
    OpsAre(me.client, n, facts);
    forall f ensures Added(base, base + u, f) <==> FactOfSome(me, t.staged, f) {
      StagedFactsAre(me, t.staged, f);
      if f in facts {
        var x :| x in u && x.fact == f;
        OpsAreNew(t.priorNs, t.stableNs, me.client, facts, x);
        assert x in base + u && x !in base;
      }
    }
    forall claim ensures IsRemoved(base + u, claim) <==> IsRemoved(base, claim) {
      if y :| y in u && y.fact.RemoveClaim? { StagedFactsAre(me, t.staged, y.fact); }
    }
  }

  /** So each of those files has a row of its own in the stable tree, unless its claim was ended before. */
  lemma ImportedInTree(me: Me, t: Tables, tx: Tx, i: nat)
    requires ReplicaInv(t, Importing, me.client) && CommitImport(me, t) == Ok(tx) && OneClaimEach(tx.tables.stableNs)
    requires i < |t.staged| && !t.staged[i].kind.Update? && !IsRemoved(t.stableNs, t.staged[i].claim)
    ensures HoldsRow(tx.tables.stableTree, TreeRow(t.staged[i].path, t.staged[i].claim, t.staged[i].oid))
  {
    var row := t.staged[i];
    ImportMeans(me, t, tx);
    ImportTree(me, t, tx);
    assert FactOf(me, row, AddClaim(row.claim, row.oid, row.path)) && FactOfSome(me, t.staged, AddClaim(row.claim, row.oid, row.path));
    var x :| x in tx.tables.stableNs && x !in t.stableNs && x.fact == AddClaim(row.claim, row.oid, row.path);
    assert IsActive(tx.tables.stableNs, x);
    TreeRowsAre(tx.tables.stableNs);
  }

  lemma ImportTree(me: Me, t: Tables, tx: Tx)
    requires ReplicaInv(t, Importing, me.client) && CommitImport(me, t) == Ok(tx)
    ensures TreeOf(tx.tables.stableNs) == Ok(tx.tables.stableTree)
  {
    CommitKeepsTree(CommitNamespace(me, t).value.tables, t.staged);
  }

  /** The only namespace message of an import is that update, and there is one only if some row is not an update. */
  lemma ImportMessages(me: Me, t: Tables, tx: Tx)
    requires CommitImport(me, t) == Ok(tx)
    ensures forall i :: 0 <= i < |tx.out| && tx.out[i].NamespaceUpdate? ==> i == 0 && !AllUpdates(t.staged)
    ensures forall i :: 0 <= i < |tx.out| && tx.out[i].TextObjectUpdate? ==> SomeEdit(t.staged, tx.out[i])
  {
    TextsAre(t.staged);
    var ns := CommitNamespace(me, t).value.out;
    assert |ns| <= 1 && (ns != [] ==> ns[0].NamespaceUpdate? && !AllUpdates(t.staged));
    MessagesAre(t.staged, ns, TextMessages(t.staged));
  }

  lemma MessagesAre(staged: seq<Staged>, ns: seq<Message>, texts: seq<Message>)
    requires |ns| <= 1 && (ns != [] ==> ns[0].NamespaceUpdate? && !AllUpdates(staged))
    requires forall i :: 0 <= i < |texts| ==> texts[i].TextObjectUpdate? && SomeEdit(staged, texts[i])
    ensures var out := ns + texts;
      && (forall i :: 0 <= i < |out| && out[i].NamespaceUpdate? ==> i == 0 && !AllUpdates(staged))
      && (forall i :: 0 <= i < |out| && out[i].TextObjectUpdate? ==> SomeEdit(staged, out[i]))
  {
    var out := ns + texts;
    forall i | 0 <= i < |out| ensures out[i] == if i < |ns| then ns[i] else texts[i - |ns|] {}
  }

  predicate AllUpdates(staged: seq<Staged>) { forall i :: 0 <= i < |staged| ==> staged[i].kind.Update? }

  /** The message is the edit of some staged row. */
  predicate SomeEdit(rows: seq<Staged>, m: Message)
    requires m.TextObjectUpdate?
  {
    exists k :: 0 <= k < |rows| && rows[k].update == Some(m.textOps) && rows[k].oid == m.oid
  }

  lemma {:induction false} TextsAre(rows: seq<Staged>)
    ensures forall i :: 0 <= i < |TextMessages(rows)| ==> TextMessages(rows)[i].TextObjectUpdate? && SomeEdit(rows, TextMessages(rows)[i])
  {
    if rows != [] {
      var k := |rows| - 1;
      TextsAre(rows[..k]);
      var before, all := TextMessages(rows[..k]), TextMessages(rows);
      forall i | 0 <= i < |all| ensures all[i].TextObjectUpdate? && SomeEdit(rows, all[i]) {
        if i < |before| {
          assert all[i] == before[i] && SomeEdit(rows[..k], before[i]);
          var j :| 0 <= j < k && rows[..k][j].update == Some(before[i].textOps) && rows[..k][j].oid == before[i].oid;
          assert rows[j] == rows[..k][j];
        } else {
          assert all[i] == TextObjectUpdate(rows[k].oid, rows[k].update.value);
        }
      }
    }
  }
}
