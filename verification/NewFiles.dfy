/** A file the user has created is still there after the round that imports it, with its bytes. */
module NewFiles {
  import opened Common
  import opened Crdt
  import opened Files
  import opened Order
  import opened FileStore
  import opened StableTree
  import opened Documents
  import opened Replica
  import opened ReplicaSafety
  import opened ReplicaSteps
  import opened ProjectionFixpoint
  import opened SelfEcho
  import opened Baseline
  import opened Staging
  import opened QuietRound
  import opened LocalEdits

  /** A reading of a path without a live row, of a file the daemon has no record of writing. */
  predicate IsNew(t: Tables, r: Reading) {
    !IsLive(t.priorTree, r.path) && IntentKey(r.path, r.finger.hash) !in t.applied
  }

  /** Its staged row: a claim of its own, and the whole text of a new object if it reuses none. */
  predicate NewRow(env: Env, stable: Texts, item: Item, row: Staged) {
    && row.path == item.reading.path && !row.kind.Update? && row.claim == item.supply.claim
    && (item.supply.reuse.None? ==>
          && row.kind.New? && row.oid == item.supply.oid && row.update == Some(row.priorDoc) && Doc(stable, row.oid) == {}
          && env.render(row.priorDoc) == item.reading.content)
  }

  ghost predicate HasNewRow(env: Env, stable: Texts, item: Item, staged: seq<Staged>) {
    exists i :: 0 <= i < |staged| && NewRow(env, stable, item, staged[i])
  }

  ghost predicate NewStaged(env: Env, t: Tables, u: Tables, items: seq<Item>) {
    && u.applied.Keys <= t.applied.Keys && u.stableNs == t.stableNs && u.stableText == t.stableText
    && (forall p :: !Touched(items, p) ==> (IsLive(u.priorTree, p) <==> IsLive(t.priorTree, p)))
    && (forall i :: 0 <= i < |items| && IsNew(t, items[i].reading) ==> HasNewRow(env, t.stableText, items[i], u.staged))
  }

  lemma NewRowStays(env: Env, stable: Texts, item: Item, staged: seq<Staged>, row: Staged)
    requires HasNewRow(env, stable, item, staged)
    ensures HasNewRow(env, stable, item, staged + [row])
  {
    var i :| 0 <= i < |staged| && NewRow(env, stable, item, staged[i]);
    assert (staged + [row])[i] == staged[i];
  }

  lemma StagedNewNext(env: Env, t: Tables, u: Tables, items: seq<Item>, item: Item, c: nat)
    requires NewStaged(env, t, u, items) && !Touched(items, item.reading.path)
    requires SupplyOk(env, u, item.reading, item.supply, item.cutoff, c) && Stage(env, u, item.reading, item.supply).Ok?
    ensures NewStaged(env, t, Stage(env, u, item.reading, item.supply).value, items + [item])
  {
    var u', more := Stage(env, u, item.reading, item.supply).value, items + [item];
    forall p | !Touched(more, p) ensures IsLive(u'.priorTree, p) <==> IsLive(t.priorTree, p) { TouchedPush(items, item, p); }
    var row := StagedRow(env, u, item.reading, item.supply);
    forall i | 0 <= i < |more| && IsNew(t, more[i].reading) ensures HasNewRow(env, t.stableText, more[i], u'.staged) {
      if i < |items| {
        assert more[i] == items[i];
        if !IsSelfEcho(u, item.reading) { NewRowStays(env, t.stableText, items[i], u.staged, row); }
      } else {
        RowReads(env, u, item.reading, item.supply, item.cutoff, c);
        assert NewRow(env, t.stableText, item, row) && u'.staged[|u.staged|] == row;
      }
    }
  }

  /** As far as staging has come, each new file has its row. */
  ghost predicate NewWell(env: Env, t: Tables, o: Outcome<Tables>, items: seq<Item>, k: nat)
    requires k <= |items|
  {
    o.Ok? ==> NewStaged(env, t, o.value, items[..k])
  }

  lemma NewWellNext(env: Env, t: Tables, o: Outcome<Tables>, o': Outcome<Tables>, items: seq<Item>, k: nat, c: nat)
    requires OnceEach(items) && k < |items| && NewWell(env, t, o, items, k)
    requires o.Ok? ==> SupplyOk(env, o.value, items[k].reading, items[k].supply, items[k].cutoff, c)
    requires o' == if o.Fault? then Fault else Stage(env, o.value, items[k].reading, items[k].supply)
    ensures NewWell(env, t, o', items, k + 1)
  {
    if o'.Ok? {
      NotTouched(items, k);
      StagedNewNext(env, t, o.value, items[..k], items[k], c);
      assert items[..k] + [items[k]] == items[..k + 1];
    }
  }

  lemma {:induction false} NewFilesStaged(env: Env, t: Tables, items: seq<Item>, k: nat, c: nat)
    requires Reuses(t, items) && OnceEach(items) && Supplied(env, t, items, c) && k <= |items|
    ensures NewWell(env, t, StageAll(env, t, items[..k]), items, k)
  {
    if k == 0 {
      NewWellStart(env, t, items);
    } else {
      StageUnfold(env, t, items, k - 1);
      NewFilesStaged(env, t, items, k - 1, c);
      assert SuppliedAt(env, t, items, k - 1, c);
      NewWellNext(env, t, StageAll(env, t, items[..k - 1]), StageAll(env, t, items[..k]), items, k - 1, c);
    }
  }

  lemma NewWellStart(env: Env, t: Tables, items: seq<Item>)
    ensures NewWell(env, t, Ok(t), items, 0)
  {
    assert items[..0] == [];
  }

  // ---------------------------------------------------------------- committed

  lemma {:induction false} StableAfter(t: Tables, rows: seq<Staged>, i: nat)
    requires StagedShape(rows) && i < |rows|
    ensures var row := rows[i];
      Doc(CommitRows(t, rows).stableText, row.oid) == Doc(t.stableText, row.oid) + if row.update.Some? then row.update.value else {}
  {
    var k := |rows| - 1;
    if i < k {
      StableAfter(t, rows[..k], i);
      assert rows[..k][i] == rows[i];
    } else {
      StableBefore(t, rows[..k], rows[k].oid);
    }
  }

  lemma {:induction false} StableBefore(t: Tables, rows: seq<Staged>, o: ObjectId)
    requires NoRowOf(rows, o)
    ensures Doc(CommitRows(t, rows).stableText, o) == Doc(t.stableText, o)
  {
    if rows != [] {
      var k := |rows| - 1;
      assert forall i :: 0 <= i < k ==> rows[..k][i] == rows[i];
      StableBefore(t, rows[..k], o);
    }
  }

  /** A row that makes the only claim of its path has that path in the tree of the commit. */
  lemma NewRowInTree(me: Me, u: Tables, tx: Tx, i: nat)
    requires ReplicaInv(u, Importing, me.client) && CommitImport(me, u) == Ok(tx) && OneClaimEach(tx.tables.stableNs)
    requires i < |u.staged| && !u.staged[i].kind.Update? && !IsRemoved(u.stableNs, u.staged[i].claim)
    requires forall x :: IsActive(u.stableNs, x) ==> x.fact.path != u.staged[i].path
    ensures var row := u.staged[i];
      row.path in tx.tables.stableTree && tx.tables.stableTree[row.path] == TreeRow(row.path, row.claim, row.oid)
  {
    var row := u.staged[i];
    ImportMeans(me, u, tx);
    ImportTree(me, u, tx);
    var f := AddClaim(row.claim, row.oid, row.path);
    assert FactOf(me, row, f) && FactOfSome(me, u.staged, f);
    var x :| x in tx.tables.stableNs && x !in u.stableNs && x.fact == f;
    assert IsActive(tx.tables.stableNs, x);
    OnlyNewClaims(u.stableNs, tx.tables.stableNs, row.path);
    forall y | IsActive(tx.tables.stableNs, y) && y.fact.path == row.path ensures y.fact.claim == row.claim {
      assert Added(u.stableNs, tx.tables.stableNs, y.fact);
      RowOfPath(me, u.staged, i, y.fact);
    }
    SoleClaimInTree(tx.tables.stableNs, x);
  }

  /** Where nobody had a claim, all claims are new. */
  lemma OnlyNewClaims(before: NsDoc, after: NsDoc, p: Path)
    requires (forall claim :: IsRemoved(after, claim) <==> IsRemoved(before, claim)) && forall x :: IsActive(before, x) ==> x.fact.path != p
    ensures forall y :: IsActive(after, y) && y.fact.path == p ==> y !in before
  {
    assert forall y :: y in before && IsActive(after, y) ==> IsActive(before, y);
  }

  /** The claim of a path that staged rows make is that of the row for the path. */
  lemma RowOfPath(me: Me, staged: seq<Staged>, i: nat, f: NsFact)
    requires StagedShape(staged) && i < |staged| && FactOfSome(me, staged, f) && f.AddClaim? && f.path == staged[i].path
    ensures f.claim == staged[i].claim
  {
    var k :| 0 <= k < |staged| && FactOf(me, staged[k], f);
  }

  lemma NewRowText(env: Env, me: Me, t: Tables, u: Tables, tx: Tx, item: Item, i: nat)
    requires CommitImport(me, u) == Ok(tx) && StagedShape(u.staged) && i < |u.staged|
    requires NewRow(env, t.stableText, item, u.staged[i]) && u.stableText == t.stableText && item.supply.reuse.None?
    ensures env.render(Doc(tx.tables.stableText, u.staged[i].oid)) == item.reading.content
  {
    var tx1 := CommitNamespace(me, u).value;
    StableAfter(tx1.tables, u.staged, i);
    assert {} + u.staged[i].priorDoc == u.staged[i].priorDoc;
  }

  /**
   * A file the user created where nobody claims the path is still on disk when the round is
   * over, and with its own bytes unless it took up the object of a recent tombstone.
   */
  lemma NewFileStays(env: Env, me: Me, h: Versions, t: Tables, d: Disk, missing: seq<Path>, items: seq<Item>, now: int, t1: Tables, staged: Tables, imported: Tables, u: Tables, ps: seq<Path>, fingers: map<Path, Fingerprint>, i: nat)
    requires NoCollision(env.hash) && IntentsFiled(env, t) && t.staged == [] && Recorded(h, d) && PriorTrue(env, h, t.priorTree, t.priorText)
    requires Scanned(env, t, d, missing, items) && ImportRun(env, me, t, missing, items, now, t1, staged, imported) && Supplied(env, t1, items, me.client)
    requires OneLive(imported.priorTree) && SameWork(imported, u)
    requires Distinct(ps) && (forall p :: p in PlanOf(imported) <==> p in ps)
    requires Reported(PlanOf(imported), Execute(env, d, PlanOf(imported), ps).1, fingers)
    requires ReplicaInv(staged, Importing, me.client) && OneClaimEach(imported.stableNs)
    requires i < |items| && IsNew(t1, items[i].reading) && !IsRemoved(t1.stableNs, items[i].supply.claim)
    requires forall x :: IsActive(t1.stableNs, x) ==> x.fact.path != items[i].reading.path
    ensures var p := items[i].reading.path; var d' := Execute(env, d, PlanOf(imported), ps).0;
      p in d'.files && (items[i].supply.reuse.None? ==> d'.files[p].bytes == d.files[p].bytes)
  {
    QuietRoundRenders(env, me, h, t, d, missing, items, now, t1, staged, imported, u, ps, fingers);
    NewInImport(env, me, t, d, missing, items, now, t1, staged, imported, i);
  }

  lemma NewInImport(env: Env, me: Me, t: Tables, d: Disk, missing: seq<Path>, items: seq<Item>, now: int, t1: Tables, staged: Tables, imported: Tables, i: nat)
    requires NoCollision(env.hash) && IntentsFiled(env, t) && t.staged == []
    requires Scanned(env, t, d, missing, items) && ImportRun(env, me, t, missing, items, now, t1, staged, imported) && Supplied(env, t1, items, me.client)
    requires ReplicaInv(staged, Importing, me.client) && OneClaimEach(imported.stableNs)
    requires i < |items| && IsNew(t1, items[i].reading) && !IsRemoved(t1.stableNs, items[i].supply.claim)
    requires forall x :: IsActive(t1.stableNs, x) ==> x.fact.path != items[i].reading.path
    ensures var p := items[i].reading.path;
      && p in imported.stableTree
      && (items[i].supply.reuse.None? ==> env.render(Doc(imported.stableText, imported.stableTree[p].oid)) == d.files[p].bytes)
  {
    assert items[..|items|] == items;
    NewFilesStaged(env, t1, items, |items|, me.client);
    CommittedNew(env, me, t1, staged, imported, items, i);
  }

  lemma CommittedNew(env: Env, me: Me, t: Tables, u: Tables, t': Tables, items: seq<Item>, i: nat)
    requires NewStaged(env, t, u, items) && i < |items| && IsNew(t, items[i].reading) && (exists out :: CommitImport(me, u) == Ok(Tx(t', out)))
    requires ReplicaInv(u, Importing, me.client) && OneClaimEach(t'.stableNs) && !IsRemoved(t.stableNs, items[i].supply.claim)
    requires forall x :: IsActive(t.stableNs, x) ==> x.fact.path != items[i].reading.path
    ensures var p := items[i].reading.path;
      && p in t'.stableTree
      && (items[i].supply.reuse.None? ==> env.render(Doc(t'.stableText, t'.stableTree[p].oid)) == items[i].reading.content)
  {
    var k :| 0 <= k < |u.staged| && NewRow(env, t.stableText, items[i], u.staged[k]);
    var sent :| CommitImport(me, u) == Ok(Tx(t', sent));
    NewRowInTree(me, u, Tx(t', sent), k);
    if items[i].supply.reuse.None? { NewRowText(env, me, t, u, Tx(t', sent), items[i], k); }
  }
}
