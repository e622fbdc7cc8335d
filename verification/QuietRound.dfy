/**
 * A round without user edits: a full import makes prior agree with the disk, and the
 * projection after it makes the disk exactly what stable says.
 */
module QuietRound {
  import opened Common
  import opened Crdt
  import opened Order
  import opened Files
  import opened FileStore
  import opened Replica
  import opened ReplicaSafety
  import opened ReplicaSteps
  import opened Projection
  import opened ProjectionSafety
  import opened ProjectionFixpoint
  import opened SelfEcho
  import opened EchoRuns
  import opened Baseline
  import opened Staging

  // ---------------------------------------------------------------- what a full scan finds

  /** `apply_scan` reads the files whose stat is not the one of a live row. */
  predicate Changed(prior: map<Path, PriorRow>, d: Disk, p: Path) {
    p in d.files && !(IsLive(prior, p) && prior[p].finger.stat == StatOf(d.files[p]))
  }

  /** The live paths that are gone, and a reading of each changed file as it is on disk. */
  ghost predicate Scanned(env: Env, t: Tables, d: Disk, missing: seq<Path>, items: seq<Item>) {
    && (forall p :: p in missing <==> IsLive(t.priorTree, p) && p !in d.files)
    && OnceEach(items) && (forall i :: 0 <= i < |items| ==> ReadOf(env, d, items[i].reading))
    && (forall i :: 0 <= i < |items| ==> Changed(t.priorTree, d, items[i].reading.path))
    && (forall p :: Changed(t.priorTree, d, p) ==> ItemFor(items, p))
  }

  ghost predicate ItemFor(items: seq<Item>, p: Path) { exists i :: 0 <= i < |items| && items[i].reading.path == p }

  predicate ReadOf(env: Env, d: Disk, r: Reading) {
    r.path in d.files && r.finger == FingerOf(env.hash, d.files[r.path]) && r.content == d.files[r.path].bytes
  }

  // ---------------------------------------------------------------- staging the readings

  /** The reading has its staged row, or its path was realigned with stable. */
  ghost predicate Handled(env: Env, u: Tables, r: Reading) { HasRow(env, u.staged, r) || Realigned(env, u, r) }

  ghost predicate HasRow(env: Env, staged: seq<Staged>, r: Reading) {
    exists i :: 0 <= i < |staged| && staged[i].path == r.path && staged[i].finger == r.finger && env.render(staged[i].priorDoc) == r.content
  }

  predicate Realigned(env: Env, u: Tables, r: Reading) {
    && IsLive(u.priorTree, r.path) && u.priorTree[r.path].finger == r.finger
    && r.path in u.stableTree && u.priorTree[r.path].oid == u.stableTree[r.path].oid
    && Doc(u.priorText, u.priorTree[r.path].oid) == Doc(u.stableText, u.priorTree[r.path].oid)
    && env.render(Doc(u.priorText, u.priorTree[r.path].oid)) == r.content
  }

  predicate Touched(items: seq<Item>, p: Path) { exists i :: 0 <= i < |items| && items[i].reading.path == p }

  /** The row is that of one of the readings. */
  ghost predicate RowFrom(env: Env, items: seq<Item>, row: Staged) {
    exists i :: 0 <= i < |items| && items[i].reading.path == row.path && items[i].reading.finger == row.finger
      && env.render(row.priorDoc) == items[i].reading.content
  }

  /** The path was realigned and gave the object its text. */
  predicate RealignedTo(u: Tables, o: ObjectId, p: Path) {
    IsLive(u.priorTree, p) && u.priorTree[p].oid == o && NoRowFor(u.staged, p) && Doc(u.priorText, o) == Doc(u.stableText, o)
  }

  /** An object's text is what it was, or a realigned path gave it. */
  ghost predicate TextKept(t: Tables, u: Tables, items: seq<Item>, o: ObjectId) {
    Doc(u.priorText, o) == Doc(t.priorText, o) || exists p :: Touched(items, p) && RealignedTo(u, o, p)
  }

  /** `u` is `t` with the readings staged. */
  ghost predicate Underway(env: Env, t: Tables, u: Tables, items: seq<Item>) {
    && u.stableTree == t.stableTree && u.stableText == t.stableText && IntentsFiled(env, u) && StagedShape(u.staged)
    && (forall i :: 0 <= i < |items| ==> Handled(env, u, items[i].reading))
    && (forall i :: 0 <= i < |u.staged| ==> RowFrom(env, items, u.staged[i]))
    && (forall p :: !Touched(items, p) ==> RowKept(t.priorTree, u.priorTree, p))
    && (forall o :: TextKept(t, u, items, o))
  }

  lemma TouchedPush(items: seq<Item>, item: Item, p: Path)
    ensures Touched(items + [item], p) <==> Touched(items, p) || p == item.reading.path
  {
    var more := items + [item];
    if i :| 0 <= i < |items| && items[i].reading.path == p { assert more[i] == items[i]; }
    assert more[|items|] == item;
  }

  lemma RowFromPush(env: Env, items: seq<Item>, item: Item, row: Staged)
    requires RowFrom(env, items, row)
    ensures RowFrom(env, items + [item], row)
  {
    var i :| 0 <= i < |items| && items[i].reading.path == row.path && items[i].reading.finger == row.finger
      && env.render(row.priorDoc) == items[i].reading.content;
    assert (items + [item])[i] == items[i];
  }

  // ---- an echo

  lemma HandledAfterEcho(env: Env, u: Tables, r: Reading, q: Reading)
    requires IsSelfEcho(u, r) && Handled(env, u, q) && q.path != r.path
    ensures Handled(env, Realign(u, r), q)
  {
  }

  lemma EchoHandled(env: Env, u: Tables, r: Reading)
    requires IsSelfEcho(u, r) && IntentsFiled(env, u) && NoCollision(env.hash) && r.finger.hash == env.hash(r.content)
    ensures Handled(env, Realign(u, r), r)
  {
    EchoReads(env, u, r);
  }

  lemma TextAfterEcho(t: Tables, u: Tables, items: seq<Item>, item: Item, o: ObjectId)
    requires IsSelfEcho(u, item.reading) && TextKept(t, u, items, o) && !Touched(items, item.reading.path) && NoRowFor(u.staged, item.reading.path)
    ensures TextKept(t, Realign(u, item.reading), items + [item], o)
  {
    var u', r := Realign(u, item.reading), item.reading;
    if u'.priorTree[r.path].oid == o {
      TouchedPush(items, item, r.path);
      assert RealignedTo(u', o, r.path);
    } else if p :| Touched(items, p) && RealignedTo(u, o, p) {
      TouchedPush(items, item, p);
      assert RealignedTo(u', o, p);
    }
  }

  lemma NoRowYet(env: Env, items: seq<Item>, staged: seq<Staged>, p: Path)
    requires (forall i :: 0 <= i < |staged| ==> RowFrom(env, items, staged[i])) && !Touched(items, p)
    ensures NoRowFor(staged, p)
  {
  }

  lemma UnderwayEcho(env: Env, t: Tables, u: Tables, items: seq<Item>, item: Item)
    requires Underway(env, t, u, items) && IsSelfEcho(u, item.reading) && !Touched(items, item.reading.path)
    requires NoCollision(env.hash) && item.reading.finger.hash == env.hash(item.reading.content)
    ensures Underway(env, t, Realign(u, item.reading), items + [item])
  {
    var u', more := Realign(u, item.reading), items + [item];
    NoRowYet(env, items, u.staged, item.reading.path);
    forall i | 0 <= i < |more| ensures Handled(env, u', more[i].reading) {
      if i < |items| {
        assert more[i] == items[i] && Touched(items, items[i].reading.path);
        HandledAfterEcho(env, u, item.reading, items[i].reading);
      } else {
        EchoHandled(env, u, item.reading);
      }
    }
    forall i | 0 <= i < |u'.staged| ensures RowFrom(env, more, u'.staged[i]) { RowFromPush(env, items, item, u.staged[i]); }
    forall p | !Touched(more, p) ensures RowKept(t.priorTree, u'.priorTree, p) {
      TouchedPush(items, item, p);
      assert RowKept(t.priorTree, u.priorTree, p);
    }
    forall o ensures TextKept(t, u', more, o) { TextAfterEcho(t, u, items, item, o); }
  }

  // ---- a row

  lemma HandledAfterRow(env: Env, u: Tables, row: Staged, q: Reading)
    requires Handled(env, u, q)
    ensures Handled(env, u.(staged := u.staged + [row]), q)
  {
    if HasRow(env, u.staged, q) {
      var i :| 0 <= i < |u.staged| && u.staged[i].path == q.path && u.staged[i].finger == q.finger && env.render(u.staged[i].priorDoc) == q.content;
      assert (u.staged + [row])[i] == u.staged[i];
    }
  }

  lemma TextAfterRow(t: Tables, u: Tables, row: Staged, items: seq<Item>, item: Item, o: ObjectId)
    requires TextKept(t, u, items, o) && !Touched(items, item.reading.path) && row.path == item.reading.path
    ensures TextKept(t, u.(staged := u.staged + [row]), items + [item], o)
  {
    var u' := u.(staged := u.staged + [row]);
    if p :| Touched(items, p) && RealignedTo(u, o, p) {
      TouchedPush(items, item, p);
      assert RealignedTo(u', o, p);
    }
  }

  lemma UnderwayRow(env: Env, t: Tables, u: Tables, items: seq<Item>, item: Item, row: Staged)
    requires Underway(env, t, u, items) && !Touched(items, item.reading.path) && CanInsert(u.staged, row)
    requires row.path == item.reading.path && row.finger == item.reading.finger && env.render(row.priorDoc) == item.reading.content
    ensures Underway(env, t, u.(staged := u.staged + [row]), items + [item])
  {
    var u', more := u.(staged := u.staged + [row]), items + [item];
    assert more[|items|] == item && u'.staged[|u.staged|] == row;
    forall i | 0 <= i < |more| ensures Handled(env, u', more[i].reading) {
      if i < |items| { HandledAfterRow(env, u, row, items[i].reading); }
    }
    forall i | 0 <= i < |u'.staged| ensures RowFrom(env, more, u'.staged[i]) {
      if i < |u.staged| { RowFromPush(env, items, item, u.staged[i]); }
    }
    forall p | !Touched(more, p) ensures RowKept(t.priorTree, u'.priorTree, p) { TouchedPush(items, item, p); }
    forall o ensures TextKept(t, u', more, o) { TextAfterRow(t, u, row, items, item, o); }
  }

  // ---- all of them

  /** Every reading is staged with what the foreign code owes it. */
  ghost predicate Supplied(env: Env, t: Tables, items: seq<Item>, c: nat)
    requires Reuses(t, items)
  {
    forall k :: 0 <= k < |items| ==> SuppliedAt(env, t, items, k, c)
  }

  ghost predicate SuppliedAt(env: Env, t: Tables, items: seq<Item>, k: nat, c: nat)
    requires Reuses(t, items) && k < |items|
  {
    var before := StageAll(env, t, items[..k]);
    before.Ok? ==> SupplyOk(env, before.value, items[k].reading, items[k].supply, items[k].cutoff, c)
  }

  /** As far as staging has come, it has gone well. */
  ghost predicate Well(env: Env, t: Tables, o: Outcome<Tables>, items: seq<Item>, k: nat)
    requires k <= |items|
  {
    o.Ok? ==> Underway(env, t, o.value, items[..k])
  }

  lemma {:induction false} StagedWell(env: Env, t: Tables, items: seq<Item>, d: Disk, k: nat, c: nat)
    requires NoCollision(env.hash) && IntentsFiled(env, t) && t.staged == [] && Reuses(t, items) && OnceEach(items) && Supplied(env, t, items, c)
    requires (forall i :: 0 <= i < |items| ==> ReadOf(env, d, items[i].reading)) && k <= |items|
    ensures Well(env, t, StageAll(env, t, items[..k]), items, k)
  {
    if k == 0 {
      WellStart(env, t, items);
    } else {
      StageUnfold(env, t, items, k - 1);
      StagedWell(env, t, items, d, k - 1, c);
      assert SuppliedAt(env, t, items, k - 1, c);
      WellNext(env, t, StageAll(env, t, items[..k - 1]), StageAll(env, t, items[..k]), items, d, k - 1, c);
    }
  }

  lemma WellStart(env: Env, t: Tables, items: seq<Item>)
    requires t.staged == [] && IntentsFiled(env, t)
    ensures Well(env, t, Ok(t), items, 0)
  {
    assert items[..0] == [];
    UnderwayStart(env, t);
  }

  lemma WellNext(env: Env, t: Tables, o: Outcome<Tables>, o': Outcome<Tables>, items: seq<Item>, d: Disk, k: nat, c: nat)
    requires NoCollision(env.hash) && OnceEach(items) && k < |items| && ReadOf(env, d, items[k].reading) && Well(env, t, o, items, k)
    requires o.Ok? ==> SupplyOk(env, o.value, items[k].reading, items[k].supply, items[k].cutoff, c)
    requires o' == if o.Fault? then Fault else Stage(env, o.value, items[k].reading, items[k].supply)
    ensures Well(env, t, o', items, k + 1)
  {
    if o'.Ok? {
      NotTouched(items, k);
      StagedNext(env, t, o.value, items[..k], items[k], c);
      assert items[..k] + [items[k]] == items[..k + 1];
    }
  }

  lemma UnderwayStart(env: Env, t: Tables)
    requires t.staged == [] && IntentsFiled(env, t)
    ensures Underway(env, t, t, [])
  {
  }

  lemma NotTouched(items: seq<Item>, k: nat)
    requires OnceEach(items) && k < |items|
    ensures !Touched(items[..k], items[k].reading.path)
  {
    forall i | 0 <= i < k ensures items[..k][i].reading.path != items[k].reading.path { assert items[..k][i] == items[i]; }
  }

  lemma StagedNext(env: Env, t: Tables, u: Tables, items: seq<Item>, item: Item, c: nat)
    requires Underway(env, t, u, items) && NoCollision(env.hash) && !Touched(items, item.reading.path)
    requires item.reading.finger.hash == env.hash(item.reading.content)
    requires SupplyOk(env, u, item.reading, item.supply, item.cutoff, c) && Stage(env, u, item.reading, item.supply).Ok?
    ensures Underway(env, t, Stage(env, u, item.reading, item.supply).value, items + [item])
  {
    if IsSelfEcho(u, item.reading) {
      UnderwayEcho(env, t, u, items, item);
    } else {
      RowReads(env, u, item.reading, item.supply, item.cutoff, c);
      UnderwayRow(env, t, u, items, item, StagedRow(env, u, item.reading, item.supply));
    }
  }

  // ---------------------------------------------------------------- prior after the import

  /** On a disk where every live path is present, those a scan leaves unread are what prior says. */
  lemma UnreadAgrees(env: Env, h: Versions, t: Tables, d: Disk, p: Path)
    requires Recorded(h, d) && PriorTrue(env, h, t.priorTree, t.priorText) && IsLive(t.priorTree, p) && p in d.files && !Changed(t.priorTree, d, p)
    ensures FingerOf(env.hash, d.files[p]) == t.priorTree[p].finger && d.files[p].bytes == env.render(Doc(t.priorText, t.priorTree[p].oid))
  {
    StatNamesContent(env.hash, h, d, p, t.priorTree[p].finger);
  }

  /** The disk is what prior says at the path. */
  predicate AgreesAt(env: Env, t: Tables, d: Disk, p: Path) {
    && IsLive(t.priorTree, p) && p in d.files && FingerOf(env.hash, d.files[p]) == t.priorTree[p].finger
    && d.files[p].bytes == env.render(Doc(t.priorText, t.priorTree[p].oid))
  }

  lemma RowAgrees(env: Env, d: Disk, items: seq<Item>, row: Staged, t': Tables)
    requires RowFrom(env, items, row) && RowDone(row, t') && forall i :: 0 <= i < |items| ==> ReadOf(env, d, items[i].reading)
    ensures AgreesAt(env, t', d, row.path)
  {
  }

  lemma EchoAgrees(env: Env, d: Disk, u: Tables, r: Reading, t': Tables)
    requires Realigned(env, u, r) && ReadOf(env, d, r) && NoRowFor(u.staged, r.path) && RowsDone(u, u.staged, t') && OneLive(t'.priorTree)
    ensures AgreesAt(env, t', d, r.path)
  {
    assert RowKept(u.priorTree, t'.priorTree, r.path);
    OtherRows(t', u.staged, r.path);
  }

  /** The object of a live path nobody read was not realigned elsewhere. */
  lemma NobodyElse(u: Tables, items: seq<Item>, t': Tables, o: ObjectId, p: Path)
    requires RowsDone(u, u.staged, t') && OneLive(t'.priorTree) && IsLive(t'.priorTree, p) && t'.priorTree[p].oid == o && !Touched(items, p)
    ensures forall q :: Touched(items, q) ==> !RealignedTo(u, o, q)
  {
    assert forall q :: NoRowFor(u.staged, q) ==> RowKept(u.priorTree, t'.priorTree, q);
  }

  lemma UntouchedAgrees(env: Env, h: Versions, d: Disk, t: Tables, u: Tables, items: seq<Item>, t': Tables, p: Path)
    requires Underway(env, t, u, items) && RowsDone(u, u.staged, t') && OneLive(t'.priorTree)
    requires Recorded(h, d) && PriorTrue(env, h, t.priorTree, t.priorText) && IsLive(t.priorTree, p) && p in d.files
    requires !Changed(t.priorTree, d, p) && !Touched(items, p)
    ensures AgreesAt(env, t', d, p)
  {
    UnreadAgrees(env, h, t, d, p);
    NoRowYet(env, items, u.staged, p);
    assert RowKept(t.priorTree, u.priorTree, p) && RowKept(u.priorTree, t'.priorTree, p);
    OtherRows(t', u.staged, p);
    var o := t.priorTree[p].oid;
    NobodyElse(u, items, t', o, p);
    assert TextKept(t, u, items, o);
  }

  /** `t'` is what the import leaves of `t`, by way of the staged tables `u`. */
  ghost predicate Imported(env: Env, t: Tables, u: Tables, items: seq<Item>, t': Tables) {
    Underway(env, t, u, items) && RowsDone(u, u.staged, t')
  }

  lemma FileAgrees(env: Env, h: Versions, d: Disk, t: Tables, u: Tables, items: seq<Item>, t': Tables, p: Path)
    requires Imported(env, t, u, items, t') && OneLive(t'.priorTree) && Recorded(h, d) && PriorTrue(env, h, t.priorTree, t.priorText)
    requires forall i :: 0 <= i < |items| ==> ReadOf(env, d, items[i].reading)
    requires p in d.files && (Changed(t.priorTree, d, p) <==> Touched(items, p))
    ensures AgreesAt(env, t', d, p)
  {
    if Touched(items, p) {
      var i :| 0 <= i < |items| && items[i].reading.path == p;
      var r := items[i].reading;
      assert Handled(env, u, r);
      if k :| 0 <= k < |u.staged| && u.staged[k].path == p {
        assert RowDone(u.staged[k], t');
        RowAgrees(env, d, items, u.staged[k], t');
      } else {
        EchoAgrees(env, d, u, r, t');
      }
    } else {
      UntouchedAgrees(env, h, d, t, u, items, t', p);
    }
  }

  /** A path that is live after the import was live before, or was read. */
  lemma LiveIsOnDisk(env: Env, d: Disk, t: Tables, u: Tables, items: seq<Item>, t': Tables, p: Path)
    requires Imported(env, t, u, items, t') && (forall i :: 0 <= i < |items| ==> ReadOf(env, d, items[i].reading))
    requires (forall q :: IsLive(t.priorTree, q) ==> q in d.files) && IsLive(t'.priorTree, p)
    ensures p in d.files
  {
    if !Touched(items, p) {
      NoRowYet(env, items, u.staged, p);
      assert RowKept(t.priorTree, u.priorTree, p) && RowKept(u.priorTree, t'.priorTree, p);
    }
  }

  // ---------------------------------------------------------------- the import

  lemma RemovedIs(env: Env, me: Me, t: Tables, d: Disk, missing: seq<Path>, items: seq<Item>, now: int)
    requires Scanned(env, t, d, missing, items) && LocalDeletes(me, t, missing, now).Ok?
    ensures var t1 := LocalDeletes(me, t, missing, now).value.tables;
      && (forall p :: IsLive(t1.priorTree, p) <==> IsLive(t.priorTree, p) && p in d.files)
      && (forall p :: IsLive(t1.priorTree, p) ==> t1.priorTree[p] == t.priorTree[p])
      && t1.priorTree.Keys == t.priorTree.Keys && t1.priorText == t.priorText && t1.staged == t.staged && t1.intents == t.intents
  {
    assert forall p :: p in PathSet(missing) <==> p in missing;
  }

  lemma ChangedStays(env: Env, t: Tables, t1: Tables, d: Disk, missing: seq<Path>, items: seq<Item>, p: Path)
    requires Scanned(env, t, d, missing, items)
    requires (forall q :: IsLive(t1.priorTree, q) <==> IsLive(t.priorTree, q) && q in d.files)
    requires forall q :: IsLive(t1.priorTree, q) ==> t1.priorTree[q] == t.priorTree[q]
    ensures p in d.files ==> (Changed(t1.priorTree, d, p) <==> Touched(items, p))
  {
    assert p in d.files ==> (Changed(t1.priorTree, d, p) <==> Changed(t.priorTree, d, p));
    if Changed(t.priorTree, d, p) { assert ItemFor(items, p); }
  }

  /** The round's own conditions: nothing is staged, prior is true of its files, and each reading is supplied. */
  ghost predicate ReadyToImport(env: Env, me: Me, h: Versions, t: Tables, d: Disk, missing: seq<Path>, items: seq<Item>, now: int) {
    && NoCollision(env.hash) && IntentsFiled(env, t) && t.staged == [] && Recorded(h, d) && PriorTrue(env, h, t.priorTree, t.priorText)
    && Scanned(env, t, d, missing, items) && Reuses(t, items)
    && (LocalDeletes(me, t, missing, now).Ok? ==>
          Reuses(LocalDeletes(me, t, missing, now).value.tables, items) && Supplied(env, LocalDeletes(me, t, missing, now).value.tables, items, me.client))
  }

  /** One full import: removals, every reading staged, and the commit. */
  ghost predicate ImportRun(env: Env, me: Me, t: Tables, missing: seq<Path>, items: seq<Item>, now: int, t1: Tables, u: Tables, t': Tables)
    requires forall p :: p in missing ==> p in t.priorTree && t.priorTree[p].deletedAt.None?
  {
    && (exists out :: LocalDeletes(me, t, missing, now) == Ok(Tx(t1, out)))
    && Reuses(t1, items) && StageAll(env, t1, items) == Ok(u)
    && (exists out :: CommitImport(me, u) == Ok(Tx(t', out)))
  }

  lemma CommittedRows(me: Me, u: Tables, t': Tables, out: seq<Message>)
    requires CommitImport(me, u) == Ok(Tx(t', out)) && StagedShape(u.staged)
    ensures RowsDone(u, u.staged, t') && t'.staged == []
  {
    var tx := CommitNamespace(me, u).value;
    CommitDone(tx.tables, u.staged);
  }

  /**
   * A full import that nobody disturbs: it reads every file whose stat is not prior's and
   * removes what is gone. As long as it leaves no object live at two paths, the disk is then
   * exactly what prior says: same files, same fingerprints, same text.
   */
  lemma ImportAgrees(env: Env, me: Me, h: Versions, t: Tables, d: Disk, missing: seq<Path>, items: seq<Item>, now: int, t1: Tables, u: Tables, t': Tables)
    requires NoCollision(env.hash) && IntentsFiled(env, t) && t.staged == [] && Recorded(h, d) && PriorTrue(env, h, t.priorTree, t.priorText)
    requires Scanned(env, t, d, missing, items) && ImportRun(env, me, t, missing, items, now, t1, u, t') && Supplied(env, t1, items, me.client)
    requires OneLive(t'.priorTree)
    ensures forall p :: p in d.files <==> IsLive(t'.priorTree, p)
    ensures forall p :: p in d.files ==> AgreesAt(env, t', d, p)
  {
    var out :| LocalDeletes(me, t, missing, now) == Ok(Tx(t1, out));
    RemovedIs(env, me, t, d, missing, items, now);
    assert items[..|items|] == items;
    StagedWell(env, t1, items, d, |items|, me.client);
    var sent :| CommitImport(me, u) == Ok(Tx(t', sent));
    CommittedRows(me, u, t', sent);
    forall p | p in d.files ensures AgreesAt(env, t', d, p) {
      ChangedStays(env, t, t1, d, missing, items, p);
      FileAgrees(env, h, d, t1, u, items, t', p);
    }
    forall p | IsLive(t'.priorTree, p) ensures p in d.files { LiveIsOnDisk(env, d, t1, u, items, t', p); }
  }

  // ---------------------------------------------------------------- the round

  /** The disk holds exactly the stable paths, each with its rendered text. */
  ghost predicate Rendered(env: Env, t: Tables, d: Disk) {
    forall p :: (p in d.files <==> p in t.stableTree)
      && (p in t.stableTree ==> d.files[p].bytes == env.render(Doc(t.stableText, t.stableTree[p].oid)))
  }

  /** From tables that agree with the disk, file for file, a projection makes the disk exactly what stable says. */
  lemma ProjectionRenders(env: Env, t: Tables, u: Tables, d: Disk, ps: seq<Path>, fingers: map<Path, Fingerprint>, now: int)
    requires (forall p :: p in d.files <==> IsLive(t.priorTree, p)) && (forall p :: p in d.files ==> AgreesAt(env, t, d, p))
    requires SameWork(t, u) && Distinct(ps) && (forall p :: p in PlanOf(t) <==> p in ps)
    requires Reported(PlanOf(t), Execute(env, d, PlanOf(t), ps).1, fingers)
    ensures var (d', done) := Execute(env, d, PlanOf(t), ps); var t' := CommitActions(u, PlanOf(t), ps, fingers, now);
      Succeeded(done, PlanOf(t), fingers) && Rendered(env, t, d') && PlanOf(t') == map[]
  {
    WorkFrame(env, t, u, d);
    assert Agrees(env, u, d);
    Fixpoint(env, u, d, ps, fingers, now);
  }

  /**
   * The whole round: after an import and a projection with no user edit between the scan and
   * the last write, the disk is exactly what stable says.
   */
  lemma QuietRoundRenders(env: Env, me: Me, h: Versions, t: Tables, d: Disk, missing: seq<Path>, items: seq<Item>, now: int, t1: Tables, staged: Tables, imported: Tables, u: Tables, ps: seq<Path>, fingers: map<Path, Fingerprint>)
    requires NoCollision(env.hash) && IntentsFiled(env, t) && t.staged == [] && Recorded(h, d) && PriorTrue(env, h, t.priorTree, t.priorText)
    requires Scanned(env, t, d, missing, items) && ImportRun(env, me, t, missing, items, now, t1, staged, imported) && Supplied(env, t1, items, me.client)
    requires OneLive(imported.priorTree) && SameWork(imported, u)
    requires Distinct(ps) && (forall p :: p in PlanOf(imported) <==> p in ps)
    requires Reported(PlanOf(imported), Execute(env, d, PlanOf(imported), ps).1, fingers)
    ensures var (d', done) := Execute(env, d, PlanOf(imported), ps); var t' := CommitActions(u, PlanOf(imported), ps, fingers, now);
      Succeeded(done, PlanOf(imported), fingers) && Rendered(env, imported, d') && PlanOf(t') == map[]
  {
    ImportAgrees(env, me, h, t, d, missing, items, now, t1, staged, imported);
    ProjectionRenders(env, imported, u, d, ps, fingers, now);
  }

  /** The same from any idle state of any run whose prior has had each object live at one path at most. */
  lemma QuietRoundInRun(env: Env, me: Me, ss: seq<Host>, steps: seq<HostStep>, i: nat, missing: seq<Path>, items: seq<Item>, now: int, t1: Tables, staged: Tables, imported: Tables, u: Tables, ps: seq<Path>, fingers: map<Path, Fingerprint>)
    requires IsHostTrace(env, me, ss, steps) && i < |ss| && NoCollision(env.hash) && OneLiveUpTo(ss, i) && ss[i].local.mode.Idle?
    requires var t := ss[i].local.tables;
      && Scanned(env, t, ss[i].disk, missing, items) && ImportRun(env, me, t, missing, items, now, t1, staged, imported)
      && Supplied(env, t1, items, me.client)
    requires OneLive(imported.priorTree) && SameWork(imported, u)
    requires Distinct(ps) && (forall p :: p in PlanOf(imported) <==> p in ps)
    requires Reported(PlanOf(imported), Execute(env, ss[i].disk, PlanOf(imported), ps).1, fingers)
    ensures var (d', done) := Execute(env, ss[i].disk, PlanOf(imported), ps); var t' := CommitActions(u, PlanOf(imported), ps, fingers, now);
      Succeeded(done, PlanOf(imported), fingers) && Rendered(env, imported, d') && PlanOf(t') == map[]
  {
    BaselineRun(env, me, ss, steps, i);
    TraceIsRun(env, me, ss, steps);
    RunIntents(env, me, ss, i);
    HostRunInv(env, me, ss, i);
    QuietRoundRenders(env, me, ss[i].versions, ss[i].local.tables, ss[i].disk, missing, items, now, t1, staged, imported, u, ps, fingers);
  }

  // ---------------------------------------------------------------- why each object at one path

  /**
   * With an object live at two paths the round does not end there: committing an edit of one
   * file gives the object its new text, so the other file is stale; and where stable has both
   * paths for the object and holds that text, no work is planned for it.
   */
  lemma StaleTwin(env: Env, t: Tables, d: Disk, row: Staged, p: Path)
    requires IsLive(t.priorTree, p) && p != row.path && t.priorTree[p].oid == row.oid
    requires AgreesAt(env, t, d, p) && env.render(row.priorDoc) != env.render(Doc(t.priorText, row.oid))
    ensures var t' := CommitRow(t, row);
      && IsLive(t'.priorTree, p) && !AgreesAt(env, t', d, p)
      && (p in t.stableTree && t.stableTree[p].oid == row.oid && Doc(t'.stableText, row.oid) == row.priorDoc ==>
            p !in PlanOf(t') && d.files[p].bytes != env.render(Doc(t'.stableText, t'.stableTree[p].oid)))
  {
    RowAt(t, row);
  }
}
