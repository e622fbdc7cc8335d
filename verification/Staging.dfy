/** Staging a whole import epoch: exactly which readings make it fail. */
module Staging {
  import opened Common
  import opened Crdt
  import opened Replica

  /** A reading, what is supplied to stage it, and from when on a tombstone counts as recent. */
  datatype Item = Item(reading: Reading, supply: Supply, cutoff: int)

  /** Reused tombstones are rows of prior, which staging never removes. */
  predicate Reuses(t: Tables, items: seq<Item>) {
    forall i :: 0 <= i < |items| && items[i].supply.reuse.Some? ==> items[i].supply.reuse.value in t.priorTree
  }

  /** The epoch's readings staged one after the other; the first failure is final. */
  function StageAll(env: Env, t: Tables, items: seq<Item>): (r: Outcome<Tables>)
    requires Reuses(t, items)
    ensures r.Ok? ==> t.priorTree.Keys <= r.value.priorTree.Keys
  {
    if items == [] then Ok(t)
    else
      var k := |items| - 1;
      match StageAll(env, t, items[..k])
      case Fault => Fault
      case Ok(u) => Stage(env, u, items[k].reading, items[k].supply)
  }

  /** A scan names each file once. */
  predicate OnceEach(items: seq<Item>) {
    forall i, j :: 0 <= i < j < |items| ==> items[i].reading.path != items[j].reading.path
  }

  /** Whenever a reading is staged, its tombstone is chosen from prior as it then is. */
  ghost predicate Chosen(env: Env, t: Tables, items: seq<Item>)
    requires Reuses(t, items)
  {
    forall k :: 0 <= k < |items| ==> ChosenAt(env, t, items, k)
  }

  ghost predicate ChosenAt(env: Env, t: Tables, items: seq<Item>, k: nat)
    requires Reuses(t, items) && k < |items|
  {
    var before := StageAll(env, t, items[..k]);
    before.Ok? ==> ReuseChoice(before.value.priorTree, items[k].reading, items[k].cutoff, items[k].supply.reuse)
  }

  // ---------------------------------------------------------------- what a reading stands for

  predicate Echo(t: Tables, item: Item) { IsSelfEcho(t, item.reading) }

  /** The row of prior a reading continues: the live one at its path, or else the tombstone it reuses. */
  function Continued(t: Tables, item: Item): Option<PriorRow>
    requires item.supply.reuse.Some? ==> item.supply.reuse.value in t.priorTree
  {
    if IsLive(t.priorTree, item.reading.path) then Some(t.priorTree[item.reading.path])
    else if item.supply.reuse.Some? then Some(t.priorTree[item.supply.reuse.value])
    else None
  }

  /** The object it resolves to, a new one if there is none to continue. */
  function ObjectOf(t: Tables, item: Item): ObjectId
    requires item.supply.reuse.Some? ==> item.supply.reuse.value in t.priorTree
  {
    if Continued(t, item).Some? then Continued(t, item).value.oid else item.supply.oid
  }

  /** The claim it resolves to: only a live row keeps its own. */
  function ClaimOf(t: Tables, item: Item): ClaimId {
    if IsLive(t.priorTree, item.reading.path) then t.priorTree[item.reading.path].claim else item.supply.claim
  }

  /** Two readings, neither an echo, resolve to one object or to one claim. */
  predicate Meet(t: Tables, items: seq<Item>, i: nat, j: nat)
    requires Reuses(t, items)
  {
    && i < j < |items| && !Echo(t, items[i]) && !Echo(t, items[j])
    && (ObjectOf(t, items[i]) == ObjectOf(t, items[j]) || ClaimOf(t, items[i]) == ClaimOf(t, items[j]))
  }

  // ---------------------------------------------------------------- the tables along the way

  datatype Slot = Slot(path: Path, oid: ObjectId, claim: ClaimId)

  function SlotOf(row: Staged): Slot { Slot(row.path, row.oid, row.claim) }

  function SlotAt(t: Tables, item: Item): Slot
    requires item.supply.reuse.Some? ==> item.supply.reuse.value in t.priorTree
  {
    Slot(item.reading.path, ObjectOf(t, item), ClaimOf(t, item))
  }

  /** The slots the staged rows take. */
  function Taken(staged: seq<Staged>): set<Slot> { set i | 0 <= i < |staged| :: SlotOf(staged[i]) }

  /** The slots the readings call for, seen from the tables at the start. */
  function Called(t: Tables, items: seq<Item>): set<Slot>
    requires Reuses(t, items)
  {
    set i | 0 <= i < |items| && !Echo(t, items[i]) :: SlotAt(t, items[i])
  }

  function EchoPaths(t: Tables, items: seq<Item>): set<Path> {
    set i | 0 <= i < |items| && Echo(t, items[i]) :: items[i].reading.path
  }

  predicate SameRow(t: Tables, u: Tables, p: Path) {
    (p in u.priorTree <==> p in t.priorTree) && (p in t.priorTree ==> u.priorTree[p] == t.priorTree[p])
  }

  predicate SameIntent(t: Tables, u: Tables, k: IntentKey) {
    && (k in u.intents <==> k in t.intents) && (k in t.intents ==> u.intents[k] == t.intents[k])
    && (k in u.applied <==> k in t.applied) && (k in t.applied ==> u.applied[k] == t.applied[k])
  }

  /** Staging touches prior and the intents only where an echo was consumed, and there leaves a live row. */
  ghost predicate Alike(t: Tables, u: Tables, echoes: set<Path>) {
    && u.stableTree == t.stableTree && u.stableText == t.stableText
    && (forall p :: p !in echoes ==> SameRow(t, u, p))
    && (forall k: IntentKey :: k.path !in echoes ==> SameIntent(t, u, k))
    && (forall p :: p in echoes ==> IsLive(u.priorTree, p))
  }

  /** A reading of another path, with a tombstone of another path, is the same reading later. */
  lemma SameLater(t: Tables, u: Tables, echoes: set<Path>, item: Item)
    requires Alike(t, u, echoes) && item.reading.path !in echoes
    requires item.supply.reuse.Some? ==> item.supply.reuse.value in t.priorTree && item.supply.reuse.value !in echoes
    ensures Echo(u, item) <==> Echo(t, item)
    ensures SlotAt(u, item) == SlotAt(t, item)
  {
    assert SameRow(t, u, item.reading.path);
    assert SameIntent(t, u, IntentKey(item.reading.path, item.reading.finger.hash));
    if item.supply.reuse.Some? { assert SameRow(t, u, item.supply.reuse.value); }
  }

  /** The code's choice is never a path that has been realigned: that row is live. */
  lemma ChoiceIsOld(t: Tables, u: Tables, echoes: set<Path>, item: Item)
    requires Alike(t, u, echoes) && ReuseChoice(u.priorTree, item.reading, item.cutoff, item.supply.reuse)
    ensures item.supply.reuse.Some? ==> item.supply.reuse.value !in echoes
  {
  }

  lemma RealignAlike(t: Tables, u: Tables, echoes: set<Path>, r: Reading)
    requires Alike(t, u, echoes) && IsSelfEcho(u, r)
    ensures Alike(t, Realign(u, r), echoes + {r.path}) && Realign(u, r).staged == u.staged
  {
    forall p | p !in echoes + {r.path} ensures SameRow(t, Realign(u, r), p) { assert SameRow(t, u, p); }
    forall k: IntentKey | k.path !in echoes + {r.path} ensures SameIntent(t, Realign(u, r), k) { assert SameIntent(t, u, k); }
  }

  lemma RowTakesSlot(env: Env, u: Tables, item: Item)
    requires item.supply.reuse.Some? ==> item.supply.reuse.value in u.priorTree
    ensures SlotOf(StagedRow(env, u, item.reading, item.supply)) == SlotAt(u, item)
  {
  }

  lemma TakenPush(staged: seq<Staged>, row: Staged)
    ensures Taken(staged + [row]) == Taken(staged) + {SlotOf(row)}
  {
    var more := staged + [row];
    forall s ensures s in Taken(more) <==> s in Taken(staged) + {SlotOf(row)} {
      if s in Taken(staged) {
        var i :| 0 <= i < |staged| && SlotOf(staged[i]) == s;
        assert more[i] == staged[i];
      }
      assert more[|staged|] == row;
    }
  }

  lemma CalledPush(t: Tables, items: seq<Item>, k: nat)
    requires Reuses(t, items) && k < |items|
    ensures Called(t, items[..k + 1]) == Called(t, items[..k]) + if Echo(t, items[k]) then {} else {SlotAt(t, items[k])}
    ensures EchoPaths(t, items[..k + 1]) == EchoPaths(t, items[..k]) + if Echo(t, items[k]) then {items[k].reading.path} else {}
  {
    assert items[..k + 1] == items[..k] + [items[k]];
  }

  /** The slot can be taken: nobody has its path, its object or its claim. */
  predicate Free(taken: set<Slot>, slot: Slot) {
    forall s :: s in taken ==> s.path != slot.path && s.oid != slot.oid && s.claim != slot.claim
  }

  lemma InsertIsFree(staged: seq<Staged>, row: Staged)
    ensures CanInsert(staged, row) <==> Free(Taken(staged), SlotOf(row))
  {
    forall i | 0 <= i < |staged| ensures SlotOf(staged[i]) in Taken(staged) {}
  }

  ghost predicate Along(t: Tables, u: Tables, items: seq<Item>)
    requires Reuses(t, items)
  {
    Alike(t, u, EchoPaths(t, items)) && Taken(u.staged) == Called(t, items)
  }

  /** One more reading: it fails exactly if its slot is taken, and otherwise takes it. */
  lemma StageNext(env: Env, t: Tables, u: Tables, items: seq<Item>, k: nat)
    requires Reuses(t, items) && OnceEach(items) && k < |items| && Along(t, u, items[..k]) && t.priorTree.Keys <= u.priorTree.Keys
    requires ReuseChoice(u.priorTree, items[k].reading, items[k].cutoff, items[k].supply.reuse)
    ensures var o := Stage(env, u, items[k].reading, items[k].supply);
      && (o.Fault? <==> !Echo(t, items[k]) && !Free(Called(t, items[..k]), SlotAt(t, items[k])))
      && (o.Ok? ==> Along(t, o.value, items[..k + 1]))
  {
    var item, echoes := items[k], EchoPaths(t, items[..k]);
    ChoiceIsOld(t, u, echoes, item);
    SameLater(t, u, echoes, item);
    CalledPush(t, items, k);
    if Echo(t, item) {
      RealignAlike(t, u, echoes, item.reading);
    } else {
      var row := StagedRow(env, u, item.reading, item.supply);
      RowTakesSlot(env, u, item);
      InsertIsFree(u.staged, row);
      TakenPush(u.staged, row);
    }
  }

  // ---------------------------------------------------------------- exactly when it fails

  ghost predicate SomeMeet(t: Tables, items: seq<Item>, n: nat)
    requires Reuses(t, items)
  {
    exists i: nat, j: nat :: j < n && Meet(t, items, i, j)
  }

  /** The slot of reading `k` is taken exactly if it meets an earlier one. */
  lemma FreeIsMeetless(t: Tables, items: seq<Item>, k: nat)
    requires Reuses(t, items) && OnceEach(items) && k < |items| && !Echo(t, items[k])
    ensures Free(Called(t, items[..k]), SlotAt(t, items[k])) <==> forall i: nat :: !Meet(t, items, i, k)
  {
    var called, slot := Called(t, items[..k]), SlotAt(t, items[k]);
    if i: nat :| Meet(t, items, i, k) {
      assert items[..k][i] == items[i] && SlotAt(t, items[..k][i]) in called;
    }
    if s :| s in called && !(s.path != slot.path && s.oid != slot.oid && s.claim != slot.claim) {
      var i :| 0 <= i < k && !Echo(t, items[..k][i]) && s == SlotAt(t, items[..k][i]);
      assert items[..k][i] == items[i] && Meet(t, items, i, k);
    }
  }

  lemma MeetSplit(t: Tables, items: seq<Item>, k: nat)
    requires Reuses(t, items) && k < |items|
    ensures SomeMeet(t, items, k + 1) <==> SomeMeet(t, items, k) || exists i: nat :: Meet(t, items, i, k)
  {
  }

  /** What is known after the first `k` readings. */
  ghost predicate StagedUpTo(t: Tables, o: Outcome<Tables>, items: seq<Item>, k: nat)
    requires Reuses(t, items) && k <= |items|
  {
    && (o.Fault? <==> SomeMeet(t, items, k))
    && (o.Ok? ==> Along(t, o.value, items[..k]) && t.priorTree.Keys <= o.value.priorTree.Keys)
  }

  lemma StagingStart(t: Tables, items: seq<Item>)
    requires t.staged == [] && Reuses(t, items)
    ensures StagedUpTo(t, Ok(t), items, 0)
  {
  }

  lemma StagingStep(env: Env, t: Tables, o: Outcome<Tables>, items: seq<Item>, k: nat, o': Outcome<Tables>)
    requires Reuses(t, items) && OnceEach(items) && k < |items| && StagedUpTo(t, o, items, k)
    requires o.Ok? ==> ReuseChoice(o.value.priorTree, items[k].reading, items[k].cutoff, items[k].supply.reuse)
    requires o' == if o.Fault? then Fault else Stage(env, o.value, items[k].reading, items[k].supply)
    ensures StagedUpTo(t, o', items, k + 1)
  {
    MeetSplit(t, items, k);
    if o.Ok? {
      StageNext(env, t, o.value, items, k);
      if !Echo(t, items[k]) { FreeIsMeetless(t, items, k); }
    }
  }

  lemma StageUnfold(env: Env, t: Tables, items: seq<Item>, k: nat)
    requires Reuses(t, items) && k < |items|
    ensures var before := StageAll(env, t, items[..k]);
      StageAll(env, t, items[..k + 1]) == if before.Fault? then Fault else Stage(env, before.value, items[k].reading, items[k].supply)
  {
    assert items[..k + 1][..k] == items[..k] && items[..k + 1][k] == items[k];
  }

  lemma {:induction false} StagingUpTo(env: Env, t: Tables, items: seq<Item>, k: nat)
    requires t.staged == [] && Reuses(t, items) && OnceEach(items) && Chosen(env, t, items) && k <= |items|
    ensures StagedUpTo(t, StageAll(env, t, items[..k]), items, k)
  {
    if k == 0 {
      StagingStart(t, items);
    } else {
      StagingUpTo(env, t, items, k - 1);
      StageUnfold(env, t, items, k - 1);
      assert ChosenAt(env, t, items, k - 1);
      StagingStep(env, t, StageAll(env, t, items[..k - 1]), items, k - 1, StageAll(env, t, items[..k]));
    }
  }

  /**
   * Staging an epoch's readings fails if and only if, on the tables it starts from, two of them
   * that are not own echoes resolve to one object or one claim.
   */
  lemma StagingFails(env: Env, t: Tables, items: seq<Item>)
    requires t.staged == [] && Reuses(t, items) && OnceEach(items) && Chosen(env, t, items)
    ensures StageAll(env, t, items).Fault? <==> exists i: nat, j: nat :: Meet(t, items, i, j)
  {
    StagingUpTo(env, t, items, |items|);
    assert items[..|items|] == items;
    if i: nat, j: nat :| Meet(t, items, i, j) { assert j < |items|; }
  }

  // ---------------------------------------------------------------- ordinary ways there

  /** Two readings that continue rows of one object cannot be staged together, whatever else is read. */
  lemma SharedObjectFails(env: Env, t: Tables, items: seq<Item>, i: nat, j: nat)
    requires t.staged == [] && Reuses(t, items) && OnceEach(items) && Chosen(env, t, items)
    requires i < j < |items| && !Echo(t, items[i]) && !Echo(t, items[j])
    requires Continued(t, items[i]).Some? && Continued(t, items[j]).Some?
    requires Continued(t, items[i]).value.oid == Continued(t, items[j]).value.oid
    ensures StageAll(env, t, items).Fault?
  {
    assert Meet(t, items, i, j);
    StagingFails(env, t, items);
  }

  /** A tombstone that two readings may reuse: it is on the path of one and has the file key of the other. */
  predicate Shared(t: Tables, a: Reading, b: Reading, cutoff: int) {
    && Recent(t.priorTree, a.path, cutoff)
    && b.path !in t.priorTree && b.finger.stat.inode == t.priorTree[a.path].finger.stat.inode
    && forall p :: p in t.priorTree && t.priorTree[p].finger.stat.inode == b.finger.stat.inode ==> p == a.path
  }

  /** A file was removed, another was created on its path, and the removed one came back elsewhere. */
  lemma SharedTombstoneFails(env: Env, t: Tables, items: seq<Item>, i: nat, j: nat, cutoff: int)
    requires t.staged == [] && Reuses(t, items) && OnceEach(items) && Chosen(env, t, items)
    requires i < j < |items| && !Echo(t, items[i]) && !Echo(t, items[j])
    requires Shared(t, items[i].reading, items[j].reading, cutoff)
    requires ReuseChoice(t.priorTree, items[i].reading, cutoff, items[i].supply.reuse)
    requires ReuseChoice(t.priorTree, items[j].reading, cutoff, items[j].supply.reuse)
    ensures StageAll(env, t, items).Fault?
  {
    assert SameKey(t.priorTree, items[i].reading.path, items[j].reading.finger.stat.inode, cutoff);
    SharedObjectFails(env, t, items, i, j);
  }

  /** A file was renamed; later its old path is filled again and the renamed file is edited. */
  lemma RenamedFails(env: Env, t: Tables, items: seq<Item>, i: nat, j: nat)
    requires t.staged == [] && Reuses(t, items) && OnceEach(items) && Chosen(env, t, items)
    requires i < |items| && j < |items| && i != j && !Echo(t, items[i]) && !Echo(t, items[j])
    requires Recent(t.priorTree, items[i].reading.path, items[i].cutoff) && items[i].supply.reuse == Some(items[i].reading.path)
    requires IsLive(t.priorTree, items[j].reading.path)
    requires t.priorTree[items[j].reading.path].oid == t.priorTree[items[i].reading.path].oid
    ensures StageAll(env, t, items).Fault?
  {
    if i < j { SharedObjectFails(env, t, items, i, j); } else { SharedObjectFails(env, t, items, j, i); }
  }

  /** Two live rows on one object: no import of both succeeds any more. */
  lemma TwoLiveFails(env: Env, t: Tables, items: seq<Item>, i: nat, j: nat)
    requires t.staged == [] && Reuses(t, items) && OnceEach(items) && Chosen(env, t, items)
    requires i < j < |items| && !Echo(t, items[i]) && !Echo(t, items[j])
    requires IsLive(t.priorTree, items[i].reading.path) && IsLive(t.priorTree, items[j].reading.path)
    requires t.priorTree[items[i].reading.path].oid == t.priorTree[items[j].reading.path].oid
    ensures StageAll(env, t, items).Fault?
  {
    SharedObjectFails(env, t, items, i, j);
  }

  /**
   * How such rows come about: committing a reading that reused another path's row leaves that
   * row where it was, beside a live one on the same object. After a rename it is a tombstone,
   * and committing a reading of the old path by the same tombstone makes two live rows.
   */
  lemma ReuseLeavesTwoRows(env: Env, t: Tables, item: Item)
    requires item.supply.reuse.Some? && item.supply.reuse.value in t.priorTree
    requires !IsLive(t.priorTree, item.reading.path)
    ensures var p, q := item.supply.reuse.value, item.reading.path;
      var after := CommitRows(t, [StagedRow(env, t, item.reading, item.supply)]).priorTree;
      && IsLive(after, q) && after[q].oid == t.priorTree[p].oid
      && (forall x :: x != q ==> (x in after <==> x in t.priorTree) && (x in after ==> after[x] == t.priorTree[x]))
  {
    var row := StagedRow(env, t, item.reading, item.supply);
    assert [row][..0] == [] && CommitRows(t, [row]) == CommitRow(CommitRows(t, []), row);
  }
}
