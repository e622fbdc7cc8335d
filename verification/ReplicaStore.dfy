/** The transactions as the service runs them: loops over rows that update the tables step by step. */
module ReplicaStore {
  import opened Common
  import opened Crdt
  import opened StableTree
  import opened Documents
  import opened Delivery
  import opened Files
  import opened Replica
  import opened ReplicaBatch
  import opened ProjectionFixpoint

  method RemovalFacts(t: Tables, missing: seq<Path>) returns (facts: seq<NsFact>)
    requires forall p :: p in missing ==> p in t.priorTree
    ensures facts == Removals(t.priorTree, missing)
  {
    facts := [];
    for i := 0 to |missing|
      invariant |facts| == i && forall j :: 0 <= j < i ==> missing[j] in t.priorTree && facts[j] == RemoveClaim(t.priorTree[missing[j]].claim)
    {
      assert missing[i] in missing;
      facts := facts + [RemoveClaim(t.priorTree[missing[i]].claim)];
    }
  }

  method TombstoneAll(prior: map<Path, PriorRow>, missing: seq<Path>, now: int) returns (r: map<Path, PriorRow>)
    ensures r == Tombstone(prior, PathSet(missing), now)
  {
    r := prior;
    for i := 0 to |missing|
      invariant r == Tombstone(prior, PathSet(missing[..i]), now)
    {
      assert PathSet(missing[..i + 1]) == PathSet(missing[..i]) + {missing[i]};
      if missing[i] in r && r[missing[i]].deletedAt.None? {
        r := r[missing[i] := r[missing[i]].(deletedAt := Some(now))];
      }
    }
    assert missing[..|missing|] == missing;
  }

  method CollectFacts(me: Me, staged: seq<Staged>) returns (facts: seq<NsFact>)
    ensures facts == StagedFacts(me, staged)
  {
    facts := [];
    for i := 0 to |staged|
      invariant facts == StagedFacts(me, staged[..i])
    {
      assert staged[..i + 1][..i] == staged[..i];
      match staged[i].kind {
        case New =>
          facts := facts + [AddObject(staged[i].oid, Text, me.writer), AddClaim(staged[i].claim, staged[i].oid, staged[i].path)];
        case Resurrect => facts := facts + [AddClaim(staged[i].claim, staged[i].oid, staged[i].path)];
        case Update =>
      }
    }
    assert staged[..|staged|] == staged;
  }

  /** Text rows: stable gets the update, prior the edited document, the outbox the update. */
  method AcceptRows(start: Tables, rows: seq<Staged>) returns (t: Tables, out: seq<Message>)
    ensures t == CommitRows(start, rows) && out == TextMessages(rows)
  {
    t, out := start, [];
    for i := 0 to |rows|
      invariant t == CommitRows(start, rows[..i]) && out == TextMessages(rows[..i])
    {
      assert rows[..i + 1][..i] == rows[..i];
      var row := rows[i];
      var stable := Doc(t.stableText, row.oid);
      if row.update.Some? {
        stable := stable + row.update.value;
        out := out + [TextObjectUpdate(row.oid, row.update.value)];
      } else {
        assert stable + {} == stable;
      }
      t := t.(stableText := t.stableText[row.oid := stable],
              priorText := t.priorText[row.oid := row.priorDoc],
              priorTree := t.priorTree[row.path := PriorRow(row.path, row.claim, row.oid, row.finger, None)]);
    }
    assert rows[..|rows|] == rows;
  }

  predicate IsIntent(env: Env, plan: Plan, k: IntentKey) {
    k.path in plan && plan[k.path].WriteFile? && k == IntentOf(env, k.path, plan[k.path])
  }

  /** The intents after a plan's writes have been filed, key by key. */
  predicate FiledAt(env: Env, before: map<IntentKey, Intent>, plan: Plan, after: map<IntentKey, Intent>, k: IntentKey) {
    if IsIntent(env, plan, k) then k in after && after[k] == Intent(plan[k.path].row.oid, plan[k.path].doc)
    else (k in after <==> k in before) && (k in after ==> after[k] == before[k])
  }

  ghost predicate Filed(env: Env, before: map<IntentKey, Intent>, plan: Plan, after: map<IntentKey, Intent>) {
    forall k :: FiledAt(env, before, plan, after, k)
  }

  lemma FileWrite(env: Env, before: map<IntentKey, Intent>, plan: Plan, after: map<IntentKey, Intent>, p: Path, a: Action)
    requires Filed(env, before, plan, after) && p !in plan && a.WriteFile?
    ensures Filed(env, before, plan[p := a], after[IntentOf(env, p, a) := Intent(a.row.oid, a.doc)])
  {
    var more, filed := plan[p := a], after[IntentOf(env, p, a) := Intent(a.row.oid, a.doc)];
    forall k ensures FiledAt(env, before, more, filed, k) {
      assert FiledAt(env, before, plan, after, k);
    }
  }

  lemma FileDelete(env: Env, before: map<IntentKey, Intent>, plan: Plan, after: map<IntentKey, Intent>, p: Path, a: Action)
    requires Filed(env, before, plan, after) && p !in plan && a.DeleteFile?
    ensures Filed(env, before, plan[p := a], after)
  {
    var more := plan[p := a];
    forall k ensures FiledAt(env, before, more, after, k) { assert FiledAt(env, before, plan, after, k); }
  }

  lemma FiledIs(env: Env, before: map<IntentKey, Intent>, plan: Plan, after: map<IntentKey, Intent>)
    requires Filed(env, before, plan, after)
    ensures after == before + IntentsFor(env, plan)
  {
    var all := before + IntentsFor(env, plan);
    forall k ensures (k in after <==> k in all) && (k in after ==> after[k] == all[k]) {
      assert FiledAt(env, before, plan, after, k);
      assert k in IntentsFor(env, plan) <==> IsIntent(env, plan, k);
    }
  }

  /** Writes for the stable paths prior does not match, with an intent for each. */
  method PlanWrites(env: Env, t: Tables) returns (plan: Plan, intents: map<IntentKey, Intent>)
    ensures forall p :: p in t.stableTree ==> PlannedAt(t, plan, p)
    ensures forall p :: p in plan ==> p in t.stableTree
    ensures Filed(env, t.intents, plan, intents)
  {
    plan, intents := map[], t.intents;
    var todo := t.stableTree.Keys;
    while todo != {}
      invariant todo <= t.stableTree.Keys
      invariant forall p :: p in t.stableTree && p !in todo ==> PlannedAt(t, plan, p)
      invariant forall p :: p in plan ==> p in t.stableTree && p !in todo
      invariant Filed(env, t.intents, plan, intents)
      decreases todo
    {
      var p :| p in todo;
      var action := WriteOf(t, p);
      if !UpToDate(t, p) {
        FileWrite(env, t.intents, plan, intents, p, action);
        PlanMore(t, plan, p, action);
        plan := plan[p := action];
        intents := intents[IntentOf(env, p, action) := Intent(action.row.oid, action.doc)];
      }
      todo := todo - {p};
    }
  }

  function WriteOf(t: Tables, p: Path): (a: Action)
    requires p in t.stableTree
    ensures a.WriteFile?
  {
    WriteFile(t.stableTree[p], Doc(t.stableText, t.stableTree[p].oid),
              if IsLive(t.priorTree, p) then Some(t.priorTree[p].finger) else None)
  }

  /** Planning one more path leaves the others planned. */
  lemma PlanMore(t: Tables, plan: Plan, p: Path, a: Action)
    ensures forall q :: q != p && PlannedAt(t, plan, q) ==> PlannedAt(t, plan[p := a], q)
  {
  }

  /** Deletes for the tracked paths that are left. */
  method PlanDeletes(env: Env, t: Tables, writes: Plan, ghost intents: map<IntentKey, Intent>) returns (plan: Plan)
    requires forall p :: p in t.stableTree ==> PlannedAt(t, writes, p)
    requires forall p :: p in writes ==> p in t.stableTree
    requires Filed(env, t.intents, writes, intents)
    ensures PlanFor(t, plan) && Filed(env, t.intents, plan, intents)
  {
    plan := writes;
    var todo := t.priorTree.Keys - t.stableTree.Keys;
    while todo != {}
      invariant todo <= t.priorTree.Keys - t.stableTree.Keys
      invariant forall p :: p !in todo ==> PlannedAt(t, plan, p)
      invariant forall p :: p in todo ==> p !in plan
      invariant Filed(env, t.intents, plan, intents)
      decreases todo
    {
      var p :| p in todo;
      if t.priorTree[p].deletedAt.None? {
        var action := DeleteFile(t.priorTree[p].finger);
        FileDelete(env, t.intents, plan, intents, p, action);
        PlanMore(t, plan, p, action);
        plan := plan[p := action];
      }
      todo := todo - {p};
    }
  }

  /** One daemon's database. A transaction that fails changes nothing. */
  class Store {
    var tables: Tables

    constructor (tables: Tables)
      ensures this.tables == tables
    {
      this.tables := tables;
    }

    /** The namespace and its tree, rewritten row by row. */
    method WriteStableNamespace(t: Tables, doc: NsDoc) returns (r: Outcome<Tables>)
      requires Clean(doc) && UniqueClaims(t.stableTree)
      ensures r == WriteNamespace(t, doc)
    {
      var tree := MaterializeDoc(doc);
      if tree.Fault? { return Fault; }
      TreeFacts(doc);
      var table := new Table(t.stableTree);
      var ok := table.Rewrite(tree.value);
      r := Ok(t.(stableNs := doc, stableTree := table.rows));
    }

    method ApplySharedMessageBatch(me: nat, first: nat, batch: seq<Record>) returns (ok: bool)
      requires Clean(tables.stableNs + NsOf(me, batch)) && UniqueClaims(tables.stableTree)
      modifies this
      ensures ok <==> ApplyBatch(me, old(tables), first, batch).Ok?
      ensures tables == if ok then ApplyBatch(me, old(tables), first, batch).value else old(tables)
    {
      if tables.cursor != first { return false; }
      var namespaceDoc, textDocs := CacheDocs(me, tables.stableNs, tables.stableText, batch);
      var next := tables.(stableText := tables.stableText + textDocs, cursor := tables.cursor + |batch|);
      if namespaceDoc.Some? {
        var written := WriteStableNamespace(next, namespaceDoc.value);
        if written.Fault? { return false; }
        next := written.value;
      }
      tables := next;
      ok := true;
    }

    method ApplyLocalDeletes(me: Me, missing: seq<Path>, now: int) returns (r: Outcome<seq<Message>>)
      requires forall p :: p in missing ==> p in tables.priorTree && tables.priorTree[p].deletedAt.None?
      requires Clean(tables.stableNs + NsOps(me.client, NsClock(tables.priorNs, me.client), Removals(tables.priorTree, missing)))
      requires UniqueClaims(tables.stableTree)
      modifies this
      ensures r.Ok? <==> LocalDeletes(me, old(tables), missing, now).Ok?
      ensures r.Ok? ==> Tx(tables, r.value) == LocalDeletes(me, old(tables), missing, now).value
      ensures r.Fault? ==> tables == old(tables)
    {
      if missing == [] { return Ok([]); }
      var facts := RemovalFacts(tables, missing);
      var update := NsOps(me.client, NsClock(tables.priorNs, me.client), facts);
      var written := WriteStableNamespace(tables, tables.stableNs + update);
      if written.Fault? { return Fault; }
      var prior := TombstoneAll(tables.priorTree, missing, now);
      tables := written.value.(priorNs := tables.priorNs + update, priorTree := prior);
      r := Ok([NamespaceUpdate(update)]);
    }

    method CommitSyncImportEpoch(me: Me) returns (r: Outcome<seq<Message>>)
      requires Clean(tables.stableNs + NsOps(me.client, NsClock(tables.priorNs, me.client), StagedFacts(me, tables.staged)))
      requires UniqueClaims(tables.stableTree)
      modifies this
      ensures r.Ok? <==> CommitImport(me, old(tables)).Ok?
      ensures r.Ok? ==> Tx(tables, r.value) == CommitImport(me, old(tables)).value
      ensures r.Fault? ==> tables == old(tables)
    {
      var next, out := tables, [];
      if NamespaceChanged(tables.staged) {
        var facts := CollectFacts(me, tables.staged);
        var update := NsOps(me.client, NsClock(tables.priorNs, me.client), facts);
        var written := WriteStableNamespace(tables, tables.stableNs + update);
        if written.Fault? { return Fault; }
        next, out := written.value.(priorNs := tables.priorNs + update), [NamespaceUpdate(update)];
      }
      var rows, texts := AcceptRows(next, tables.staged);
      tables := rows.(staged := []);
      r := Ok(out + texts);
    }

    method GetNextWork(env: Env) returns (plan: Plan)
      modifies this
      ensures plan == PlanOf(old(tables)) && tables == NextWork(env, old(tables))
    {
      var writes, intents := PlanWrites(env, tables);
      plan := PlanDeletes(env, tables, writes, intents);
      PlanByPath(tables, plan);
      FiledIs(env, tables.intents, plan, intents);
      tables := tables.(intents := intents);
    }

    /** Prior moves up action by action. */
    method CommitProjectionEpoch(target: NsDoc, plan: Plan, order: seq<Path>, fingers: map<Path, Fingerprint>, now: int)
      requires forall p :: p in order ==> p in plan && p in fingers
      modifies this
      ensures tables == CommitActions(old(tables).(priorNs := target), plan, order, fingers, now)
    {
      tables := tables.(priorNs := target);
      ghost var start := tables;
      for i := 0 to |order|
        invariant tables == CommitActions(start, plan, order[..i], fingers, now)
      {
        assert order[..i + 1][..i] == order[..i] && order[i] in order;
        tables := CommitAction(tables, order[i], plan[order[i]], fingers[order[i]], now);
      }
      assert order[..|order|] == order;
    }
  }
}
