/**
 * What prior says of the files: in every run its fingerprint at a path names the text of its
 * object there, as long as no two live rows share an object.
 */
module Baseline {
  import opened Common
  import opened Crdt
  import opened Files
  import opened FileStore
  import opened StableTree
  import opened Documents
  import opened Delivery
  import opened Replica
  import opened ReplicaSafety
  import opened ReplicaSteps
  import opened Network
  import opened Projection
  import opened SelfEcho
  import opened EchoRuns

  /** Each object is live at one path at most. */
  ghost predicate OneLive(prior: map<Path, PriorRow>) {
    forall p, q :: IsLive(prior, p) && IsLive(prior, q) && prior[p].oid == prior[q].oid ==> p == q
  }

  ghost predicate NoCollision(hash: Hash) { forall a, b :: hash(a) == hash(b) ==> a == b }

  /** The recorded fingerprint is that of the document's text. */
  ghost predicate TextAt(env: Env, h: Versions, finger: Fingerprint, doc: TextDoc) {
    Genuine(env.hash, h, finger) && h[Version(finger.stat.inode, finger.stat.mtime)] == env.render(doc)
  }

  ghost predicate PriorTrue(env: Env, h: Versions, prior: map<Path, PriorRow>, texts: Texts) {
    forall p :: IsLive(prior, p) ==> TextAt(env, h, prior[p].finger, Doc(texts, prior[p].oid))
  }

  ghost predicate StagedTrue(env: Env, h: Versions, staged: seq<Staged>) {
    forall i :: 0 <= i < |staged| ==> TextAt(env, h, staged[i].finger, staged[i].priorDoc)
  }

  ghost predicate BaselineInv(env: Env, s: Host) {
    && PriorTrue(env, s.versions, s.local.tables.priorTree, s.local.tables.priorText)
    && StagedTrue(env, s.versions, s.local.tables.staged)
  }

  lemma TrueStays(env: Env, h: Versions, h': Versions, t: Tables)
    requires Grows(h, h') && PriorTrue(env, h, t.priorTree, t.priorText) && StagedTrue(env, h, t.staged)
    ensures PriorTrue(env, h', t.priorTree, t.priorText) && StagedTrue(env, h', t.staged)
  {
  }

  // ---------------------------------------------------------------- imports

  /** A staged row's document reads as the file did. */
  lemma RowReads(env: Env, t: Tables, r: Reading, s: Supply, cutoff: int, c: nat)
    requires SupplyOk(env, t, r, s, cutoff, c)
    ensures env.render(StagedRow(env, t, r, s).priorDoc) == r.content
    ensures StagedRow(env, t, r, s).finger == r.finger && StagedRow(env, t, r, s).path == r.path
  {
    assert {} + s.whole == s.whole;
  }

  /** Without collisions an echo reads as stable renders. */
  lemma EchoReads(env: Env, t: Tables, r: Reading)
    requires NoCollision(env.hash) && IntentsFiled(env, t) && IsSelfEcho(t, r) && r.finger.hash == env.hash(r.content)
    ensures r.content == env.render(t.stableText[t.stableTree[r.path].oid])
  {
  }

  lemma RealignTrue(env: Env, h: Versions, t: Tables, r: Reading)
    requires PriorTrue(env, h, t.priorTree, t.priorText) && IsSelfEcho(t, r) && OneLive(Realign(t, r).priorTree)
    requires TextAt(env, h, r.finger, t.stableText[t.stableTree[r.path].oid])
    ensures PriorTrue(env, h, Realign(t, r).priorTree, Realign(t, r).priorText)
  {
    var t' := Realign(t, r);
    forall p | IsLive(t'.priorTree, p) ensures TextAt(env, h, t'.priorTree[p].finger, Doc(t'.priorText, t'.priorTree[p].oid)) {
      if p != r.path { assert t'.priorTree[p].oid != t'.priorTree[r.path].oid; }
    }
  }

  predicate RowKept(prior: map<Path, PriorRow>, prior': map<Path, PriorRow>, p: Path) {
    (p in prior' <==> p in prior) && (p in prior ==> prior'[p] == prior[p])
  }

  predicate NoRowFor(rows: seq<Staged>, p: Path) { forall i :: 0 <= i < |rows| ==> rows[i].path != p }

  predicate NoRowOf(rows: seq<Staged>, o: ObjectId) { forall i :: 0 <= i < |rows| ==> rows[i].oid != o }

  predicate RowDone(row: Staged, t: Tables) {
    && row.path in t.priorTree && t.priorTree[row.path] == PriorRow(row.path, row.claim, row.oid, row.finger, None)
    && Doc(t.priorText, row.oid) == row.priorDoc
  }

  /** Where rows are committed, the rows say; elsewhere nothing has changed. */
  ghost predicate RowsDone(t: Tables, rows: seq<Staged>, t': Tables) {
    && (forall i :: 0 <= i < |rows| ==> RowDone(rows[i], t'))
    && (forall p :: NoRowFor(rows, p) ==> RowKept(t.priorTree, t'.priorTree, p))
    && (forall o :: NoRowOf(rows, o) ==> Doc(t'.priorText, o) == Doc(t.priorText, o))
  }

  lemma {:induction false} CommitDone(t: Tables, rows: seq<Staged>)
    requires StagedShape(rows)
    ensures RowsDone(t, rows, CommitRows(t, rows))
  {
    if rows != [] {
      var k := |rows| - 1;
      CommitDone(t, rows[..k]);
      RowsDoneNext(t, rows[..k], rows[k], CommitRows(t, rows[..k]));
      assert rows[..k] + [rows[k]] == rows;
    }
  }

  lemma RowAt(u: Tables, row: Staged)
    ensures var t' := CommitRow(u, row);
      && RowDone(row, t') && (forall p :: p != row.path ==> RowKept(u.priorTree, t'.priorTree, p))
      && (forall o :: o != row.oid ==> Doc(t'.priorText, o) == Doc(u.priorText, o))
  {
  }

  lemma RowsDoneNext(t: Tables, rows: seq<Staged>, row: Staged, u: Tables)
    requires StagedShape(rows + [row]) && RowsDone(t, rows, u)
    ensures RowsDone(t, rows + [row], CommitRow(u, row))
  {
    var more, t' := rows + [row], CommitRow(u, row);
    RowAt(u, row);
    forall i | 0 <= i < |more| ensures RowDone(more[i], t') { RowStays(rows, row, u, t', i); }
    forall p | NoRowFor(more, p) ensures RowKept(t.priorTree, t'.priorTree, p) { RowMissed(t, rows, row, u, t', p); }
    forall o | NoRowOf(more, o) ensures Doc(t'.priorText, o) == Doc(t.priorText, o) { ObjectMissed(t, rows, row, u, t', o); }
  }

  lemma RowStays(rows: seq<Staged>, row: Staged, u: Tables, t': Tables, i: nat)
    requires StagedShape(rows + [row]) && i <= |rows| && (i < |rows| ==> RowDone(rows[i], u)) && RowDone(row, t')
    requires (forall p :: p != row.path ==> RowKept(u.priorTree, t'.priorTree, p)) && forall o :: o != row.oid ==> Doc(t'.priorText, o) == Doc(u.priorText, o)
    ensures RowDone((rows + [row])[i], t')
  {
    if i < |rows| {
      assert (rows + [row])[i] == rows[i] && (rows + [row])[|rows|] == row;
      assert RowKept(u.priorTree, t'.priorTree, rows[i].path);
    }
  }

  lemma RowMissed(t: Tables, rows: seq<Staged>, row: Staged, u: Tables, t': Tables, p: Path)
    requires NoRowFor(rows + [row], p) && (NoRowFor(rows, p) ==> RowKept(t.priorTree, u.priorTree, p))
    requires p != row.path ==> RowKept(u.priorTree, t'.priorTree, p)
    ensures RowKept(t.priorTree, t'.priorTree, p)
  {
    forall i | 0 <= i < |rows| ensures rows[i].path != p { assert (rows + [row])[i] == rows[i]; }
    assert (rows + [row])[|rows|] == row;
  }

  lemma ObjectMissed(t: Tables, rows: seq<Staged>, row: Staged, u: Tables, t': Tables, o: ObjectId)
    requires NoRowOf(rows + [row], o) && (NoRowOf(rows, o) ==> Doc(u.priorText, o) == Doc(t.priorText, o))
    requires o != row.oid ==> Doc(t'.priorText, o) == Doc(u.priorText, o)
    ensures Doc(t'.priorText, o) == Doc(t.priorText, o)
  {
    forall i | 0 <= i < |rows| ensures rows[i].oid != o { assert (rows + [row])[i] == rows[i]; }
    assert (rows + [row])[|rows|] == row;
  }

  lemma CommitTrue(env: Env, h: Versions, t: Tables, rows: seq<Staged>)
    requires PriorTrue(env, h, t.priorTree, t.priorText) && StagedTrue(env, h, rows) && StagedShape(rows)
    requires OneLive(CommitRows(t, rows).priorTree)
    ensures PriorTrue(env, h, CommitRows(t, rows).priorTree, CommitRows(t, rows).priorText)
  {
    var t' := CommitRows(t, rows);
    CommitDone(t, rows);
    forall p | IsLive(t'.priorTree, p) ensures TextAt(env, h, t'.priorTree[p].finger, Doc(t'.priorText, t'.priorTree[p].oid)) {
      if i :| 0 <= i < |rows| && rows[i].path == p {
        assert RowDone(rows[i], t');
      } else {
        OtherRows(t', rows, p);
        assert NoRowFor(rows, p) && NoRowOf(rows, t'.priorTree[p].oid) && RowKept(t.priorTree, t'.priorTree, p);
      }
    }
  }

  /** A live path that no row committed shares no object with one that did. */
  lemma OtherRows(t: Tables, rows: seq<Staged>, p: Path)
    requires OneLive(t.priorTree) && IsLive(t.priorTree, p) && NoRowFor(rows, p) && (forall i :: 0 <= i < |rows| ==> RowDone(rows[i], t))
    ensures NoRowOf(rows, t.priorTree[p].oid)
  {
    forall i | 0 <= i < |rows| ensures rows[i].oid != t.priorTree[p].oid {
      assert RowDone(rows[i], t) && IsLive(t.priorTree, rows[i].path);
    }
  }

  // ---------------------------------------------------------------- projections

  predicate WrittenBy(plan: Plan, ps: seq<Path>, o: ObjectId, p: Path) {
    p in ps && p in plan && plan[p].WriteFile? && plan[p].row.oid == o
  }

  /** The row of a committed action: the written object with its fingerprint, or none that is live. */
  predicate ActionRow(plan: Plan, fingers: map<Path, Fingerprint>, prior: map<Path, PriorRow>, p: Path)
    requires p in plan && p in fingers
  {
    match plan[p]
    case WriteFile(row, _, _) => p in prior && prior[p] == PriorRow(row.claimed, row.claim, row.oid, fingers[p], None)
    case DeleteFile(_) => !IsLive(prior, p)
  }

  /** An object's text is what it was, or what some action wrote of it. */
  ghost predicate TextFrom(texts: Texts, plan: Plan, ps: seq<Path>, texts': Texts, o: ObjectId) {
    || ((forall p :: !WrittenBy(plan, ps, o, p)) && Doc(texts', o) == Doc(texts, o))
    || exists p :: WrittenBy(plan, ps, o, p) && Doc(texts', o) == plan[p].doc
  }

  ghost predicate ActionsDone(t: Tables, plan: Plan, ps: seq<Path>, fingers: map<Path, Fingerprint>, t': Tables) {
    && (forall p :: p in ps && p in plan && p in fingers ==> ActionRow(plan, fingers, t'.priorTree, p))
    && (forall p :: p !in ps ==> RowKept(t.priorTree, t'.priorTree, p))
    && (forall o :: TextFrom(t.priorText, plan, ps, t'.priorText, o))
  }

  lemma {:induction false} CommitsDone(t: Tables, plan: Plan, ps: seq<Path>, fingers: map<Path, Fingerprint>, now: int)
    requires forall p :: p in ps ==> p in plan && p in fingers
    ensures ActionsDone(t, plan, ps, fingers, CommitActions(t, plan, ps, fingers, now))
  {
    if ps != [] {
      var k := |ps| - 1;
      CommitsDone(t, plan, ps[..k], fingers, now);
      var u := CommitActions(t, plan, ps[..k], fingers, now);
      ActionAt(u, plan, ps[k], fingers, now);
      ActionDoneNext(t, plan, ps, fingers, u, CommitAction(u, ps[k], plan[ps[k]], fingers[ps[k]], now));
    }
  }

  /** The action of `q` and nothing else separates the tables. */
  ghost predicate ActionMade(u: Tables, plan: Plan, q: Path, fingers: map<Path, Fingerprint>, t': Tables)
    requires q in plan && q in fingers
  {
    && ActionRow(plan, fingers, t'.priorTree, q)
    && (forall p :: p != q ==> RowKept(u.priorTree, t'.priorTree, p))
    && t'.priorText == if plan[q].WriteFile? then u.priorText[plan[q].row.oid := plan[q].doc] else u.priorText
  }

  lemma ActionAt(u: Tables, plan: Plan, q: Path, fingers: map<Path, Fingerprint>, now: int)
    requires q in plan && q in fingers
    ensures ActionMade(u, plan, q, fingers, CommitAction(u, q, plan[q], fingers[q], now))
  {
  }

  lemma ActionDoneNext(t: Tables, plan: Plan, ps: seq<Path>, fingers: map<Path, Fingerprint>, u: Tables, t': Tables)
    requires ps != [] && (forall p :: p in ps ==> p in plan && p in fingers) && ActionsDone(t, plan, ps[..|ps| - 1], fingers, u)
    requires ActionMade(u, plan, ps[|ps| - 1], fingers, t')
    ensures ActionsDone(t, plan, ps, fingers, t')
  {
    var k := |ps| - 1;
    var q := ps[k];
    assert forall p :: p in ps <==> p in ps[..k] || p == q;
    forall p | p in ps && p in plan && p in fingers ensures ActionRow(plan, fingers, t'.priorTree, p) {
      if p != q { assert RowKept(u.priorTree, t'.priorTree, p) && ActionRow(plan, fingers, u.priorTree, p); }
    }
    forall p | p !in ps ensures RowKept(t.priorTree, t'.priorTree, p) {
      assert RowKept(t.priorTree, u.priorTree, p) && RowKept(u.priorTree, t'.priorTree, p);
    }
    forall o ensures TextFrom(t.priorText, plan, ps, t'.priorText, o) {
      TextNext(t.priorText, plan, ps, u.priorText, t'.priorText, o);
    }
  }

  lemma TextNext(texts: Texts, plan: Plan, ps: seq<Path>, before: Texts, after: Texts, o: ObjectId)
    requires ps != [] && ps[|ps| - 1] in plan && TextFrom(texts, plan, ps[..|ps| - 1], before, o)
    requires var a := plan[ps[|ps| - 1]]; after == if a.WriteFile? then before[a.row.oid := a.doc] else before
    ensures TextFrom(texts, plan, ps, after, o)
  {
    var k := |ps| - 1;
    var q := ps[k];
    assert forall p :: p in ps <==> p in ps[..k] || p == q;
    if WrittenBy(plan, ps, o, q) {
      assert Doc(after, o) == plan[q].doc;
    } else if p :| WrittenBy(plan, ps[..k], o, p) && Doc(before, o) == plan[p].doc {
      assert WrittenBy(plan, ps, o, p);
    } else {
      assert forall p :: WrittenBy(plan, ps, o, p) ==> WrittenBy(plan, ps[..k], o, p);
    }
  }

  lemma ActionsTrue(env: Env, h: Versions, t: Tables, plan: Plan, ps: seq<Path>, fingers: map<Path, Fingerprint>, now: int)
    requires forall p :: p in ps ==> p in plan && p in fingers
    requires forall p :: p in ps && plan[p].WriteFile? ==> TextAt(env, h, fingers[p], plan[p].doc)
    requires PriorTrue(env, h, t.priorTree, t.priorText) && OneLive(CommitActions(t, plan, ps, fingers, now).priorTree)
    ensures var t' := CommitActions(t, plan, ps, fingers, now); PriorTrue(env, h, t'.priorTree, t'.priorText) && t'.staged == t.staged
  {
    var t' := CommitActions(t, plan, ps, fingers, now);
    CommitsDone(t, plan, ps, fingers, now);
    CommitKeepsStaged(t, plan, ps, fingers, now);
    forall p | IsLive(t'.priorTree, p) ensures TextAt(env, h, t'.priorTree[p].finger, Doc(t'.priorText, t'.priorTree[p].oid)) {
      WritersOf(t, plan, ps, fingers, t', p);
      assert TextFrom(t.priorText, plan, ps, t'.priorText, t'.priorTree[p].oid);
      if p in ps { assert ActionRow(plan, fingers, t'.priorTree, p) && WrittenBy(plan, ps, t'.priorTree[p].oid, p); }
      else { assert RowKept(t.priorTree, t'.priorTree, p); }
    }
  }

  /** Whoever wrote the object of a live path wrote it there. */
  lemma WritersOf(t: Tables, plan: Plan, ps: seq<Path>, fingers: map<Path, Fingerprint>, t': Tables, p: Path)
    requires ActionsDone(t, plan, ps, fingers, t') && (forall q :: q in ps ==> q in plan && q in fingers)
    requires OneLive(t'.priorTree) && IsLive(t'.priorTree, p)
    ensures forall q :: WrittenBy(plan, ps, t'.priorTree[p].oid, q) ==> q == p
  {
    forall q | WrittenBy(plan, ps, t'.priorTree[p].oid, q) ensures q == p { assert ActionRow(plan, fingers, t'.priorTree, q); }
  }

  lemma {:induction false} CommitKeepsStaged(t: Tables, plan: Plan, ps: seq<Path>, fingers: map<Path, Fingerprint>, now: int)
    requires forall p :: p in ps ==> p in plan && p in fingers
    ensures CommitActions(t, plan, ps, fingers, now).staged == t.staged
  {
    if ps != [] { CommitKeepsStaged(t, plan, ps[..|ps| - 1], fingers, now); }
  }

  // ---------------------------------------------------------------- every step, every run

  lemma StageTrue(env: Env, me: Me, s: Host, r: Reading, supply: Supply, cutoff: int)
    requires HostInv(env, s) && BaselineInv(env, s) && IntentsFiled(env, s.local.tables) && NoCollision(env.hash)
    requires r in s.readings && SupplyOk(env, s.local.tables, r, supply, cutoff, me.client) && Stage(env, s.local.tables, r, supply).Ok?
    requires OneLive(Stage(env, s.local.tables, r, supply).value.priorTree)
    ensures var t := Stage(env, s.local.tables, r, supply).value;
      PriorTrue(env, s.versions, t.priorTree, t.priorText) && StagedTrue(env, s.versions, t.staged)
  {
    var t := s.local.tables;
    assert Genuine(env.hash, s.versions, r.finger) && s.versions[Version(r.finger.stat.inode, r.finger.stat.mtime)] == r.content;
    if IsSelfEcho(t, r) {
      EchoReads(env, t, r);
      RealignTrue(env, s.versions, t, r);
    } else {
      RowReads(env, t, r, supply, cutoff, me.client);
    }
  }

  lemma ImportTrue(env: Env, me: Me, t: Tables, h: Versions)
    requires PriorTrue(env, h, t.priorTree, t.priorText) && StagedTrue(env, h, t.staged) && StagedShape(t.staged)
    requires CommitImport(me, t).Ok? && OneLive(CommitImport(me, t).value.tables.priorTree)
    ensures var t' := CommitImport(me, t).value.tables; PriorTrue(env, h, t'.priorTree, t'.priorText) && t'.staged == []
  {
    CommitTrue(env, h, CommitNamespace(me, t).value.tables, t.staged);
  }

  lemma ProjectTrue(env: Env, me: Me, s: Host, order: seq<Path>, fingers: map<Path, Fingerprint>, now: int)
    requires BaselineInv(env, s) && PlanInv(env, s) && HostEnabled(env, me, s, Db(CommitProjectionEpoch(order, fingers, now)))
    requires OneLive(HostNext(env, me, s, Db(CommitProjectionEpoch(order, fingers, now))).value.local.tables.priorTree)
    ensures BaselineInv(env, HostNext(env, me, s, Db(CommitProjectionEpoch(order, fingers, now))).value)
  {
    var plan := s.local.mode.plan;
    forall p | p in order && plan[p].WriteFile? ensures TextAt(env, s.versions, fingers[p], plan[p].doc) {
      assert s.done[p] == Wrote(fingers[p]) && WroteText(env, s.versions, plan[p], s.done[p].finger);
    }
    ActionsTrue(env, s.versions, s.local.tables.(priorNs := s.local.mode.target), plan, order, fingers, now);
  }

  /** Rows are staged in an import only, each path, object and claim once. */
  ghost predicate Shaped(s: Host) {
    StagedShape(s.local.tables.staged) && (!s.local.mode.Importing? ==> s.local.tables.staged == [])
  }

  lemma BaselineDb(env: Env, me: Me, s: Host, step: LocalStep)
    requires HostInv(env, s) && BaselineInv(env, s) && PlanInv(env, s) && Shaped(s) && IntentsFiled(env, s.local.tables) && NoCollision(env.hash)
    requires HostEnabled(env, me, s, Db(step)) && HostNext(env, me, s, Db(step)).Ok?
    requires OneLive(HostNext(env, me, s, Db(step)).value.local.tables.priorTree)
    ensures BaselineInv(env, HostNext(env, me, s, Db(step)).value)
  {
    match step {
      case StageFile(r, supply, cutoff) => StageTrue(env, me, s, r, supply, cutoff);
      case CommitImportEpoch => ImportTrue(env, me, s.local.tables, s.versions);
      case CommitProjectionEpoch(order, fingers, now) => ProjectTrue(env, me, s, order, fingers, now);
      case _ =>
    }
  }

  lemma BaselineStep(env: Env, me: Me, s: Host, step: HostStep)
    requires HostInv(env, s) && BaselineInv(env, s) && PlanInv(env, s) && Shaped(s) && IntentsFiled(env, s.local.tables) && NoCollision(env.hash)
    requires HostEnabled(env, me, s, step) && HostNext(env, me, s, step).Ok?
    requires OneLive(HostNext(env, me, s, step).value.local.tables.priorTree)
    ensures BaselineInv(env, HostNext(env, me, s, step).value)
  {
    match step {
      case Db(db) => BaselineDb(env, me, s, db);
      case Receive(batch) => BatchKeepsPrior(TreeOf, me.origin, s.local.tables, batch);
      case _ =>
        VersionsStep(env, me, s, step);
        TrueStays(env, s.versions, HostNext(env, me, s, step).value.versions, s.local.tables);
    }
  }

  lemma BatchKeepsPrior(tree: NsDoc -> Outcome<Tree>, me: nat, t: Tables, batch: seq<Record>)
    requires ApplyBatchBy(tree, me, t, t.cursor, batch).Ok?
    ensures var t' := ApplyBatchBy(tree, me, t, t.cursor, batch).value;
      t'.priorTree == t.priorTree && t'.priorText == t.priorText && t'.staged == t.staged
  {
  }

  lemma ShapedStep(env: Env, me: Me, s: Host, step: HostStep)
    requires Shaped(s) && HostEnabled(env, me, s, step) && HostNext(env, me, s, step).Ok?
    ensures Shaped(HostNext(env, me, s, step).value)
  {
    match step {
      case Db(db) => ShapedDb(env, me, s.local, db);
      case Receive(batch) => BatchKeepsPrior(TreeOf, me.origin, s.local.tables, batch);
      case _ =>
    }
  }

  lemma ShapedDb(env: Env, me: Me, s: Local, step: LocalStep)
    requires StagedShape(s.tables.staged) && (!s.mode.Importing? ==> s.tables.staged == [])
    requires LocalEnabled(env, me, s, step) && LocalNext(env, me, s, step).Ok?
    ensures var s' := LocalNext(env, me, s, step).value.local;
      StagedShape(s'.tables.staged) && (!s'.mode.Importing? ==> s'.tables.staged == [])
  {
    match step {
      case CommitProjectionEpoch(order, fingers, now) => CommitKeepsStaged(s.tables.(priorNs := s.mode.target), s.mode.plan, order, fingers, now);
      case _ =>
    }
  }

  /** Every state up to `i` has each object live at one path at most. */
  ghost predicate OneLiveUpTo(ss: seq<Host>, i: nat) {
    forall k :: 0 <= k <= i && k < |ss| ==> OneLive(ss[k].local.tables.priorTree)
  }

  /** In every run, for as long as no two live rows share an object, prior is true of the files it names. */
  lemma {:induction false} BaselineRun(env: Env, me: Me, ss: seq<Host>, steps: seq<HostStep>, i: nat)
    requires IsHostTrace(env, me, ss, steps) && i < |ss| && NoCollision(env.hash) && OneLiveUpTo(ss, i)
    ensures BaselineInv(env, ss[i]) && Shaped(ss[i])
  {
    if i > 0 {
      BaselineRun(env, me, ss, steps, i - 1);
      PlanInvRun(env, me, ss, steps, i - 1);
      TraceIsRun(env, me, ss, steps);
      RunIntents(env, me, ss, i - 1);
      assert HostMove(env, me, ss[i - 1], steps[i - 1], ss[(i - 1) + 1]);
      BaselineMove(env, me, ss[i - 1], steps[i - 1], ss[i]);
    }
  }

  lemma BaselineMove(env: Env, me: Me, s: Host, step: HostStep, s': Host)
    requires HostMove(env, me, s, step, s') && OneLive(s'.local.tables.priorTree)
    requires HostInv(env, s) && BaselineInv(env, s) && PlanInv(env, s) && Shaped(s) && IntentsFiled(env, s.local.tables) && NoCollision(env.hash)
    ensures BaselineInv(env, s') && Shaped(s')
  {
    BaselineStep(env, me, s, step);
    ShapedStep(env, me, s, step);
  }
}
