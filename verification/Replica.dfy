/**
 * One daemon's semantic tables and the transactions of `semantic/service.rs` over them.
 * A transaction that hits one of its invariant checks is a `Fault` and changes nothing.
 */
module Replica {
  import opened Common
  import opened Crdt
  import opened Namespace
  import opened StableTree
  import opened Documents
  import opened Delivery
  import opened Files

  /** Foreign code: the text of a document and the content hash. */
  datatype Env = Env(render: TextDoc -> Bytes, hash: Bytes -> Bytes)

  /** The log identity of a daemon, its writer id and the Yrs client id derived from it. */
  datatype Me = Me(origin: nat, writer: WriterId, client: nat)

  datatype PriorRow = PriorRow(claimed: Path, claim: ClaimId, oid: ObjectId, finger: Fingerprint, deletedAt: Option<int>)

  datatype StageKind = New | Resurrect | Update

  datatype Staged = Staged(
    path: Path, oid: ObjectId, claim: ClaimId, kind: StageKind, finger: Fingerprint,
    priorDoc: TextDoc, update: Option<TextDoc>)

  datatype IntentKey = IntentKey(path: Path, hash: Bytes)
  datatype Intent = Intent(oid: ObjectId, doc: TextDoc)

  type Texts = map<ObjectId, TextDoc>

  datatype Tables = Tables(
    cursor: nat,
    stableNs: NsDoc, stableText: Texts, stableTree: Tree,
    priorNs: NsDoc, priorText: Texts, priorTree: map<Path, PriorRow>,
    staged: seq<Staged>,
    intents: map<IntentKey, Intent>, applied: map<IntentKey, Stat>)

  /** What a transaction leaves behind: the tables, and the messages it put in the outbox. */
  datatype Tx = Tx(tables: Tables, out: seq<Message>)

  /** A missing row reads as the empty document. */
  function Doc(m: Texts, o: ObjectId): TextDoc { if o in m then m[o] else {} }

  predicate IsLive(t: map<Path, PriorRow>, p: Path) { p in t && t[p].deletedAt.None? }

  // ---------------------------------------------------------------- stable namespace

  ghost function WriteNamespace(t: Tables, doc: NsDoc): Outcome<Tables> {
    match TreeOf(doc)
    case Fault => Fault
    case Ok(tree) => Ok(t.(stableNs := doc, stableTree := tree))
  }

  // ---------------------------------------------------------------- applying the log

  function NsOf(me: nat, batch: seq<Record>): NsDoc {
    if batch == [] then {}
    else
      var r := batch[|batch| - 1];
      NsOf(me, batch[..|batch| - 1])
      + if r.origin != me && r.entry.msg.NamespaceUpdate? then r.entry.msg.nsOps else {}
  }

  function HasNs(me: nat, batch: seq<Record>): bool {
    exists i :: 0 <= i < |batch| && batch[i].origin != me && batch[i].entry.msg.NamespaceUpdate?
  }

  function ApplyText(texts: Texts, o: ObjectId, u: TextDoc): Texts { texts[o := Doc(texts, o) + u] }

  function TextsOf(me: nat, texts: Texts, batch: seq<Record>): Texts {
    if batch == [] then texts
    else
      var r := batch[|batch| - 1];
      var before := TextsOf(me, texts, batch[..|batch| - 1]);
      if r.origin != me && r.entry.msg.TextObjectUpdate?
      then ApplyText(before, r.entry.msg.oid, r.entry.msg.textOps) else before
  }

  /** The stable namespace after a batch, if the batch touches it. */
  function NsAfter(me: nat, ns: NsDoc, batch: seq<Record>): Option<NsDoc> {
    if HasNs(me, batch) then Some(ns + NsOf(me, batch)) else None
  }

  /** The tables once the texts, and the namespace with its tree, are written back. */
  function Advance(t: Tables, texts: Texts, ns: Option<NsDoc>, tree: Outcome<Tree>, count: nat): Outcome<Tables> {
    var t1 := t.(stableText := texts, cursor := t.cursor + count);
    if ns.None? then Ok(t1)
    else if tree.Fault? then Fault
    else Ok(t1.(stableNs := ns.value, stableTree := tree.value))
  }

  /** `apply_shared_message_batch_tx`: own echoes are skipped; the tree is rewritten once, if at all. */
  ghost function ApplyBatchBy(tree: NsDoc -> Outcome<Tree>, me: nat, t: Tables, first: nat, batch: seq<Record>): Outcome<Tables> {
    if t.cursor != first then Fault
    else Advance(t, TextsOf(me, t.stableText, batch), NsAfter(me, t.stableNs, batch),
                 tree(t.stableNs + NsOf(me, batch)), |batch|)
  }

  ghost function ApplyBatch(me: nat, t: Tables, first: nat, batch: seq<Record>): Outcome<Tables> {
    ApplyBatchBy(TreeOf, me, t, first, batch)
  }

  // ---------------------------------------------------------------- local deletes

  function Removals(t: map<Path, PriorRow>, missing: seq<Path>): seq<NsFact>
    requires forall p :: p in missing ==> p in t
  {
    seq(|missing|, i requires 0 <= i < |missing| => assert missing[i] in missing; RemoveClaim(t[missing[i]].claim))
  }

  function Tombstone(t: map<Path, PriorRow>, paths: set<Path>, now: int): map<Path, PriorRow> {
    map p | p in t :: if p in paths && t[p].deletedAt.None? then t[p].(deletedAt := Some(now)) else t[p]
  }

  function PathSet(ps: seq<Path>): set<Path> { set p | p in ps }

  /** `apply_missing_prior_paths_as_local_deletes_tx`. */
  ghost function LocalDeletes(me: Me, t: Tables, missing: seq<Path>, now: int): Outcome<Tx>
    requires forall p :: p in missing ==> p in t.priorTree && t.priorTree[p].deletedAt.None?
  {
    if missing == [] then Ok(Tx(t, []))
    else
      var u := NsOps(me.client, NsClock(t.priorNs, me.client), Removals(t.priorTree, missing));
      match WriteNamespace(t, t.stableNs + u)
      case Fault => Fault
      case Ok(t1) =>
        Ok(Tx(t1.(priorNs := t.priorNs + u, priorTree := Tombstone(t.priorTree, PathSet(missing), now)),
              [NamespaceUpdate(u)]))
  }

  // ---------------------------------------------------------------- staging an import

  /** A file read during an import epoch. */
  datatype Reading = Reading(path: Path, finger: Fingerprint, content: Bytes)

  function AppliedIntent(t: Tables, r: Reading): Option<Intent> {
    var k := IntentKey(r.path, r.finger.hash);
    if k in t.intents && k in t.applied && t.applied[k] == r.finger.stat then Some(t.intents[k]) else None
  }

  /** The reading is this daemon's own projection write and stable still says the same. */
  predicate IsSelfEcho(t: Tables, r: Reading) {
    var intent := AppliedIntent(t, r);
    && intent.Some?
    && r.path in t.stableTree && t.stableTree[r.path].oid == intent.value.oid
    && intent.value.oid in t.stableText && t.stableText[intent.value.oid] == intent.value.doc
  }

  function DropIntents(t: Tables, p: Path): Tables {
    t.(intents := map k | k in t.intents && k.path != p :: t.intents[k],
       applied := map k | k in t.applied && k.path != p :: t.applied[k])
  }

  function AcceptPrior(t: Tables, p: Path, row: PriorRow, doc: TextDoc): Tables {
    t.(priorText := t.priorText[row.oid := doc], priorTree := t.priorTree[p := row])
  }

  /** `realign_prior_from_write_intent_tx`, when it consumes the reading. */
  function Realign(t: Tables, r: Reading): Tables
    requires IsSelfEcho(t, r)
  {
    var row := t.stableTree[r.path];
    DropIntents(AcceptPrior(t, r.path, PriorRow(row.claimed, row.claim, row.oid, r.finger, None), t.stableText[row.oid]), r.path)
  }

  predicate Recent(t: map<Path, PriorRow>, p: Path, cutoff: int) { p in t && t[p].deletedAt.Some? && t[p].deletedAt.value >= cutoff }

  predicate SameKey(t: map<Path, PriorRow>, p: Path, inode: nat, cutoff: int) { Recent(t, p, cutoff) && t[p].finger.stat.inode == inode }

  /** A path as it is stored and ordered in the tables. */
  function DbPath(p: seq<string>): string {
    if p == [] then "" else if |p| == 1 then p[0] else p[0] + "/" + DbPath(p[1..])
  }

  /** A tombstone that may be reused: recent, on the same path if there is one, else with the same file key. */
  ghost predicate ReuseChoice(t: map<Path, PriorRow>, r: Reading, cutoff: int, reuse: Option<Path>) {
    var inode := r.finger.stat.inode;
    if Recent(t, r.path, cutoff) then reuse == Some(r.path)
    else if exists p :: SameKey(t, p, inode, cutoff) then
      && reuse.Some? && SameKey(t, reuse.value, inode, cutoff)
      && forall p: Path :: SameKey(t, p, inode, cutoff) && p != reuse.value ==>
        || t[p].deletedAt.value < t[reuse.value].deletedAt.value
        || (t[p].deletedAt == t[reuse.value].deletedAt && StringLess(DbPath(reuse.value), DbPath(p)))
    else reuse == None
  }

  /** What the foreign code and the id generators supply while staging one reading. */
  datatype Supply = Supply(reuse: Option<Path>, edit: TextDoc, whole: TextDoc, oid: ObjectId, claim: ClaimId)

  function StageExisting(env: Env, t: Tables, r: Reading, row: PriorRow, kind: StageKind, claim: ClaimId, edit: TextDoc): Staged {
    var base := Doc(t.priorText, row.oid);
    if env.render(base) == r.content
    then Staged(r.path, row.oid, claim, kind, r.finger, base, None)
    else Staged(r.path, row.oid, claim, kind, r.finger, base + edit, Some(edit))
  }

  function StagedRow(env: Env, t: Tables, r: Reading, s: Supply): Staged
    requires s.reuse.Some? ==> s.reuse.value in t.priorTree
  {
    if IsLive(t.priorTree, r.path) then
      StageExisting(env, t, r, t.priorTree[r.path], Update, t.priorTree[r.path].claim, s.edit)
    else if s.reuse.Some? then
      StageExisting(env, t, r, t.priorTree[s.reuse.value], Resurrect, s.claim, s.edit)
    else Staged(r.path, s.oid, s.claim, New, r.finger, s.whole, Some(s.whole))
  }

  /** The UNIQUE constraints of import_staged_files. */
  predicate CanInsert(staged: seq<Staged>, row: Staged) {
    forall i :: 0 <= i < |staged| ==> staged[i].path != row.path && staged[i].oid != row.oid && staged[i].claim != row.claim
  }

  /** `stage_import_action_tx` in a sync epoch. */
  function Stage(env: Env, t: Tables, r: Reading, s: Supply): Outcome<Tables>
    requires s.reuse.Some? ==> s.reuse.value in t.priorTree
  {
    if IsSelfEcho(t, r) then Ok(Realign(t, r))
    else
      var row := StagedRow(env, t, r, s);
      if CanInsert(t.staged, row) then Ok(t.(staged := t.staged + [row])) else Fault
  }

  // ---------------------------------------------------------------- committing an import

  function StagedFacts(me: Me, staged: seq<Staged>): seq<NsFact> {
    if staged == [] then []
    else
      var row := staged[|staged| - 1];
      StagedFacts(me, staged[..|staged| - 1]) +
        match row.kind
        case New => [AddObject(row.oid, Text, me.writer), AddClaim(row.claim, row.oid, row.path)]
        case Resurrect => [AddClaim(row.claim, row.oid, row.path)]
        case Update => []
  }

  function NamespaceChanged(staged: seq<Staged>): bool {
    exists i :: 0 <= i < |staged| && !staged[i].kind.Update?
  }

  function CommitRow(t: Tables, row: Staged): Tables {
    var stable := Doc(t.stableText, row.oid) + (if row.update.Some? then row.update.value else {});
    AcceptPrior(t.(stableText := t.stableText[row.oid := stable]),
                row.path, PriorRow(row.path, row.claim, row.oid, row.finger, None), row.priorDoc)
  }

  function CommitRows(t: Tables, rows: seq<Staged>): Tables {
    if rows == [] then t else CommitRow(CommitRows(t, rows[..|rows| - 1]), rows[|rows| - 1])
  }

  function TextMessages(rows: seq<Staged>): seq<Message> {
    if rows == [] then []
    else
      var row := rows[|rows| - 1];
      TextMessages(rows[..|rows| - 1])
      + if row.update.Some? then [TextObjectUpdate(row.oid, row.update.value)] else []
  }

  /** The namespace half of `commit_sync_import_epoch_tx`. */
  ghost function CommitNamespace(me: Me, t: Tables): Outcome<Tx> {
    if !NamespaceChanged(t.staged) then Ok(Tx(t, []))
    else
      var u := NsOps(me.client, NsClock(t.priorNs, me.client), StagedFacts(me, t.staged));
      match WriteNamespace(t, t.stableNs + u)
      case Fault => Fault
      case Ok(t1) => Ok(Tx(t1.(priorNs := t.priorNs + u), [NamespaceUpdate(u)]))
  }

  /** `commit_sync_import_epoch_tx`. */
  ghost function CommitImport(me: Me, t: Tables): Outcome<Tx> {
    match CommitNamespace(me, t)
    case Fault => Fault
    case Ok(tx) =>
      Ok(Tx(CommitRows(tx.tables, t.staged).(staged := []), tx.out + TextMessages(t.staged)))
  }

  // ---------------------------------------------------------------- projection

  /** A planned file operation; `expected` is what must be on disk before it (None: nothing). */
  datatype Action =
    | WriteFile(row: TreeRow, doc: TextDoc, expected: Option<Fingerprint>)
    | DeleteFile(was: Fingerprint)

  type Plan = map<Path, Action>

  /** The stable path `p` is already what prior says is on disk. */
  predicate UpToDate(t: Tables, p: Path)
    requires p in t.stableTree
  {
    && IsLive(t.priorTree, p) && t.priorTree[p].oid == t.stableTree[p].oid
    && Doc(t.priorText, t.priorTree[p].oid) == Doc(t.stableText, t.stableTree[p].oid)
  }

  function PlanOf(t: Tables): Plan {
    (map p | p in t.stableTree && !UpToDate(t, p) ::
       WriteFile(t.stableTree[p], Doc(t.stableText, t.stableTree[p].oid),
                 if IsLive(t.priorTree, p) then Some(t.priorTree[p].finger) else None))
    + (map p | p in t.priorTree && IsLive(t.priorTree, p) && p !in t.stableTree :: DeleteFile(t.priorTree[p].finger))
  }

  function IntentOf(env: Env, p: Path, a: Action): IntentKey
    requires a.WriteFile?
  {
    IntentKey(p, env.hash(env.render(a.doc)))
  }

  /** The write intents of a plan. */
  function IntentsFor(env: Env, plan: Plan): map<IntentKey, Intent> {
    map p | p in plan && plan[p].WriteFile? :: IntentOf(env, p, plan[p]) := Intent(plan[p].row.oid, plan[p].doc)
  }

  /** `get_next_work_tx`: the plan, with a write intent recorded for every write. */
  function NextWork(env: Env, t: Tables): Tables { t.(intents := t.intents + IntentsFor(env, PlanOf(t))) }

  /** `commit_projection_action` for a write that is on disk. */
  function MarkApplied(t: Tables, p: Path, finger: Fingerprint): Tables {
    var k := IntentKey(p, finger.hash);
    if k in t.intents then t.(applied := t.applied[k := finger.stat]) else t
  }

  /** One completed action of an exhausted plan; `finger` is the fingerprint a write left. */
  function CommitAction(t: Tables, p: Path, a: Action, finger: Fingerprint, now: int): Tables {
    DropIntents(
      (match a
       case WriteFile(row, doc, _) =>
         AcceptPrior(t, p, PriorRow(row.claimed, row.claim, row.oid, finger, None), doc)
       case DeleteFile(_) => t.(priorTree := Tombstone(t.priorTree, {p}, now))),
      p)
  }

  /** `commit_projection_epoch_tx` for an exhausted plan, its actions committed in the order `ps`. */
  function CommitActions(t: Tables, plan: Plan, ps: seq<Path>, fingers: map<Path, Fingerprint>, now: int): Tables
    requires forall p :: p in ps ==> p in plan && p in fingers
  {
    if ps == [] then t
    else
      var k := |ps| - 1;
      CommitAction(CommitActions(t, plan, ps[..k], fingers, now), ps[k], plan[ps[k]], fingers[ps[k]], now)
  }
}
