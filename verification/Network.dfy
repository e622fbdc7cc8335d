/** Any number of daemons and one shared log. */
module Network {
  import opened Common
  import opened Crdt
  import opened Documents
  import opened Delivery
  import opened Files
  import opened Replica
  import opened ReplicaSafety
  import opened ReplicaMint
  import opened ReplicaSteps

  // ---------------------------------------------------------------- one daemon's transactions

  datatype Local = Local(tables: Tables, mode: Mode)

  datatype LocalStep =
    | ApplyScan(missing: seq<Path>, now: int, importing: bool)
    | StageFile(reading: Reading, supply: Supply, cutoff: int)
    | CommitImportEpoch
    | PlanProjection
    | RecordWrite(path: Path, finger: Fingerprint)
    | CommitProjectionEpoch(order: seq<Path>, fingers: map<Path, Fingerprint>, now: int)
    | DropProjection                     // an action invalidated the epoch

  datatype LocalTx = LocalTx(local: Local, out: seq<Message>)

  ghost predicate LocalEnabled(env: Env, me: Me, s: Local, step: LocalStep) {
    match step
    case ApplyScan(missing, _, _) =>
      s.mode.Idle? && forall p :: p in missing ==> p in s.tables.priorTree && s.tables.priorTree[p].deletedAt.None?
    case StageFile(r, supply, cutoff) => s.mode.Importing? && SupplyOk(env, s.tables, r, supply, cutoff, me.client)
    case CommitImportEpoch => s.mode.Importing?
    case PlanProjection => s.mode.Idle?
    case RecordWrite(_, _) => s.mode.Projecting?
    case CommitProjectionEpoch(order, fingers, _) =>
      s.mode.Projecting? && (forall p :: p in order <==> p in s.mode.plan) && forall p :: p in order ==> p in fingers
    case DropProjection => s.mode.Projecting?
  }

  ghost function LocalNext(env: Env, me: Me, s: Local, step: LocalStep): Outcome<LocalTx>
    requires LocalEnabled(env, me, s, step)
  {
    match step
    case ApplyScan(missing, now, importing) =>
      (match LocalDeletes(me, s.tables, missing, now)
       case Fault => Fault
       case Ok(tx) => Ok(LocalTx(Local(tx.tables, if importing then Importing else Idle), tx.out)))
    case StageFile(r, supply, cutoff) =>
      (match Stage(env, s.tables, r, supply)
       case Fault => Fault
       case Ok(t) => Ok(LocalTx(Local(t, Importing), [])))
    case CommitImportEpoch =>
      (match CommitImport(me, s.tables)
       case Fault => Fault
       case Ok(tx) => Ok(LocalTx(Local(tx.tables, Idle), tx.out)))
    case PlanProjection =>
      var plan := PlanOf(s.tables);
      Ok(LocalTx(Local(NextWork(env, s.tables), if plan == map[] then Idle else Projecting(s.tables.stableNs, plan)), []))
    case RecordWrite(p, finger) => Ok(LocalTx(Local(MarkApplied(s.tables, p, finger), s.mode), []))
    case CommitProjectionEpoch(order, fingers, now) =>
      Ok(LocalTx(Local(CommitActions(s.tables.(priorNs := s.mode.target), s.mode.plan, order, fingers, now), Idle), []))
    case DropProjection => Ok(LocalTx(s.(mode := Idle), []))
  }

  /** Only commits write the stable namespace. */
  lemma LocalKeeps(env: Env, me: Me, s: Local, step: LocalStep)
    requires ReplicaInv(s.tables, s.mode, me.client) && LocalEnabled(env, me, s, step) && LocalNext(env, me, s, step).Ok?
    requires OneClaimEach(LocalNext(env, me, s, step).value.local.tables.stableNs)
    ensures var tx := LocalNext(env, me, s, step).value;
      && ReplicaInv(tx.local.tables, tx.local.mode, me.client)
      && StableOps(tx.local.tables) == StableOps(s.tables) + Join(tx.out)
      && MintOk(StableOps(s.tables), tx.out, me.client)
  {
    var t, c := s.tables, me.client;
    assert Join([]) == {} && StableOps(t) + {} == StableOps(t);
    match step {
      case ApplyScan(missing, now, _) => KeepDeletes(me, t, missing, now);
      case StageFile(r, supply, cutoff) => KeepStageFile(env, t, r, supply, cutoff, c);
      case CommitImportEpoch => KeepCommitImport(me, t);
      case PlanProjection => KeepPlanned(env, t, c);
      case RecordWrite(p, finger) => KeepMark(t, s.mode, p, finger, c);
      case CommitProjectionEpoch(order, fingers, now) => KeepCommitProjection(t, s.mode, order, fingers, now, c);
      case DropProjection =>
    }
  }

  lemma KeepStageFile(env: Env, t: Tables, r: Reading, s: Supply, cutoff: int, c: nat)
    requires ReplicaInv(t, Importing, c) && SupplyOk(env, t, r, s, cutoff, c) && Stage(env, t, r, s).Ok?
    ensures ReplicaInv(Stage(env, t, r, s).value, Importing, c)
    ensures StableOps(Stage(env, t, r, s).value) == StableOps(t)
  {
    if IsSelfEcho(t, r) {
      KeepRealign(t, r, c);
    } else {
      StagedRowOk(env, t, r, s, cutoff, c);
      KeepStagedRow(t, StagedRow(env, t, r, s), c);
    }
  }

  lemma KeepPlanned(env: Env, t: Tables, c: nat)
    requires ReplicaInv(t, Idle, c)
    ensures ReplicaInv(NextWork(env, t), Idle, c) && ReplicaInv(NextWork(env, t), Projecting(t.stableNs, PlanOf(t)), c)
    ensures StableOps(NextWork(env, t)) == StableOps(t)
  {
    KeepPlan(env, t, c);
  }

  // ---------------------------------------------------------------- the world

  datatype Daemon = Daemon(me: Me, local: Local, node: Node)

  datatype World = World(daemons: seq<Daemon>, log: seq<Record>)

  datatype WorldStep =
    | Transact(d: nat, step: LocalStep)
    | Deliver(d: nat, move: Delivery.Step)
    | Apply(d: nat, count: nat)          // the next `count` records of the log, as one batch
    | Restart(d: nat)                    // crash: volatile state, staged rows and marks are lost
    | Repeat(at: nat)                    // the log service appends a record again

  /** Every operation any daemon has minted. */
  ghost predicate InWorld(w: World, op: Op) {
    exists d :: 0 <= d < |w.daemons| && op in Join(w.daemons[d].node.minted)
  }

  /** Generated object and claim ids are new: nobody has ever minted them. */
  ghost predicate GeneratedFresh(w: World, staged: seq<Staged>) {
    && (forall i, op :: 0 <= i < |staged| && !staged[i].kind.Update? && InWorld(w, op) && op.Ns? ==>
          !(op.ns.fact.AddClaim? && op.ns.fact.claim == staged[i].claim))
    && (forall i, op :: 0 <= i < |staged| && staged[i].kind.New? && InWorld(w, op) && op.Ns? ==>
          !(op.ns.fact.AddObject? && op.ns.fact.oid == staged[i].oid))
  }

  ghost predicate WorldEnabled(env: Env, w: World, step: WorldStep) {
    match step
    case Transact(d, s) =>
      && d < |w.daemons| && LocalEnabled(env, w.daemons[d].me, w.daemons[d].local, s)
      && (s.CommitImportEpoch? ==> GeneratedFresh(w, w.daemons[d].local.tables.staged))
    case Deliver(d, move) =>
      && d < |w.daemons| && !move.Mint? && !move.Crash?
      && Enabled(w.daemons[d].node, move) && Timely(w.daemons[d].node, move)
    case Apply(d, count) =>
      d < |w.daemons| && 0 < count && w.daemons[d].local.tables.cursor + count <= |w.log|
    case Restart(d) => d < |w.daemons|
    case Repeat(at) => at < |w.log|
  }

  function AfterMint(node: Node, out: seq<Message>): Node {
    if out == [] then node else Minted(node, out)
  }

  ghost function Batch(w: World, d: nat, count: nat): seq<Record>
    requires d < |w.daemons| && w.daemons[d].local.tables.cursor + count <= |w.log|
  {
    w.log[w.daemons[d].local.tables.cursor..w.daemons[d].local.tables.cursor + count]
  }

  /** A daemon whose transaction faults stays where it was: the transaction is rolled back. */
  ghost function WorldNext(env: Env, w: World, step: WorldStep): Outcome<World>
    requires WorldEnabled(env, w, step)
  {
    match step
    case Transact(d, s) =>
      var it := w.daemons[d];
      (match LocalNext(env, it.me, it.local, s)
       case Fault => Fault
       case Ok(tx) => Ok(w.(daemons := w.daemons[d := it.(local := tx.local, node := AfterMint(it.node, tx.out))])))
    case Deliver(d, move) =>
      var it := w.daemons[d];
      (match Next(it.node, move)
       case Fault => Fault
       case Ok(node) => Ok(World(w.daemons[d := it.(node := node)], w.log + Landing(d, it.node, move))))
    case Apply(d, count) =>
      var it := w.daemons[d];
      (match ApplyBatch(d, it.local.tables, it.local.tables.cursor, Batch(w, d, count))
       case Fault => Fault
       case Ok(t) => Ok(w.(daemons := w.daemons[d := it.(local := it.local.(tables := t))])))
    case Restart(d) =>
      var it := w.daemons[d];
      Ok(w.(daemons := w.daemons[d := it.(local := Local(it.local.tables.(staged := []), Idle), node := Restarted(it.node))]))
    case Repeat(at) => Ok(w.(log := w.log + [w.log[at]]))
  }

  /** Daemons that have not started yet, with distinct client ids, and an empty log. */
  ghost predicate Initial(w: World) {
    && w.log == []
    && forall d :: 0 <= d < |w.daemons| ==>
      && w.daemons[d].me.origin == d
      && w.daemons[d].node == Fresh()
      && w.daemons[d].local == Local(Tables(0, {}, map[], map[], {}, map[], map[], [], map[], map[]), Idle)
      && forall e :: 0 <= e < d ==> w.daemons[e].me.client != w.daemons[d].me.client
  }
}
