/** The daemon with its epoch machine does to tables and disk what the daemon of `Projection` may do. */
module JointRefines {
  import opened Common
  import opened Crdt
  import opened FileStore
  import opened Documents
  import opened Delivery
  import opened Replica
  import opened ReplicaSafety
  import opened ReplicaSteps
  import opened Network
  import opened Projection
  import opened Joint
  import opened JointSafety
  import E = Epochs
  import ES = EpochSafety
  import EF = EpochFrames

  /** What the machine leaves open in `Projection` is decided: the mode by the ledger, the results by what is recorded. */
  ghost predicate Shows(j: Joint, h: Host) {
    && h.disk == j.disk && h.versions == j.versions && h.local == Local(j.tables, ModeOf(j)) && h.done == j.done
    && forall n :: n in j.readings ==> j.readings[n] in h.readings
  }

  /** The step a file-system task takes. */
  function FsHost(j: Joint, i: nat): Option<HostStep>
    requires i < |j.sys.fs.pending|
  {
    var t := j.sys.fs.pending[i];
    if IsRead(j, t) then Some(ReadFile(j.files[t.id.num].path, PresentStat(j.files[t.id.num].stat)))
    else if IsAction(j, t) then Some(HostStep.Perform(j.order[t.id.num]))
    else None
  }

  function ActionStep(j: Joint, kind: E.Kind, id: E.ActionId, arg: Arg): Option<HostStep> {
    if kind.Import? then
      if id.num in j.readings && !arg.ignore then Some(Db(StageFile(j.readings[id.num], arg.supply, arg.cutoff))) else None
    else if id.num < |j.order| && j.order[id.num] in j.done && j.done[j.order[id.num]].Wrote? then
      Some(Db(RecordWrite(j.order[id.num], j.done[j.order[id.num]].finger)))
    else None
  }

  function CloseStep(j: Joint, kind: E.Kind, exhausted: bool, now: int): (step: HostStep)
    ensures step.Db?
  {
    if kind.Import? then Db(CommitImportEpoch)
    else if exhausted then Db(CommitProjectionEpoch(j.order, FingersOf(j.plan, j.done), now))
    else Db(DropProjection)
  }

  /** The step a request takes. */
  function StartHost(j: Joint, arg: Arg): Option<HostStep>
    requires j.sys.actor.lane != []
  {
    match j.sys.actor.lane[0]
    case ApplyScan => Some(Db(LocalStep.ApplyScan(arg.missing, arg.now, arg.files != [])))
    case CommitAction(kind, id) => ActionStep(j, kind, id, arg)
    case CommitEpoch(kind, _, exhausted) => Some(CloseStep(j, kind, exhausted, arg.now))
    case GetNextWork(_) => Some(Db(PlanProjection))
    case ApplyBatch => Some(Receive(arg.batch))
    case Chore => None
  }

  function HostOf(j: Joint, step: JointStep): Option<HostStep> {
    match step
    case User(c) => Some(HostStep.User(c))
    case FsRun(i) => if i < |j.sys.fs.pending| then FsHost(j, i) else None
    case Start(arg) => if j.sys.actor.lane != [] then StartHost(j, arg) else None
    case Crash => Some(HostStep.Crash)
    case _ => None
  }

  /** `step`, if it is one, leads from what shows `j` to what shows `j'`. */
  ghost predicate Matched(env: Env, me: Me, h: Host, step: Option<HostStep>, j': Joint) {
    if step.None? then Shows(j', h)
    else
      && HostEnabled(env, me, h, step.value)
      && HostNext(env, me, h, step.value).Ok? && Shows(j', HostNext(env, me, h, step.value).value)
  }

  // ---------------------------------------------------------------- the mode

  /** The mode in which a request starts. */
  lemma ModeBefore(s: E.System, target: NsDoc, plan: Plan, files: seq<Target>)
    requires ES.Inv(s) && s.actor.lane != [] && s.actor.running == []
    ensures var mode := ModeBy(ES.Running(s.actor), s.actor.ledger.active, target, plan, files);
      match s.actor.lane[0]
      case ApplyScan => mode == Mode.Idle
      case GetNextWork(_) => mode == Mode.Idle
      case CommitAction(kind, _) => mode == if kind.Import? then Importing else Projecting(target, plan)
      case CommitEpoch(kind, _, _) => mode == if kind.Import? then Importing else Projecting(target, plan)
      case _ => true
  {
    EF.HeadInTurn(s);
    HeadMode(s.actor.lane[0], ES.Running(s.actor), s.actor.ledger.active, target, plan, files);
  }

  lemma HeadMode(r: E.Request, op: E.Op, active: map<E.Kind, E.Active>, target: NsDoc, plan: Plan, files: seq<Target>)
    requires op == E.Other
    requires r.ApplyScan? || r.GetNextWork? ==> active == map[]
    requires r.CommitAction? || r.CommitEpoch? ==> active.Keys == {r.kind}
    ensures var mode := ModeBy(op, active, target, plan, files);
      && (r.ApplyScan? || r.GetNextWork? ==> mode == Mode.Idle)
      && (r.CommitAction? || r.CommitEpoch? ==> mode == if r.kind.Import? then Importing else Projecting(target, plan))
  {
    if r.CommitAction? || r.CommitEpoch? { assert r.kind in active.Keys; }
  }

  /** The mode it leaves. */
  lemma ModeAfter(s: E.System, effect: E.Effect, target: NsDoc, plan: Plan, files: seq<Target>)
    requires ES.Inv(s) && s.actor.lane != [] && s.actor.running == []
    ensures E.StartRequest(s, effect).Ok?
    ensures var s' := E.StartRequest(s, effect).value; var mode := ModeBy(ES.Running(s'.actor), s'.actor.ledger.active, target, plan, files);
      match s.actor.lane[0]
      case ApplyScan => mode == if files != [] then Importing else Mode.Idle
      case GetNextWork(_) => mode == if s.work then Projecting(target, plan) else Mode.Idle
      case CommitEpoch(_, _, _) => mode == Mode.Idle
      case _ => mode == ModeBy(ES.Running(s.actor), s.actor.ledger.active, target, plan, files)
  {
    EF.HeadInTurn(s);
    EF.StartFrame(s, effect);
    var s' := E.StartRequest(s, effect).value;
    NextMode(s.actor.lane[0], s.work, ES.Running(s.actor), ES.Running(s'.actor), s.actor.ledger.active, s'.actor.ledger.active, target, plan, files);
  }

  lemma NextMode(r: E.Request, work: bool, op: E.Op, op': E.Op, active: map<E.Kind, E.Active>, active': map<E.Kind, E.Active>, target: NsDoc, plan: Plan, files: seq<Target>)
    requires op == E.Other && EF.RunsFor(r, op', work)
    requires r.ApplyScan? || r.GetNextWork? ==> active == map[]
    requires active' == if r.CommitEpoch? then map[] else active
    ensures var mode := ModeBy(op', active', target, plan, files);
      match r
      case ApplyScan => mode == if files != [] then Importing else Mode.Idle
      case GetNextWork(_) => mode == if work then Projecting(target, plan) else Mode.Idle
      case CommitEpoch(_, _, _) => mode == Mode.Idle
      case _ => mode == ModeBy(op, active, target, plan, files)
  {
  }

  // ---------------------------------------------------------------- requests

  /** At the commit of a projection every action has ended, refused ones only if it is discarded. */
  ghost predicate CommitReady(j: Joint)
    requires j.sys.actor.lane != [] && j.sys.actor.lane[0].CommitEpoch?
  {
    && Closes(j.sys.actor.(lane := j.sys.actor.lane[1..]), j.sys.actor.lane[0])
    && (j.sys.actor.lane[0].kind.Projection? ==>
          if AnyRefused(j.done) then !j.sys.actor.lane[0].exhausted
          else j.sys.actor.lane[0].exhausted && Succeeded(j.done, j.plan, FingersOf(j.plan, j.done)))
    && (forall p :: p in j.order <==> p in j.plan)
  }

  lemma CommitIs(j: Joint)
    requires JInv(j) && j.sys.actor.lane != [] && j.sys.actor.running == []
    requires j.sys.actor.lane[0].CommitEpoch?
    ensures CommitReady(j)
  {
    EF.HeadInTurn(j.sys);
    EF.PopDiscarding(j.sys);
    if j.sys.actor.lane[0].kind.Projection? && j.sys.actor.lane[0].exhausted {
      AllEnded(j.order, j.sys.actor.ledger.active[E.Projection].epoch, j.sys.history, j.plan, j.done);
    }
  }

  lemma AllEnded(order: seq<Path>, epoch: nat, history: set<E.ActionId>, plan: Plan, done: map<Path, Performed>)
    requires history == E.IdSet(Numbers(epoch, |order|)) && done.Keys == PathsOf(order, history)
    requires Ordered(order, plan) && WritesWrote(plan, done) && !AnyRefused(done)
    ensures Succeeded(done, plan, FingersOf(plan, done))
  {
    forall p | p in plan ensures p in done && !done[p].Refused? && (plan[p].WriteFile? ==> done[p] == Wrote(FingersOf(plan, done)[p])) {
      assert p in order;
      var k :| 0 <= k < |order| && order[k] == p;
      assert Numbers(epoch, |order|)[k] in Numbers(epoch, |order|);
      assert E.ActionId(epoch, k) in history;
      assert p in PathsOf(order, history);
    }
  }

  /** The two modes of a request, as its transaction needs and leaves them. */
  predicate ModesTurn(j: Joint, j': Joint)
    requires j.sys.actor.lane != []
  {
    match j.sys.actor.lane[0]
    case ApplyScan => ModeOf(j) == Mode.Idle && ModeOf(j') == (if j'.files != [] then Importing else Mode.Idle)
    case CommitAction(kind, _) =>
      ModeOf(j') == ModeOf(j) && ModeOf(j) == (if kind.Import? then Importing else Projecting(j.target, j.plan))
    case CommitEpoch(kind, _, _) =>
      ModeOf(j') == Mode.Idle && ModeOf(j) == (if kind.Import? then Importing else Projecting(j.target, j.plan))
    case GetNextWork(_) =>
      && ModeOf(j) == Mode.Idle
      && ModeOf(j') == (if PlanOf(j.tables) == map[] then Mode.Idle else Projecting(j'.target, j'.plan))
    case _ => ModeOf(j') == ModeOf(j)
  }

  lemma ModeTurn(j: Joint, effect: E.Effect, j': Joint)
    requires JInv(j) && j.sys.actor.lane != [] && j.sys.actor.running == [] && BegunBy(j, effect, j')
    ensures ModesTurn(j, j')
  {
    ModeBefore(j.sys, j.target, j.plan, j.files);
    ModeAfter(j.sys, effect, j'.target, j'.plan, j'.files);
  }

  lemma ScanEnabled(env: Env, me: Me, h: Host, missing: seq<Path>, now: int, importing: bool)
    requires h.local.mode == Mode.Idle && LocalDeletesReady(h.local.tables, missing)
    ensures HostEnabled(env, me, h, Db(LocalStep.ApplyScan(missing, now, importing)))
  {
  }

  predicate LocalDeletesReady(t: Tables, missing: seq<Path>) {
    forall p :: p in missing ==> p in t.priorTree && t.priorTree[p].deletedAt.None?
  }

  lemma ScanMatched(env: Env, me: Me, j: Joint, arg: Arg, h: Host, j': Joint)
    requires Shows(j, h) && ModeOf(j) == Mode.Idle && ModeOf(j') == (if arg.files != [] then Importing else Mode.Idle)
    requires forall p :: p in arg.missing ==> p in j.tables.priorTree && j.tables.priorTree[p].deletedAt.None?
    requires LocalDeletes(me, j.tables, arg.missing, arg.now).Ok? && j'.tables == LocalDeletes(me, j.tables, arg.missing, arg.now).value.tables
    requires j'.disk == j.disk && j'.versions == j.versions && j'.done == j.done && j'.readings == map[]
    ensures Matched(env, me, h, Some(Db(LocalStep.ApplyScan(arg.missing, arg.now, arg.files != []))), j')
  {
    ScanEnabled(env, me, h, arg.missing, arg.now, arg.files != []);
  }

  /** A transaction inside an epoch; readings and results stay. */
  lemma DbMatched(env: Env, me: Me, j: Joint, h: Host, step: LocalStep, j': Joint)
    requires Shows(j, h) && !step.ApplyScan? && HostEnabled(env, me, h, Db(step)) && LocalNext(env, me, h.local, step).Ok?
    requires LocalNext(env, me, h.local, step).value.local == Local(j'.tables, ModeOf(j'))
    requires j'.disk == j.disk && j'.versions == j.versions && j'.readings == j.readings
    requires j'.done == if step.PlanProjection? then map[] else j.done
    ensures Matched(env, me, h, Some(Db(step)), j')
  {
  }

  lemma StartMatched(env: Env, me: Me, j: Joint, arg: Arg, h: Host)
    requires JInv(j) && Shows(j, h) && j.sys.actor.lane != [] && j.sys.actor.running == [] && ArgOk(env, me, j, arg)
    requires Started(env, me, j, arg).Ok?
    ensures Matched(env, me, h, StartHost(j, arg), Started(env, me, j, arg).value)
  {
    StartShape(env, me, j, arg);
    var j' := Started(env, me, j, arg).value;
    ModeTurn(j, E.Effect(Announced(me.origin, arg.batch), Works(j'.tables)), j');
    if j.sys.actor.lane[0].CommitEpoch? { CommitIs(j); }
    RequestMatched(env, me, j, arg, h, j', E.Effect(Announced(me.origin, arg.batch), Works(j'.tables)));
  }

  lemma RequestMatched(env: Env, me: Me, j: Joint, arg: Arg, h: Host, j': Joint, effect: E.Effect)
    requires Shows(j, h) && j.sys.actor.lane != [] && ModesTurn(j, j') && ArgOk(env, me, j, arg) && BegunBy(j, effect, j')
    requires TablesAfter(env, me, j, arg) == Ok(j'.tables)
    requires j.sys.actor.lane[0].CommitEpoch? ==> CommitReady(j)
    requires j.sys.actor.lane[0].ApplyScan? ==> j'.files == arg.files
    ensures Matched(env, me, h, StartHost(j, arg), j')
  {
    match j.sys.actor.lane[0] {
      case ApplyScan => ScanMatched(env, me, j, arg, h, j');
      case CommitEpoch(kind, _, exhausted) => CloseMatched(env, me, j, kind, exhausted, arg.now, h, j');
      case CommitAction(kind, id) => ActionMatched(env, me, j, kind, id, arg, h, j');
      case GetNextWork(_) => PlanMatched(env, me, j, h, j');
      case ApplyBatch => BatchMatched(env, me, j, arg.batch, h, j');
      case Chore =>
    }
  }

  lemma CloseMatched(env: Env, me: Me, j: Joint, kind: E.Kind, exhausted: bool, now: int, h: Host, j': Joint)
    requires Shows(j, h) && ModeOf(j) == (if kind.Import? then Importing else Projecting(j.target, j.plan)) && ModeOf(j') == Mode.Idle
    requires ClosedTables(me, j, kind, exhausted, now) == Ok(j'.tables) && (forall p :: p in j.order <==> p in j.plan)
    requires kind.Projection? ==>
      if AnyRefused(j.done) then !exhausted else exhausted && Succeeded(j.done, j.plan, FingersOf(j.plan, j.done))
    requires j'.disk == j.disk && j'.versions == j.versions && j'.readings == j.readings && j'.done == j.done
    ensures Matched(env, me, h, Some(CloseStep(j, kind, exhausted, now)), j')
  {
    DbMatched(env, me, j, h, CloseStep(j, kind, exhausted, now).step, j');
  }

  lemma ActionMatched(env: Env, me: Me, j: Joint, kind: E.Kind, id: E.ActionId, arg: Arg, h: Host, j': Joint)
    requires Shows(j, h) && ModeOf(j') == ModeOf(j) == (if kind.Import? then Importing else Projecting(j.target, j.plan))
    requires kind.Import? && id.num in j.readings && !arg.ignore ==> SupplyOk(env, j.tables, j.readings[id.num], arg.supply, arg.cutoff, me.client)
    requires ActionTables(env, j, kind, id, arg.supply, arg.ignore) == Ok(j'.tables)
    requires j'.disk == j.disk && j'.versions == j.versions && j'.readings == j.readings && j'.done == j.done
    ensures Matched(env, me, h, ActionStep(j, kind, id, arg), j')
  {
    if ActionStep(j, kind, id, arg).Some? { DbMatched(env, me, j, h, ActionStep(j, kind, id, arg).value.step, j'); }
  }

  lemma PlanMatched(env: Env, me: Me, j: Joint, h: Host, j': Joint)
    requires Shows(j, h) && ModeOf(j) == Mode.Idle && j'.tables == NextWork(env, j.tables)
    requires ModeOf(j') == if PlanOf(j.tables) == map[] then Mode.Idle else Projecting(j.tables.stableNs, PlanOf(j.tables))
    requires j'.disk == j.disk && j'.versions == j.versions && j'.readings == j.readings && j'.done == map[]
    ensures Matched(env, me, h, Some(Db(PlanProjection)), j')
  {
    DbMatched(env, me, j, h, PlanProjection, j');
  }

  lemma BatchMatched(env: Env, me: Me, j: Joint, batch: seq<Record>, h: Host, j': Joint)
    requires Shows(j, h) && ModeOf(j') == ModeOf(j) && ApplyBatch(me.origin, j.tables, j.tables.cursor, batch) == Ok(j'.tables)
    requires j'.disk == j.disk && j'.versions == j.versions && j'.readings == j.readings && j'.done == j.done
    ensures Matched(env, me, h, Some(Receive(batch)), j')
  {
  }

  // ---------------------------------------------------------------- file operations

  lemma PerformMatched(env: Env, me: Me, j: Joint, p: Path, h: Host)
    requires Shows(j, h) && p in j.plan && ModeOf(j) == Projecting(j.target, j.plan) && p !in j.done && !AnyRefused(j.done)
    requires ModeOf(PerformPlanned(env, j, p)) == ModeOf(j)
    ensures Matched(env, me, h, Some(HostStep.Perform(p)), PerformPlanned(env, j, p))
  {
  }

  lemma ReadMatched(env: Env, me: Me, j: Joint, num: nat, h: Host)
    requires Shows(j, h) && num < |j.files| && ModeOf(j) == Importing && ModeOf(ReadTarget(env, j, num)) == ModeOf(j)
    ensures Matched(env, me, h, Some(ReadFile(j.files[num].path, PresentStat(j.files[num].stat))), ReadTarget(env, j, num))
  {
  }

  /** An operation is out only in its own epoch. */
  lemma ModeOut(s: E.System, target: NsDoc, plan: Plan, files: seq<Target>)
    requires ES.Inv(s) && s.fs.pending != [] && s.fs.pending[0].Perform?
    ensures |s.fs.pending| == 1
    ensures ModeBy(ES.Running(s.actor), s.actor.ledger.active, target, plan, files) ==
            if s.fs.pending[0].kind.Import? then Importing else Projecting(target, plan)
  {
    var kind := s.fs.pending[0].kind;
    assert kind in s.actor.ledger.active.Keys;
    assert kind.Import? ==> E.Projection !in s.actor.ledger.active.Keys;
  }

  lemma TaskMatched(env: Env, me: Me, j: Joint, i: nat, h: Host)
    requires Shows(j, h) && i < |j.sys.fs.pending| && ModeOf(Ran(env, j, i)) == ModeOf(j)
    requires var t := j.sys.fs.pending[i];
      && (IsRead(j, t) ==> ModeOf(j) == Importing)
      && (IsAction(j, t) ==> ModeOf(j) == Projecting(j.target, j.plan) && j.order[t.id.num] !in j.done && !AnyRefused(j.done))
    ensures Matched(env, me, h, FsHost(j, i), Ran(env, j, i))
  {
    var t := j.sys.fs.pending[i];
    if IsRead(j, t) { ReadMatched(env, me, j, t.id.num, h); }
    else if IsAction(j, t) { PerformMatched(env, me, j, j.order[t.id.num], h); }
  }

  lemma TaskInTurn(j: Joint, i: nat)
    requires JInv(j) && i < |j.sys.fs.pending| && !j.answered
    ensures var t := j.sys.fs.pending[i];
      && (IsRead(j, t) ==> ModeOf(j) == Importing)
      && (IsAction(j, t) ==> ModeOf(j) == Projecting(j.target, j.plan) && j.order[t.id.num] !in j.done && !AnyRefused(j.done))
  {
    PhaseOut(j);
    var t := j.sys.fs.pending[i];
    if t.Perform? { ModeOut(j.sys, j.target, j.plan, j.files); }
    if t.Perform? && t.kind.Projection? { NotYet(j, i); }
  }

  lemma RanMatched(env: Env, me: Me, j: Joint, i: nat, h: Host)
    requires JInv(j) && Shows(j, h) && i < |j.sys.fs.pending| && !j.answered
    ensures Matched(env, me, h, FsHost(j, i), Ran(env, j, i))
  {
    RanKeeps(env, j, i);
    TaskInTurn(j, i);
    TaskMatched(env, me, j, i, h);
  }

  // ---------------------------------------------------------------- every step

  lemma StepMatched(env: Env, me: Me, j: Joint, step: JointStep, h: Host)
    requires JInv(j) && Shows(j, h) && JointEnabled(env, me, j, step) && JointNext(env, me, j, step).Ok?
    ensures Matched(env, me, h, HostOf(j, step), JointNext(env, me, j, step).value)
  {
    match step {
      case Ask(s) => AskKeeps(env, me, j, s);
      case TakeReply(i) => ReplyKeeps(j, i);
      case FsRun(i) => RanMatched(env, me, j, i, h);
      case TakeFs(i, swapLeft) => TakenKeeps(j, i, swapLeft);
      case Start(arg) => StartMatched(env, me, j, arg, h);
      case Finish(i) => FinishKeeps(j, i);
      case User(c) => UserMatched(env, me, j, c, h);
      case Crash => CrashMatched(env, me, j, h);
    }
  }

  lemma UserMatched(env: Env, me: Me, j: Joint, c: Change, h: Host)
    requires Shows(j, h)
    ensures Matched(env, me, h, Some(HostStep.User(c)), JointNext(env, me, j, JointStep.User(c)).value)
  {
  }

  lemma CrashMatched(env: Env, me: Me, j: Joint, h: Host)
    requires Shows(j, h)
    ensures Matched(env, me, h, Some(HostStep.Crash), Recovered(j))
  {
    IdleAtStart(Works(Recovered(j).tables), j.target, j.plan, j.files);
  }
}
