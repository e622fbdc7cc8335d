/** The run invariant of the phase machine, the lane and the ledger. */
module EpochSafety {
  import opened Common
  import opened Scans
  import opened Epochs

  // ---------------------------------------------------------------- what matters in the mailboxes

  predicate IsCore(r: Request) { !r.ApplyBatch? && !r.Chore? }

  predicate IsCoreReply(r: Reply) { !r.BatchDone? && !r.ChoreDone? }

  /** The requests that belong to the phase protocol, without batches and chores. */
  function Core(lane: seq<Request>): seq<Request> {
    if lane == [] then [] else (if IsCore(lane[0]) then [lane[0]] else []) + Core(lane[1..])
  }

  function CoreReplies(rs: seq<Reply>): seq<Reply> {
    if rs == [] then [] else (if IsCoreReply(rs[0]) then [rs[0]] else []) + CoreReplies(rs[1..])
  }

  function Running(a: Actor): Op { if a.running == [] then Other else a.running[0].op }

  predicate Quiet(r: Op) { r.Batch? || r.Other? }

  lemma {:induction false} CorePush(lane: seq<Request>, r: Request)
    ensures Core(lane + [r]) == Core(lane) + if IsCore(r) then [r] else []
  {
    if lane == [] {
      assert lane + [r] == [r] && [r][1..] == [];
    } else {
      var first, last := if IsCore(lane[0]) then [lane[0]] else [], if IsCore(r) then [r] else [];
      assert (lane + [r])[0] == lane[0] && (lane + [r])[1..] == lane[1..] + [r];
      CorePush(lane[1..], r);
      assert first + (Core(lane[1..]) + last) == first + Core(lane[1..]) + last;
    }
  }

  lemma {:induction false} RepliesConcat(a: seq<Reply>, b: seq<Reply>)
    ensures CoreReplies(a + b) == CoreReplies(a) + CoreReplies(b)
  {
    if a == [] {
      assert a + b == b;
    } else {
      var first := if IsCoreReply(a[0]) then [a[0]] else [];
      assert (a + b)[0] == a[0] && (a + b)[1..] == a[1..] + b;
      RepliesConcat(a[1..], b);
      assert first + (CoreReplies(a[1..]) + CoreReplies(b)) == first + CoreReplies(a[1..]) + CoreReplies(b);
    }
  }

  lemma ReplyPush(rs: seq<Reply>, r: Reply)
    ensures CoreReplies(rs + [r]) == CoreReplies(rs) + if IsCoreReply(r) then [r] else []
  {
    RepliesConcat(rs, [r]);
  }

  /** Taking a reply: a core reply is the only one there is. */
  lemma {:induction false} ReplyTake(rs: seq<Reply>, i: nat)
    requires i < |rs| && |CoreReplies(rs)| <= 1
    ensures var rest := rs[..i] + rs[i + 1..];
      if IsCoreReply(rs[i]) then CoreReplies(rs) == [rs[i]] && CoreReplies(rest) == []
      else CoreReplies(rest) == CoreReplies(rs)
  {
    var rest, tail := rs[..i] + rs[i + 1..], rs[1..];
    if i == 0 {
      assert rest == tail;
    } else {
      assert CoreReplies(rs) == (if IsCoreReply(rs[0]) then [rs[0]] else []) + CoreReplies(tail);
      ReplyTake(tail, i - 1);
      assert rest[0] == rs[0] && rest[1..] == tail[..i - 1] + tail[i..] && tail[i - 1] == rs[i];
    }
  }

  // ---------------------------------------------------------------- the invariant

  /** Single-flight: at most one transaction runs, at most one phase task is with the file system. */
  predicate Plumbing(a: Actor, fs: Fs) {
    && |a.running| <= 1 && a.deferred == map[]
    && a.pendingOps == (if a.running == [] then map[] else map[a.running[0].opId := a.running[0].op])
    && fs.phaseInflight == |fs.pending| <= 1 && fs.cleanups == fs.cleanupInflight
  }

  /** A freshly installed epoch. */
  predicate Installed(active: map<Kind, Active>, kind: Kind, st: Started) {
    active == map[kind := Active(st.epoch, IdSet(st.actions), {})] && WellFormed(st)
  }

  predicate AllCommits(lane: seq<Request>, kind: Kind) {
    forall i :: 0 <= i < |lane| ==> lane[i].CommitAction? && lane[i].kind == kind
  }

  function LaneIds(lane: seq<Request>): set<ActionId> {
    set i | 0 <= i < |lane| && lane[i].CommitAction? :: lane[i].id
  }

  predicate NoRepeats(lane: seq<Request>) {
    forall i, j :: 0 <= i < j < |lane| && lane[i].CommitAction? && lane[j].CommitAction? ==> lane[i].id != lane[j].id
  }

  predicate Unrepeated(ids: seq<ActionId>) {
    forall i, j :: 0 <= i < j < |ids| ==> ids[i] != ids[j]
  }

  function StagedIds(r: Op): set<ActionId> { if r.Stage? then {r.id} else {} }

  /**
   * Where the actions of an epoch are: committed, being committed, waiting for the lane, with
   * the file system, or not yet dispatched. Each is in one place only.
   */
  predicate Pipeline(kind: Kind, act: Active, r: Op, lane: seq<Request>, inFlight: set<ActionId>, queue: seq<ActionId>, history: set<ActionId>) {
    && (Quiet(r) || (r.Stage? && r.kind == kind))
    && AllCommits(lane, kind) && NoRepeats(lane) && Unrepeated(queue)
    && (act.completed !! StagedIds(r) !! LaneIds(lane) !! inFlight !! IdSet(queue))
    && history == act.completed + StagedIds(r) + LaneIds(lane) + inFlight
    && history + IdSet(queue) <= act.expected
    && (forall id :: id in act.expected ==> id.epoch == act.epoch)
  }

  /** The one answer or request that carries the protocol forward. */
  predicate AwaitInv(b: nat, lane: seq<Request>, r: Op, p: seq<Reply>, active: map<Kind, Active>) {
    || (lane == [GetNextWork(b)] && Quiet(r) && p == [] && active == map[])
    || (lane == [] && r.NextWork? && r.boundary == b && p == [] && active == map[])
    || (lane == [] && Quiet(r) && |p| == 1 && p[0].NextWorkIs? && p[0].boundary == b
        && if p[0].plan.None? then active == map[] else Installed(active, Projection, p[0].plan.value))
  }

  predicate PlanInv(lane: seq<Request>, r: Op, p: seq<Reply>, active: map<Kind, Active>) {
    || (lane == [ApplyScan] && Quiet(r) && p == [] && active == map[])
    || (lane == [] && r.Plan? && p == [] && active == map[])
    || (lane == [] && Quiet(r) && |p| == 1 && p[0].ScanPlanned?
        && if p[0].plan.None? then active == map[] else Installed(active, Import, p[0].plan.value))
  }

  predicate FlightInv(kind: Kind, inFlight: set<ActionId>, f: seq<FsTask>) {
    if f == [] then inFlight == {} else f[0].Perform? && f[0].kind == kind && inFlight == {f[0].id}
  }

  predicate CloseInv(kind: Kind, epoch: nat, lane: seq<Request>, r: Op, p: seq<Reply>, active: map<Kind, Active>, history: set<ActionId>) {
    if lane != [] then
      var k := |lane| - 1;
      && lane[k].CommitEpoch? && lane[k].kind == kind && lane[k].epoch == epoch && p == []
      && active.Keys == {kind} && active[kind].epoch == epoch
      && Pipeline(kind, active[kind], r, lane[..k], {}, [], history)
      && (lane[k].exhausted ==> history == active[kind].expected) && (kind.Import? ==> lane[k].exhausted)
    else
      active == map[] && ((r.Close? && r.kind == kind && p == []) || (Quiet(r) && p == [EpochClosed(kind)]))
  }

  predicate Calm(lane: seq<Request>, r: Op, p: seq<Reply>, active: map<Kind, Active>) {
    lane == [] && Quiet(r) && p == [] && active == map[]
  }

  predicate PhaseInv(phase: Phase, lane: seq<Request>, r: Op, p: seq<Reply>, f: seq<FsTask>, active: map<Kind, Active>, history: set<ActionId>) {
    match phase
    case Idle => Calm(lane, r, p, active) && f == []
    case AwaitingNextWork(b, _) => AwaitInv(b, lane, r, p, active) && f == []
    case Scanning => Calm(lane, r, p, active) && |f| == 1 && f[0].Scan?
    case PlanningImport => PlanInv(lane, r, p, active) && f == []
    case Dispatching(kind, epoch, queue, inFlight) =>
      && p == [] && FlightInv(kind, inFlight, f)
      && active.Keys == {kind} && active[kind].epoch == epoch
      && Pipeline(kind, active[kind], r, lane, inFlight, queue, history)
      && history + IdSet(queue) == active[kind].expected
    case Draining(epoch, inFlight) =>
      && p == [] && inFlight == {} && f == []
      && active.Keys == {Projection} && active[Projection].epoch == epoch
      && Pipeline(Projection, active[Projection], r, lane, inFlight, [], history)
    case Committing(kind, epoch) => CloseInv(kind, epoch, lane, r, p, active, history) && f == []
  }

  /** No lost wake-up, and a discarded projection always leaves a full scan pending. */
  predicate WakeInv(phase: Phase, pendingScan: Option<Scope>, lane: seq<Request>, r: Op, p: seq<Reply>, events: nat, work: bool) {
    && (phase.Idle? ==> pendingScan.None? && (work ==> events > 0 || r == Batch(true)))
    && (r.NextWork? ==> r.work == work)
    && (phase.AwaitingNextWork? && p == [NextWorkIs(phase.boundary, None)] ==>
          !work || phase.dirty || events > 0 || r == Batch(true))
    && (phase.Draining? ==> pendingScan == Some(Full))
    && (lane != [] && lane[|lane| - 1].CommitEpoch? && !lane[|lane| - 1].exhausted ==> pendingScan == Some(Full))
  }

  predicate MidInv(s: System) {
    && Plumbing(s.actor, s.fs)
    && PhaseInv(s.phase, Core(s.actor.lane), Running(s.actor), CoreReplies(s.replies), s.fs.pending, s.actor.ledger.active, s.history)
    && WakeInv(s.phase, s.pendingScan, Core(s.actor.lane), Running(s.actor), CoreReplies(s.replies), s.events, s.work)
  }

  /** Between engine steps the loop has driven the phase: an epoch in progress has an action out. */
  predicate Inv(s: System) {
    MidInv(s) && (s.phase.Dispatching? || s.phase.Draining? ==> s.fs.pending != [])
  }

  // ---------------------------------------------------------------- engine pieces

  /** The invariant depends only on what these lemmas list. */
  lemma MidFrame(s: System, s': System)
    requires MidInv(s) && Plumbing(s'.actor, s'.fs) && s'.phase == s.phase && s'.fs.pending == s.fs.pending
    requires Core(s'.actor.lane) == Core(s.actor.lane) && CoreReplies(s'.replies) == CoreReplies(s.replies)
    requires Running(s'.actor) == Running(s.actor) && s'.actor.ledger.active == s.actor.ledger.active
    requires s'.history == s.history && s'.pendingScan == s.pendingScan && s'.events == s.events && s'.work == s.work
    ensures MidInv(s')
  {
  }

  lemma SendMid(s: System, r: Request)
    requires MidInv(s) && !IsCore(r)
    ensures MidInv(Send(s, r)) && (Inv(s) ==> Inv(Send(s, r)))
  {
    assert Core(s.actor.lane + [r]) == Core(s.actor.lane) by {
      CorePush(s.actor.lane, r);
      assert Core(s.actor.lane) + [] == Core(s.actor.lane);
    }
    MidFrame(s, Send(s, r));
  }

  /** Every phase ends here, with nothing of the protocol outstanding. */
  lemma BoundaryMid(s: System)
    requires Plumbing(s.actor, s.fs) && s.fs.pending == []
    requires Calm(Core(s.actor.lane), Running(s.actor), CoreReplies(s.replies), s.actor.ledger.active)
    ensures MidInv(EnterBoundary(s))
  {
    if s.pendingScan.None? {
      CorePush(s.actor.lane, GetNextWork(s.boundaries + 1));
      assert [] + [GetNextWork(s.boundaries + 1)] == [GetNextWork(s.boundaries + 1)];
    }
  }

  lemma ScanMid(s: System, scope: Scope)
    requires MidInv(s)
    ensures MidInv(RequestScan(s, scope)) && (Inv(s) ==> Inv(RequestScan(s, scope)))
    ensures !s.phase.Idle? ==> RequestScan(s, scope) == s.(pendingScan := Remember(s.pendingScan, scope))
  {
    if s.phase.Idle? { BoundaryMid(s.(pendingScan := Remember(s.pendingScan, scope))); }
  }

  lemma EventMid(s: System)
    requires MidInv(s) && s.events > 0
    ensures MidInv(OnProjectionChanged(s.(events := s.events - 1)))
  {
    if s.phase.Idle? { BoundaryMid(s.(events := s.events - 1)); }
  }

  // ---------------------------------------------------------------- driving

  lemma CleanupMid(s: System)
    requires MidInv(s)
    ensures MidInv(Cleanup(s)) && Cleanup(s).phase == s.phase && Cleanup(s).fs.pending == s.fs.pending
  {
  }

  lemma DispatchStep(kind: Kind, act: Active, r: Op, lane: seq<Request>, queue: seq<ActionId>, history: set<ActionId>)
    requires Pipeline(kind, act, r, lane, {}, queue, history) && queue != []
    ensures Pipeline(kind, act, r, lane, {queue[0]}, queue[1..], history + {queue[0]})
    ensures history + IdSet(queue) == history + {queue[0]} + IdSet(queue[1..])
  {
    assert queue == [queue[0]] + queue[1..];
    assert IdSet(queue) == {queue[0]} + IdSet(queue[1..]);
  }

  lemma DispatchMid(s: System)
    requires MidInv(s)
    ensures MidInv(Dispatch(s))
    ensures Dispatch(s).phase.Dispatching? ==> Dispatch(s).fs.pending != [] || Dispatch(s).phase.queue == []
  {
    if s.phase.Dispatching? && s.fs.phaseInflight == 0 && s.phase.queue != [] {
      var id := s.phase.queue[0];
      var kind := s.phase.kind;
      DispatchStep(kind, s.actor.ledger.active[kind], Running(s.actor), Core(s.actor.lane), s.phase.queue, s.history);
      var s1 := FsSend(s.(phase := s.phase.(queue := s.phase.queue[1..], inFlight := s.phase.inFlight + {id}),
                          history := s.history + {id}), Perform(kind, id));
      assert s1.phase.inFlight == {id} && s1.fs.pending == [Perform(kind, id)];
      assert Dispatch(s1) == s1;
    }
  }

  lemma RequestCommitInv(s: System)
    requires MidInv(s) && (s.phase.Dispatching? ==> s.fs.pending != [] || s.phase.queue == [])
    ensures Inv(RequestCommit(s))
  {
    if s.phase.Dispatching? && s.phase.queue == [] && s.phase.inFlight == {} {
      CommitInv(s, s.phase.kind, true);
    } else if s.phase.Draining? && s.phase.inFlight == {} {
      CommitInv(s, Projection, false);
    }
  }

  lemma CommitInv(s: System, kind: Kind, exhausted: bool)
    requires MidInv(s)
    requires if exhausted then s.phase.Dispatching? && s.phase.kind == kind && s.phase.queue == [] && s.phase.inFlight == {}
             else s.phase.Draining? && kind == Projection && s.phase.inFlight == {}
    ensures Inv(Send(s.(phase := Committing(kind, s.phase.epoch)), CommitEpoch(kind, s.phase.epoch, exhausted)))
  {
    var lane, epoch := Core(s.actor.lane), s.phase.epoch;
    var request := CommitEpoch(kind, epoch, exhausted);
    ReadyToClose(s, kind, exhausted);
    CommitPush(kind, epoch, exhausted, lane, Running(s.actor), s.actor.ledger.active, s.history);
    assert Core(s.actor.lane + [request]) == lane + [request] by { CorePush(s.actor.lane, request); }
    CloseRequested(Send(s.(phase := Committing(kind, epoch)), request), kind, epoch, lane + [request]);
  }

  lemma CloseRequested(s': System, kind: Kind, epoch: nat, lane: seq<Request>)
    requires Plumbing(s'.actor, s'.fs) && s'.phase == Committing(kind, epoch) && s'.fs.pending == []
    requires Core(s'.actor.lane) == lane && CoreReplies(s'.replies) == [] && !Running(s'.actor).NextWork?
    requires CloseInv(kind, epoch, lane, Running(s'.actor), [], s'.actor.ledger.active, s'.history)
    requires lane != [] && (!lane[|lane| - 1].exhausted ==> s'.pendingScan == Some(Full))
    ensures Inv(s')
  {
  }

  lemma ReadyToClose(s: System, kind: Kind, exhausted: bool)
    requires MidInv(s)
    requires if exhausted then s.phase.Dispatching? && s.phase.kind == kind && s.phase.queue == [] && s.phase.inFlight == {}
             else s.phase.Draining? && kind == Projection && s.phase.inFlight == {}
    ensures CoreReplies(s.replies) == [] && s.fs.pending == [] && (Quiet(Running(s.actor)) || Running(s.actor).Stage?)
    ensures var active := s.actor.ledger.active;
      && active.Keys == {kind} && active[kind].epoch == s.phase.epoch
      && Pipeline(kind, active[kind], Running(s.actor), Core(s.actor.lane), {}, [], s.history)
      && (exhausted ==> s.history == active[kind].expected)
    ensures !exhausted ==> s.pendingScan == Some(Full)
  {
    assert IdSet([]) == {};
  }

  lemma CommitPush(kind: Kind, epoch: nat, exhausted: bool, lane: seq<Request>, r: Op, active: map<Kind, Active>, history: set<ActionId>)
    requires active.Keys == {kind} && active[kind].epoch == epoch && Pipeline(kind, active[kind], r, lane, {}, [], history)
    requires (exhausted ==> history == active[kind].expected) && (kind.Import? ==> exhausted)
    ensures CloseInv(kind, epoch, lane + [CommitEpoch(kind, epoch, exhausted)], r, [], active, history)
  {
    assert (lane + [CommitEpoch(kind, epoch, exhausted)])[..|lane|] == lane;
  }

  lemma DriveInv(s: System)
    requires MidInv(s)
    ensures Inv(Drive(s))
  {
    CleanupMid(s);
    DispatchMid(Cleanup(s));
    RequestCommitInv(Dispatch(Cleanup(s)));
  }
}
