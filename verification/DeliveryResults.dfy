/** What the delivery invariant means for a reader of the log, and why its timing assumption is needed. */
module DeliveryResults {
  import opened Common
  import opened Crdt
  import opened Delivery
  import opened DeliverySafety

  /**
   * Nothing is lost and nothing is trimmed too early: a minted message is in the outbox,
   * or its record is in the log.
   */
  lemma NothingLost(d: nat, s: Node, log: seq<Record>, id: nat)
    requires Inv(d, s, log) && id < |s.minted|
    ensures || Record(d, Entry(id, s.minted[id])) in log
            || exists i :: 0 <= i < |s.rows| && s.rows[i].entry == Entry(id, s.minted[id])
  {
    var lo, mid, top :| LandedBelow(log, d, top) && NodeInv(s, lo, mid, top);
    if id < lo {
      assert Has(log, d, id);
      var j :| 0 <= j < |log| && log[j].origin == d && log[j].entry.id == id;
      assert log[j] == Record(d, Entry(id, s.minted[id]));
    } else {
      assert s.rows[id - lo].entry == Entry(id, s.minted[id]);
    }
  }

  /** The outbox holds genuine messages under distinct ascending ids. */
  lemma OutboxGenuine(d: nat, s: Node, log: seq<Record>, i: nat)
    requires Inv(d, s, log) && i < |s.rows|
    ensures s.rows[i].entry.id == |s.minted| - |s.rows| + i
    ensures s.rows[i].entry.id < |s.minted| && s.rows[i].entry.msg == s.minted[s.rows[i].entry.id]
  {
    var lo, mid, top :| LandedBelow(log, d, top) && NodeInv(s, lo, mid, top);
    assert s.rows[i] == Table(s.minted, lo, mid)[i];
  }

  predicate FirstAt(log: seq<Record>, d: nat, id: nat, j: nat) {
    && j < |log| && log[j].origin == d && log[j].entry.id == id
    && forall k :: 0 <= k < j && log[k].origin == d ==> log[k].entry.id != id
  }

  /** Across any number of disconnects and repeats, first occurrences are in id order. */
  lemma FirstOccurrencesInOrder(d: nat, s: Node, log: seq<Record>, a: nat, b: nat, i: nat, j: nat)
    requires Inv(d, s, log) && FirstAt(log, d, a, i) && FirstAt(log, d, b, j)
    ensures a < b <==> i < j
  {
    if a < b { var _ := OccursBefore(d, s, log, a, j); }
    if b < a { var _ := OccursBefore(d, s, log, b, i); }
  }

  /** Every lower id occurs earlier. */
  lemma OccursBefore(d: nat, s: Node, log: seq<Record>, a: nat, j: nat) returns (k: nat)
    requires Inv(d, s, log) && j < |log| && log[j].origin == d && a < log[j].entry.id
    ensures k < j && log[k] == Record(d, Entry(a, s.minted[a]))
  {
    assert Has(log[..j], d, a);
    var i :| 0 <= i < j && log[..j][i].origin == d && log[..j][i].entry.id == a;
    k := i;
  }

  /** Online, with nothing queued, in flight or unacknowledged. */
  predicate Quiet(s: Node) {
    && s.flags.link.Online? && s.writer.Up? && s.writer.sent == [] && s.writer.upload.None?
    && s.readyEvents == 0 && s.lane == [] && s.readReplies == [] && s.releaseReplies == 0
    && s.toWriter == [] && s.fromWriter == []
  }

  /**
   * No lost wake-up: when a connected daemon has nothing left to do, its outbox is empty
   * and everything it minted is in the log.
   */
  lemma QuietMeansDelivered(d: nat, s: Node, log: seq<Record>)
    requires Inv(d, s, log) && Quiet(s)
    ensures s.rows == []
    ensures forall id :: 0 <= id < |s.minted| ==> Record(d, Entry(id, s.minted[id])) in log
  {
    var lo, mid, top :| LandedBelow(log, d, top) && NodeInv(s, lo, mid, top);
    assert multiset(s.lane)[ReadOutbox] == 0 && multiset(s.lane)[ReleaseOutbox] == 0;
    assert !s.flags.readInFlight && !ReleasePending(s.flags);
    assert mid == |s.minted| && lo == mid;
    forall id | 0 <= id < |s.minted| ensures Record(d, Entry(id, s.minted[id])) in log {
      NothingLost(d, s, log, id);
    }
  }

  // ---------------------------------------------------------------- the timing assumption

  /** A run of enabled steps; `Fault` if one of them hits an assert. */
  function RunOf(s: Node, steps: seq<Step>): Outcome<Node>
    decreases |steps|
  {
    if steps == [] then Ok(s)
    else if !Enabled(s, steps[0]) then Ok(s)
    else match Next(s, steps[0])
      case Fault => Fault
      case Ok(s') => RunOf(s', steps[1..])
  }

  lemma {:induction false} RunSplit(s: Node, first: seq<Step>, rest: seq<Step>, s': Node)
    requires Completes(s, first, s')
    ensures RunOf(s, first + rest) == RunOf(s', rest)
    decreases |first|
  {
    if first == [] {
      assert first + rest == rest;
    } else {
      assert (first + rest)[1..] == first[1..] + rest;
      RunSplit(Next(s, first[0]).value, first[1..], rest, s');
    }
  }

  lemma RunStep(s: Node, step: Step, rest: seq<Step>)
    requires Enabled(s, step) && Next(s, step).Ok?
    ensures RunOf(s, [step] + rest) == RunOf(Next(s, step).value, rest)
  {
    assert ([step] + rest)[1..] == rest;
  }

  predicate Completes(s: Node, steps: seq<Step>, s': Node)
    decreases |steps|
  {
    if steps == [] then s' == s
    else Enabled(s, steps[0]) && Next(s, steps[0]).Ok? && Completes(Next(s, steps[0]).value, steps[1..], s')
  }

  const Outage: seq<Step> :=
    [WriterConnect, TakeWriterEvent, WriterFail, TakeWriterEvent]
  const Lane: seq<Step> := [RunLane, RunLane]
  const Comeback: seq<Step> := [ReconnectTimer, WriterTake(false), WriterConnect, TakeWriterEvent]
  const Resend: seq<Step> :=
    [TakeReadReply(0), TakeReleaseReply, RunLane, WriterTake(false), TakeReadReply(0), WriterTake(false)]

  /** The outage leaves a read reply for a reservation that was already released. */
  function AfterOutage(m: Message): Node {
    Node([m], [Row(Entry(0, m), false)], Flags(Offline, true, true, false, true), 1,
         [], [[Entry(0, m)]], 1, [], [], Down, [[]])
  }

  function AfterComeback(m: Message): Node {
    AfterOutage(m).(flags := Flags(Online, true, true, false, true), writer := Up(None, None, [], 0))
  }

  lemma ReadOne(s: Node, e: Entry)
    requires s.lane != [] && s.lane[0] == ReadOutbox && s.rows == [Row(e, false)] && s.readReplies == []
    ensures OnLane(s) == Ok(s.(lane := s.lane[1..], rows := [Row(e, true)], readReplies := [[e]]))
  {
    ReserveOne(e);
    assert s.readReplies + [[e]] == [[e]];
  }

  lemma ReleaseOne(s: Node, e: Entry)
    requires s.lane == [ReleaseOutbox] && s.rows == [Row(e, true)]
    ensures OnLane(s) == Ok(s.(lane := [], rows := [Row(e, false)], releaseReplies := s.releaseReplies + 1))
  {
    assert Release(s.rows) == [Row(e, false)] && s.lane[1..] == [];
  }

  /** The state in which the engine has asked for a read and, the writer gone, for a release. */
  function Queued(m: Message): Node {
    AfterOutage(m).(lane := [ReadOutbox, ReleaseOutbox], readReplies := [], releaseReplies := 0)
  }

  lemma QueuedRun(m: Message)
    ensures Completes(Minted(Fresh(), [m]), [WriterConnect, TakeWriterEvent, WriterFail, TakeWriterEvent], Queued(m))
  {
    var s0 := Minted(Fresh(), [m]);
    var s2 := s0.(flags := Flags(Online, false, true, false, false), lane := [ReadOutbox], writer := Up(None, None, [], 0));
    assert s0.rows == [Row(Entry(0, m), false)];
    assert OnWriterEvent(WriterConnected(s0)) == s2;
    assert s2.lane + [ReleaseOutbox] == Queued(m).lane;
    assert OnWriterEvent(WriterFailed(s2)) == Queued(m);
    assert Completes(s2, [WriterFail, TakeWriterEvent], Queued(m));
  }

  lemma OutageLane(s: Node, e: Entry, s': Node)
    requires s.lane == [ReadOutbox, ReleaseOutbox] && s.rows == [Row(e, false)] && s.readReplies == []
    requires s' == s.(lane := [], readReplies := [[e]], releaseReplies := s.releaseReplies + 1)
    ensures Completes(s, [RunLane, RunLane], s')
  {
    ReadOne(s, e);
    var s1 := OnLane(s).value;
    ReleaseOne(s1, e);
    assert Completes(s1, [RunLane], s');
  }

  lemma ReserveOne(e: Entry)
    ensures Reserve([Row(e, false)], READ_OUTBOX_BATCH_SIZE) == Ok(Reservation([e], [Row(e, true)]))
  {
    assert FreeEntries([Row(e, false)]) == [e];
    assert FreeWithin([Row(e, false)], e.id, e.id) == 1;
    assert Mark([Row(e, false)], e.id, e.id) == [Row(e, true)];
  }

  lemma ComebackRun(m: Message)
    ensures Completes(AfterOutage(m), Comeback, AfterComeback(m))
  {
    var s0 := AfterOutage(m);
    var s1 := OnReconnectTimer(s0);
    assert s1.toWriter == [Reconnect];
    var s2 := s1.(toWriter := [], writer := Connecting);
    assert s1.toWriter[1..] == [];
    assert OnWriterRequest(s1, false) == Ok(s2);
    assert OnWriterEvent(WriterConnected(s2)) == AfterComeback(m);
    assert Completes(s2, [WriterConnect, TakeWriterEvent], AfterComeback(m));
  }

  /** The stale reply and the new read both send id 0. */
  lemma ResendFaults(m: Message)
    ensures RunOf(AfterComeback(m), Resend) == Fault
  {
    var e := Entry(0, m);
    var s0 := AfterComeback(m);
    var s1 := s0.(flags := Flags(Online, true, false, false, true), readReplies := [], toWriter := [Append(e)]);
    assert s0.readReplies[..0] + s0.readReplies[1..] == [] && s0.toWriter + Appends([e]) == [Append(e)];
    assert OnReadReply(s0, 0) == Ok(s1);
    var s2 := s1.(flags := Flags(Online, false, true, false, false), releaseReplies := 0, lane := [ReadOutbox]);
    assert s1.lane + [ReadOutbox] == [ReadOutbox];
    assert OnReleaseReply(s1) == Ok(s2);
    ReadOne(s2, e);
    SecondSendFaults(OnLane(s2).value, e);
    RunStep(s2, RunLane, [WriterTake(false), TakeReadReply(0), WriterTake(false)]);
    RunStep(s1, TakeReleaseReply, [RunLane, WriterTake(false), TakeReadReply(0), WriterTake(false)]);
    RunStep(s0, TakeReadReply(0), [TakeReleaseReply, RunLane, WriterTake(false), TakeReadReply(0), WriterTake(false)]);
  }

  lemma SecondSendFaults(s: Node, e: Entry)
    requires s.flags.link.Online? && s.flags.readInFlight && s.writer == Up(None, None, [], 0)
    requires s.toWriter == [Append(e)] && s.readReplies == [[e]]
    ensures RunOf(s, [WriterTake(false), TakeReadReply(0), WriterTake(false)]) == Fault
  {
    var s1 := s.(toWriter := [], writer := Up(Some(e.id + 1), None, [e], 0));
    assert s.toWriter[1..] == [] && s.writer.sent + [e] == [e];
    assert OnWriterRequest(s, false) == Ok(s1);
    assert s1.toWriter + Appends([e]) == [Append(e)];
    var s2 := OnReadReply(s1, 0).value;
    assert s2.toWriter == [Append(e)] && s2.writer == s1.writer;
    assert RunOf(s2, [WriterTake(false)]) == Fault;
    assert RunOf(s1, [TakeReadReply(0), WriterTake(false)]) == Fault;
  }

  /**
   * A whole run without the timing assumption: a daemon that minted a single message reaches
   * the writer's contiguity assert. `DeliveryTiming` tells exactly when that can happen.
   */
  lemma UntimelyReplyFaults(m: Message)
    ensures RunOf(Minted(Fresh(), [m]), Outage + Lane + Comeback + Resend) == Fault
  {
    QueuedRun(m);
    OutageLane(Queued(m), Entry(0, m), AfterOutage(m));
    ComebackRun(m);
    ResendFaults(m);
    assert Outage + Lane + Comeback + Resend == Outage + (Lane + (Comeback + Resend));
    RunSplit(Minted(Fresh(), [m]), Outage, Lane + (Comeback + Resend), Queued(m));
    RunSplit(Queued(m), Lane, Comeback + Resend, AfterOutage(m));
    RunSplit(AfterOutage(m), Comeback, Resend, AfterComeback(m));
  }

  /** A read waits for the link, for the read before it and for a release, requested or under way. */
  lemma ReadsWait(s: Node)
    requires !s.flags.link.Online? || s.flags.readInFlight || s.flags.releaseRequested || s.flags.releaseInFlight
    ensures MaybeStartRead(s) == s
  {
  }
}
