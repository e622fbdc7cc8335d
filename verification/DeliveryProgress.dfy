/**
 * Delivery always can be finished: from every reachable state of a daemon some run of its own
 * steps, without new messages, crashes or further failures, empties the outbox.
 */
module DeliveryProgress {
  import opened Common
  import opened Delivery
  import opened DeliverySafety
  import opened DeliveryResults

  // ---------------------------------------------------------------- a schedule

  /** Answers and events first, then the writer, then a new connection. */
  function Chosen(s: Node): Option<Step> {
    if s.lane != [] then Some(RunLane)
    else if s.readReplies != [] then Some(TakeReadReply(0))
    else if s.releaseReplies > 0 then Some(TakeReleaseReply)
    else if s.readyEvents > 0 then Some(TakeReadyEvent)
    else if s.fromWriter != [] then Some(TakeWriterEvent)
    else ChosenOfWriter(s)
  }

  function ChosenOfWriter(s: Node): Option<Step> {
    match s.writer
    case Connecting => Some(WriterConnect)
    case Down => if s.toWriter != [] then Some(WriterTake(false)) else if s.flags.link.Offline? then Some(ReconnectTimer) else None
    case Up(_, upload, sent, landed) =>
      if upload.Some? then Some(UploadDone)
      else if landed < |sent| then Some(Land)
      else if 0 < landed <= |sent| then Some(Ack)
      else if s.toWriter != [] then Some(WriterTake(false))
      else None
  }

  // ---------------------------------------------------------------- what is left to do

  /** Reconnecting: every outage still to be heard of or to be got over. */
  function Outages(f: Flags, q: seq<WriterRequest>, w: Writer, events: seq<WriterEvent>): nat {
    6 * multiset(events)[Disconnected] + 5 * One(f.link.Offline?) + 4 * multiset(q)[Reconnect]
    + 3 * One(w.Connecting?) + 2 * multiset(events)[Connected]
  }

  /** Taking reservations back: releases, and a read that will come back offline. */
  function Releases(f: Flags, lane: seq<Request>, answered: nat): nat {
    4 * One(f.readInFlight && !f.link.Online?) + 3 * One(f.releaseRequested) + 2 * multiset(lane)[ReleaseOutbox] + answered
  }

  function Unsent(w: Writer): nat {
    if w.Up? then 6 * One(w.upload.Some?) + 4 * |w.sent| + if w.landed <= |w.sent| then |w.sent| - w.landed else 0
    else 0
  }

  /** The way of each entry through the pipe, and the requests and events that move it along. */
  function Transit(free: nat, replied: nat, answers: nat, q: nat, w: Writer, events: nat, lane: nat, ready: nat, f: Flags): nat {
    13 * free + 12 * replied + answers + 7 * q + Unsent(w) + 3 * events + 2 * lane + 4 * ready + 3 * One(f.readRequested)
  }

  function ToReconnect(s: Node): nat { Outages(s.flags, s.toWriter, s.writer, s.fromWriter) }

  function ToRelease(s: Node): nat { Releases(s.flags, s.lane, s.releaseReplies) }

  function ToSend(s: Node): nat {
    Transit(|FreeEntries(s.rows)|, |Reply(s.readReplies)|, |s.readReplies|, |s.toWriter|, s.writer, |s.fromWriter|, |s.lane|, s.readyEvents, s.flags)
  }

  predicate LessLeft(s': Node, s: Node) {
    || ToReconnect(s') < ToReconnect(s)
    || (ToReconnect(s') == ToReconnect(s) && ToRelease(s') < ToRelease(s))
    || (ToReconnect(s') == ToReconnect(s) && ToRelease(s') == ToRelease(s) && ToSend(s') < ToSend(s))
  }

  // ---------------------------------------------------------------- each step leaves less

  lemma {:induction false} TrimFree(rows: seq<Row>, through: nat)
    ensures FreeEntries(Trim(rows, through)) == FreeEntries(rows)
  {
    if rows != [] {
      TrimFree(rows[1..], through);
      if rows[0].inflight && rows[0].entry.id <= through {
        assert Trim(rows, through) == Trim(rows[1..], through);
      } else {
        assert Trim(rows, through) == [rows[0]] + Trim(rows[1..], through);
        assert Trim(rows, through)[1..] == Trim(rows[1..], through);
      }
    }
  }

  lemma LaneLess(s: Node, lo: nat, mid: nat, top: nat)
    requires NodeInv(s, lo, mid, top) && s.lane != []
    ensures OnLane(s).Ok? && LessLeft(OnLane(s).value, s)
  {
    LanePop(s.lane);
    match s.lane[0] {
      case ReadOutbox =>
        var end := TableReserve(s.minted, lo, mid, READ_OUTBOX_BATCH_SIZE);
        TableFree(s.minted, lo, mid);
        TableFree(s.minted, lo, end);
        assert s.readReplies == [];
        assert [] + [Entries(s.minted, mid, end)] == [Entries(s.minted, mid, end)];
      case ReleaseOutbox =>
      case TrimOutbox(t) => TrimFree(s.rows, t);
    }
  }

  lemma ReplyLess(s: Node, lo: nat, mid: nat, top: nat)
    requires NodeInv(s, lo, mid, top) && s.lane == [] && s.readReplies != []
    ensures OnReadReply(s, 0).Ok? && LessLeft(OnReadReply(s, 0).value, s)
  {
    ReplyAlone(s, lo, mid, top);
    if s.flags.link.Online? { ForwardLess(s); } else { TakeBackLess(s); }
  }

  lemma ReplyAlone(s: Node, lo: nat, mid: nat, top: nat)
    requires NodeInv(s, lo, mid, top) && s.lane == [] && s.readReplies != []
    ensures |s.readReplies| == 1 && s.flags.readInFlight
  {
  }

  lemma ForwardLess(s: Node)
    requires |s.readReplies| == 1 && s.flags.readInFlight && s.flags.link.Online? && s.lane == []
    ensures OnReadReply(s, 0).Ok? && LessLeft(OnReadReply(s, 0).value, s)
  {
    var es := s.readReplies[0];
    assert s.readReplies[..0] + s.readReplies[1..] == [];
    assert multiset(s.toWriter + Appends(es)) == multiset(s.toWriter) + multiset(Appends(es));
    assert Reconnect !in multiset(Appends(es)) by { assert forall r :: r in Appends(es) ==> r.Append?; }
  }

  lemma TakeBackLess(s: Node)
    requires |s.readReplies| == 1 && s.flags.readInFlight && !s.flags.link.Online? && s.lane == []
    ensures OnReadReply(s, 0).Ok? && LessLeft(OnReadReply(s, 0).value, s)
  {
    assert s.readReplies[..0] + s.readReplies[1..] == [];
  }

  lemma ReleaseLess(s: Node, lo: nat, mid: nat, top: nat)
    requires NodeInv(s, lo, mid, top) && s.lane == [] && s.readReplies == [] && s.releaseReplies > 0
    ensures OnReleaseReply(s).Ok? && LessLeft(OnReleaseReply(s).value, s)
  {
  }

  lemma ReadyLess(s: Node)
    requires s.lane == [] && s.readyEvents > 0
    ensures LessLeft(OnReadyEvent(s), s)
  {
  }

  lemma EventLess(s: Node)
    requires s.lane == [] && s.fromWriter != []
    ensures LessLeft(OnWriterEvent(s), s)
  {
    assert s.fromWriter == [s.fromWriter[0]] + s.fromWriter[1..];
    assert multiset(s.fromWriter) == multiset{s.fromWriter[0]} + multiset(s.fromWriter[1..]);
  }

  lemma TakeReconnectLess(s: Node, big: bool)
    requires s.toWriter != [] && s.toWriter[0].Reconnect? && !s.writer.Connecting? && (s.writer.Up? ==> s.writer.upload.None?)
    ensures OnWriterRequest(s, big).Ok? && LessLeft(OnWriterRequest(s, big).value, s)
  {
    assert s.toWriter == [s.toWriter[0]] + s.toWriter[1..];
    assert multiset(s.toWriter) == multiset{s.toWriter[0]} + multiset(s.toWriter[1..]);
  }

  lemma TakeAppendLess(s: Node, big: bool)
    requires s.toWriter != [] && s.toWriter[0].Append? && !s.writer.Connecting?
    requires s.writer.Up? ==> s.writer.upload.None? && s.writer.landed <= |s.writer.sent|
    requires OnWriterRequest(s, big).Ok?
    ensures LessLeft(OnWriterRequest(s, big).value, s)
  {
    assert s.toWriter == [s.toWriter[0]] + s.toWriter[1..];
    assert multiset(s.toWriter) == multiset{s.toWriter[0]} + multiset(s.toWriter[1..]);
  }

  lemma SessionLess(s: Node, step: Step)
    requires Enabled(s, step) && s.writer.Up? && s.writer.landed <= |s.writer.sent|
    requires step.UploadDone? || step.Land? || step.Ack?
    ensures LessLeft(Next(s, step).value, s)
  {
    if step.Ack? {
      var e := Durable(s.writer.sent[0].id);
      assert multiset(s.fromWriter + [e]) == multiset(s.fromWriter) + multiset{e};
    }
  }

  lemma ConnectLess(s: Node)
    requires s.writer.Connecting?
    ensures LessLeft(WriterConnected(s), s)
  {
    assert multiset(s.fromWriter + [Connected]) == multiset(s.fromWriter) + multiset{Connected};
  }

  lemma TimerLess(s: Node)
    requires s.flags.link.Offline?
    ensures LessLeft(OnReconnectTimer(s), s)
  {
    assert multiset(s.toWriter + [Reconnect]) == multiset(s.toWriter) + multiset{Reconnect};
  }

  lemma LandedWithin(s: Node, lo: nat, mid: nat, top: nat)
    requires NodeInv(s, lo, mid, top) && s.writer.Up?
    ensures s.writer.landed <= |s.writer.sent|
  {
  }

  lemma WriterLess(s: Node, lo: nat, mid: nat, top: nat, step: Step)
    requires NodeInv(s, lo, mid, top) && ChosenOfWriter(s) == Some(step) && Next(s, step).Ok?
    ensures LessLeft(Next(s, step).value, s)
  {
    if s.writer.Up? { LandedWithin(s, lo, mid, top); }
    match step {
      case WriterTake(big) => if s.toWriter[0].Reconnect? { TakeReconnectLess(s, big); } else { TakeAppendLess(s, big); }
      case WriterConnect => ConnectLess(s);
      case ReconnectTimer => TimerLess(s);
      case _ => SessionLess(s, step);
    }
  }

  // ---------------------------------------------------------------- and it ends with everything sent

  lemma ChosenEnabled(s: Node)
    ensures Chosen(s).Some? ==> Enabled(s, Chosen(s).value)
  {
  }

  /** Connected is only taken after what was read for an earlier session has come back. */
  lemma ChosenTimely(s: Node, lo: nat, mid: nat, top: nat)
    requires NodeInv(s, lo, mid, top) && Chosen(s).Some?
    ensures Timely(s, Chosen(s).value)
  {
    if Chosen(s).value.TakeWriterEvent? { assert multiset(s.lane)[ReadOutbox] == 0; }
  }

  lemma EngineLess(s: Node, lo: nat, mid: nat, top: nat)
    requires NodeInv(s, lo, mid, top) && Chosen(s).Some? && Chosen(s) != ChosenOfWriter(s) && Next(s, Chosen(s).value).Ok?
    ensures LessLeft(Next(s, Chosen(s).value).value, s)
  {
    var step := Chosen(s).value;
    match step {
      case RunLane => LaneLess(s, lo, mid, top);
        assert Next(s, step) == OnLane(s);
      case TakeReadReply(_) => ReplyLess(s, lo, mid, top);
        assert Next(s, step) == OnReadReply(s, 0);
      case TakeReleaseReply => ReleaseLess(s, lo, mid, top);
        assert Next(s, step) == OnReleaseReply(s);
      case TakeReadyEvent => ReadyLess(s);
        assert Next(s, step) == Ok(OnReadyEvent(s));
      case TakeWriterEvent => EventLess(s);
        assert Next(s, step) == Ok(OnWriterEvent(s));
    }
  }

  lemma ChosenLess(s: Node, lo: nat, mid: nat, top: nat)
    requires NodeInv(s, lo, mid, top) && Chosen(s).Some? && Next(s, Chosen(s).value).Ok?
    ensures LessLeft(Next(s, Chosen(s).value).value, s)
  {
    if Chosen(s) == ChosenOfWriter(s) { WriterLess(s, lo, mid, top, Chosen(s).value); } else { EngineLess(s, lo, mid, top); }
  }

  /** Where the schedule has nothing to do, the daemon is connected and quiet. */
  lemma DoneIsQuiet(s: Node, lo: nat, mid: nat, top: nat)
    requires NodeInv(s, lo, mid, top) && Chosen(s).None?
    ensures Quiet(s)
  {
    assert multiset(s.lane)[ReadOutbox] == 0 && multiset(s.lane)[ReleaseOutbox] == 0;
    assert !ReleasePending(s.flags);
    if s.writer.Up? { LandedWithin(s, lo, mid, top); }
  }

  lemma ChosenKind(s: Node)
    ensures Chosen(s).Some? ==> !Chosen(s).value.Mint? && !Chosen(s).value.Crash? && !Chosen(s).value.WriterFail?
  {
  }

  lemma ChosenSafe(d: nat, s: Node, log: seq<Record>)
    requires Inv(d, s, log) && Chosen(s).Some?
    ensures var step := Chosen(s).value; Enabled(s, step) && Timely(s, step) && Next(s, step).Ok?
  {
    var lo, mid, top :| LandedBelow(log, d, top) && NodeInv(s, lo, mid, top);
    ChosenEnabled(s);
    ChosenTimely(s, lo, mid, top);
    StepSafe(d, s, log, Chosen(s).value);
  }

  /** As long as there is something to do, the chosen step can be taken and leaves less to do. */
  lemma Progress(d: nat, s: Node, log: seq<Record>)
    requires Inv(d, s, log)
    ensures Chosen(s).None? ==> Quiet(s) && s.rows == []
    ensures Chosen(s).Some? ==>
      var step := Chosen(s).value;
      && Enabled(s, step) && Timely(s, step) && !step.Mint? && !step.Crash? && !step.WriterFail?
      && Next(s, step).Ok? && LessLeft(Next(s, step).value, s)
  {
    if Chosen(s).Some? {
      ChosenKind(s);
      ChosenSafe(d, s, log);
      ChosenMoves(d, s, log);
    } else {
      NothingChosen(d, s, log);
    }
  }

  lemma ChosenMoves(d: nat, s: Node, log: seq<Record>)
    requires Inv(d, s, log) && Chosen(s).Some? && Enabled(s, Chosen(s).value) && Next(s, Chosen(s).value).Ok?
    ensures LessLeft(Next(s, Chosen(s).value).value, s)
  {
    var lo, mid, top :| LandedBelow(log, d, top) && NodeInv(s, lo, mid, top);
    ChosenLess(s, lo, mid, top);
  }

  lemma NothingChosen(d: nat, s: Node, log: seq<Record>)
    requires Inv(d, s, log) && Chosen(s).None?
    ensures Quiet(s) && s.rows == []
  {
    var lo, mid, top :| LandedBelow(log, d, top) && NodeInv(s, lo, mid, top);
    DoneIsQuiet(s, lo, mid, top);
    QuietMeansDelivered(d, s, log);
  }
}
