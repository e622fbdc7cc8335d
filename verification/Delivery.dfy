/**
 * Outbox delivery for one daemon: the durable outbox table (semantic/transaction.rs), the
 * engine's reservation flags (engine/actor.rs), the log writer (log/writer.rs) and the
 * shared log, joined by FIFO mailboxes.
 *
 * Replies from the semantic lane come back through an unordered pool. A record handed to
 * the log service lands later than it is submitted, is acknowledged later than it lands,
 * and may still land after its session is closed.
 */
module Delivery {
  import opened Common
  import opened Crdt

  const READ_OUTBOX_BATCH_SIZE := 1024

  datatype Entry = Entry(id: nat, msg: Message)
  datatype Row = Row(entry: Entry, inflight: bool)
  datatype Record = Record(origin: nat, entry: Entry)

  datatype Link = Online | Reconnecting | Offline
  datatype Request = ReadOutbox | ReleaseOutbox | TrimOutbox(through: nat)
  datatype WriterRequest = Append(entry: Entry) | Reconnect
  datatype WriterEvent = Connected | Disconnected | Durable(through: nat)

  /** `sent` holds the submitted, unacknowledged entries; the first `landed` of them are in the log. */
  datatype Writer =
    | Down
    | Connecting
    | Up(expected: Option<nat>, upload: Option<Entry>, sent: seq<Entry>, landed: nat)

  /** The engine's view of the writer link and of its outstanding outbox requests. */
  datatype Flags = Flags(
    link: Link,
    readRequested: bool, readInFlight: bool,
    releaseRequested: bool, releaseInFlight: bool)

  datatype Node = Node(
    minted: seq<Message>,                 // history: every message ever put in the outbox, by id
    rows: seq<Row>,                       // outbox table in primary-key order
    flags: Flags,
    readyEvents: nat,                     // queued OutboxReady events
    lane: seq<Request>,                   // requests waiting for the semantic actor
    readReplies: seq<seq<Entry>>, releaseReplies: nat,
    toWriter: seq<WriterRequest>, fromWriter: seq<WriterEvent>,
    writer: Writer,
    adrift: seq<seq<Entry>>)           // unlanded tails of closed sessions

  // ---------------------------------------------------------------- outbox table

  function FreeEntries(rows: seq<Row>): seq<Entry> {
    if rows == [] then []
    else (if rows[0].inflight then [] else [rows[0].entry]) + FreeEntries(rows[1..])
  }

  function FreeWithin(rows: seq<Row>, first: nat, last: nat): nat {
    if rows == [] then 0
    else (if !rows[0].inflight && first <= rows[0].entry.id <= last then 1 else 0)
         + FreeWithin(rows[1..], first, last)
  }

  predicate Contiguous(es: seq<Entry>) {
    forall i :: 0 <= i < |es| ==> es[i].id == es[0].id + i
  }

  function Mark(rows: seq<Row>, first: nat, last: nat): seq<Row> {
    seq(|rows|, i requires 0 <= i < |rows| =>
      if !rows[i].inflight && first <= rows[i].entry.id <= last
      then rows[i].(inflight := true) else rows[i])
  }

  datatype Reservation = Reservation(entries: seq<Entry>, rows: seq<Row>)

  /** `reserve_outbox_messages`: the lowest free rows, which must be contiguous, marked in flight. */
  function Reserve(rows: seq<Row>, limit: nat): Outcome<Reservation> {
    var free := FreeEntries(rows);
    var picked := if |free| <= limit then free else free[..limit];
    if !Contiguous(picked) then Fault
    else if picked == [] then Ok(Reservation([], rows))
    else
      var first, last := picked[0].id, picked[|picked| - 1].id;
      if FreeWithin(rows, first, last) != |picked| then Fault
      else Ok(Reservation(picked, Mark(rows, first, last)))
  }

  /** `trim_outbox`: deletes only rows that are in flight. */
  function Trim(rows: seq<Row>, through: nat): seq<Row> {
    if rows == [] then []
    else (if rows[0].inflight && rows[0].entry.id <= through then [] else [rows[0]])
         + Trim(rows[1..], through)
  }

  /** `release_outbox_messages`, and the startup clearing of reservation marks. */
  function Release(rows: seq<Row>): seq<Row> {
    seq(|rows|, i requires 0 <= i < |rows| => rows[i].(inflight := false))
  }

  function NewRows(first: nat, msgs: seq<Message>): seq<Row> {
    seq(|msgs|, i requires 0 <= i < |msgs| => Row(Entry(first + i, msgs[i]), false))
  }

  // ---------------------------------------------------------------- engine handlers

  predicate CanStartRead(f: Flags) {
    f.readRequested && !f.readInFlight && !f.releaseInFlight && !f.releaseRequested && f.link.Online?
  }

  function MaybeStartRead(s: Node): Node {
    if CanStartRead(s.flags)
    then s.(lane := s.lane + [ReadOutbox], flags := s.flags.(readRequested := false, readInFlight := true))
    else s
  }

  function RequestRead(s: Node): Node {
    MaybeStartRead(s.(flags := s.flags.(readRequested := true)))
  }

  function MaybeStartRelease(s: Node): Node {
    if s.flags.releaseRequested && !s.flags.releaseInFlight
    then s.(lane := s.lane + [ReleaseOutbox], flags := s.flags.(releaseRequested := false, releaseInFlight := true))
    else s
  }

  function RequestRelease(s: Node): Node {
    MaybeStartRelease(s.(flags := s.flags.(releaseRequested := true)))
  }

  function Minted(s: Node, msgs: seq<Message>): Node {
    s.(minted := s.minted + msgs, rows := s.rows + NewRows(|s.minted|, msgs), readyEvents := s.readyEvents + 1)
  }

  function OnReadyEvent(s: Node): Node
    requires s.readyEvents > 0
  {
    RequestRead(s.(readyEvents := s.readyEvents - 1))
  }

  function OnReconnectTimer(s: Node): Node {
    s.(flags := s.flags.(link := Reconnecting), toWriter := s.toWriter + [Reconnect])
  }

  function OnWriterEvent(s: Node): Node
    requires s.fromWriter != []
  {
    var rest := s.(fromWriter := s.fromWriter[1..]);
    match s.fromWriter[0]
    case Connected => MaybeStartRead(rest.(flags := s.flags.(link := Online)))
    case Disconnected => RequestRelease(rest.(flags := s.flags.(link := Offline, readRequested := true)))
    case Durable(through) => rest.(lane := rest.lane + [TrimOutbox(through)])
  }

  function Appends(es: seq<Entry>): seq<WriterRequest> {
    seq(|es|, i requires 0 <= i < |es| => Append(es[i]))
  }

  function OnReadReply(s: Node, i: nat): Outcome<Node>
    requires i < |s.readReplies|
  {
    if !s.flags.readInFlight then Fault
    else
      var messages := s.readReplies[i];
      var s1 := s.(flags := s.flags.(readInFlight := false),
                   readReplies := s.readReplies[..i] + s.readReplies[i + 1..]);
      var s2 := if s.flags.link.Online? then s1.(toWriter := s1.toWriter + Appends(messages))
                else if messages != [] then RequestRelease(s1)
                else s1;
      Ok(MaybeStartRead(if messages != [] then s2.(flags := s2.flags.(readRequested := true)) else s2))
  }

  function OnReleaseReply(s: Node): Outcome<Node>
    requires s.releaseReplies > 0
  {
    if !s.flags.releaseInFlight then Fault
    else Ok(MaybeStartRead(MaybeStartRelease(
      s.(flags := s.flags.(releaseInFlight := false), releaseReplies := s.releaseReplies - 1))))
  }

  // ---------------------------------------------------------------- semantic lane

  function OnLane(s: Node): Outcome<Node>
    requires s.lane != []
  {
    var rest := s.(lane := s.lane[1..]);
    match s.lane[0]
    case ReadOutbox =>
      (match Reserve(s.rows, READ_OUTBOX_BATCH_SIZE)
       case Fault => Fault
       case Ok(r) => Ok(rest.(rows := r.rows, readReplies := rest.readReplies + [r.entries])))
    case ReleaseOutbox => Ok(rest.(rows := Release(s.rows), releaseReplies := rest.releaseReplies + 1))
    case TrimOutbox(through) => Ok(rest.(rows := Trim(s.rows, through)))
  }

  // ---------------------------------------------------------------- log writer

  /** One request taken by the writer; `big` says the package needs a multipart upload first. */
  function OnWriterRequest(s: Node, big: bool): Outcome<Node>
    requires s.toWriter != [] && !s.writer.Connecting?
    requires s.writer.Up? ==> s.writer.upload.None?
  {
    var rest := s.(toWriter := s.toWriter[1..]);
    match s.toWriter[0]
    case Reconnect => Ok(if s.writer.Down? then rest.(writer := Connecting) else rest)
    case Append(entry) =>
      if s.writer.Down? then Ok(rest)
      else if s.writer.expected.Some? && s.writer.expected.value != entry.id then Fault
      else
        var w := s.writer.(expected := Some(entry.id + 1));
        Ok(rest.(writer := if big then w.(upload := Some(entry)) else w.(sent := w.sent + [entry])))
  }

  function WriterConnected(s: Node): Node {
    s.(writer := Up(None, None, [], 0), fromWriter := s.fromWriter + [Connected])
  }

  function WriterFailed(s: Node): Node {
    s.(writer := Down, fromWriter := s.fromWriter + [Disconnected], adrift := CloseSession(s))
  }

  function Uploaded(s: Node): Node
    requires s.writer.Up? && s.writer.upload.Some?
  {
    s.(writer := s.writer.(upload := None, sent := s.writer.sent + [s.writer.upload.value]))
  }

  /** Acknowledgements come back in submission order, and only for what has landed. */
  function Acknowledged(s: Node): Node
    requires s.writer.Up? && 0 < s.writer.landed <= |s.writer.sent|
  {
    s.(writer := s.writer.(sent := s.writer.sent[1..], landed := s.writer.landed - 1),
       fromWriter := s.fromWriter + [Durable(s.writer.sent[0].id)])
  }

  function Landed(s: Node): Node
    requires s.writer.Up?
  {
    s.(writer := s.writer.(landed := s.writer.landed + 1))
  }

  function LandedAdrift(s: Node, i: nat): Node
    requires i < |s.adrift| && s.adrift[i] != []
  {
    s.(adrift := s.adrift[i := s.adrift[i][1..]])
  }

  function CloseSession(s: Node): seq<seq<Entry>> {
    if s.writer.Up? && s.writer.landed <= |s.writer.sent|
    then s.adrift + [s.writer.sent[s.writer.landed..]]
    else s.adrift
  }

  // ---------------------------------------------------------------- steps

  datatype Step =
    | Mint(msgs: seq<Message>)                  // a local transaction inserts outbox rows
    | TakeReadyEvent | TakeWriterEvent | TakeReadReply(i: nat) | TakeReleaseReply | ReconnectTimer
    | RunLane
    | WriterConnect | WriterFail | WriterTake(big: bool) | UploadDone | Ack
    | Land | LandAdrift(i: nat)
    | Crash                               // volatile state is lost; restart clears the marks

  /** Nothing read for an earlier session can still reach the session that is coming up. */
  predicate NothingStale(s: Node) {
    !s.flags.readInFlight || s.readReplies == [[]] || s.fromWriter != [Connected]
  }

  /**
   * The timing assumption: when Connected is processed, an outbox read asked for before has
   * been answered, or its answer is empty, or the new session has already failed again.
   */
  predicate Timely(s: Node, step: Step) {
    step.TakeWriterEvent? && s.fromWriter != [] && s.fromWriter[0].Connected? ==> NothingStale(s)
  }

  predicate Enabled(s: Node, step: Step) {
    match step
    case Mint(msgs) => msgs != []
    case TakeReadyEvent => s.readyEvents > 0
    case TakeWriterEvent => s.fromWriter != []
    case TakeReadReply(i) => i < |s.readReplies|
    case TakeReleaseReply => s.releaseReplies > 0
    case ReconnectTimer => s.flags.link.Offline?
    case RunLane => s.lane != []
    case WriterConnect => s.writer.Connecting?
    case WriterFail => !s.writer.Down?
    case WriterTake(_) => s.toWriter != [] && !s.writer.Connecting? && (s.writer.Up? ==> s.writer.upload.None?)
    case UploadDone => s.writer.Up? && s.writer.upload.Some?
    case Ack => s.writer.Up? && 0 < s.writer.landed <= |s.writer.sent|
    case Land => s.writer.Up? && s.writer.landed < |s.writer.sent|
    case LandAdrift(i) => i < |s.adrift| && s.adrift[i] != []
    case Crash => true
  }

  /** The node after one step; landing steps also append to the log (see `Landing`). */
  function Next(s: Node, step: Step): Outcome<Node>
    requires Enabled(s, step)
  {
    match step
    case Mint(msgs) => Ok(Minted(s, msgs))
    case TakeReadyEvent => Ok(OnReadyEvent(s))
    case TakeWriterEvent => Ok(OnWriterEvent(s))
    case TakeReadReply(i) => OnReadReply(s, i)
    case TakeReleaseReply => OnReleaseReply(s)
    case ReconnectTimer => Ok(OnReconnectTimer(s))
    case RunLane => OnLane(s)
    case WriterConnect => Ok(WriterConnected(s))
    case WriterFail => Ok(WriterFailed(s))
    case WriterTake(big) => OnWriterRequest(s, big)
    case UploadDone => Ok(Uploaded(s))
    case Ack => Ok(Acknowledged(s))
    case Land => Ok(Landed(s))
    case LandAdrift(i) => Ok(LandedAdrift(s, i))
    case Crash => Ok(Restarted(s))
  }

  function Restarted(s: Node): Node {
    Node(s.minted, Release(s.rows), Flags(Reconnecting, true, false, false, false), 0,
         [], [], 0, [], [], Connecting, CloseSession(s))
  }

  function Fresh(): Node {
    Node([], [], Flags(Reconnecting, true, false, false, false), 0, [], [], 0, [], [], Connecting, [])
  }

  /** The record a step appends to the log, if any. */
  function Landing(d: nat, s: Node, step: Step): seq<Record>
    requires Enabled(s, step)
  {
    match step
    case Land => [Record(d, s.writer.sent[s.writer.landed])]
    case LandAdrift(i) => [Record(d, s.adrift[i][0])]
    case _ => []
  }
}
