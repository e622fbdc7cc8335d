/** The run invariant of outbox delivery, and what it implies. */
module DeliverySafety {
  import opened Common
  import opened Crdt
  import opened Delivery

  // ---------------------------------------------------------------- canonical shapes

  function Entries(m: seq<Message>, a: nat, b: nat): seq<Entry>
    requires a <= b <= |m|
  {
    seq(b - a, i requires 0 <= i < b - a => Entry(a + i, m[a + i]))
  }

  /** The outbox holding ids `lo..|m|`, of which those below `mid` are reserved. */
  function Table(m: seq<Message>, lo: nat, mid: nat): seq<Row>
    requires lo <= mid <= |m|
  {
    seq(|m| - lo, i requires 0 <= i < |m| - lo => Row(Entry(lo + i, m[lo + i]), lo + i < mid))
  }

  lemma TableStep(m: seq<Message>, lo: nat, mid: nat)
    requires lo <= mid <= |m| && lo < |m|
    ensures Table(m, lo, mid)[1..] == Table(m, lo + 1, if lo == mid then lo + 1 else mid)
  {}

  lemma {:induction false} TableFree(m: seq<Message>, lo: nat, mid: nat)
    requires lo <= mid <= |m|
    ensures FreeEntries(Table(m, lo, mid)) == Entries(m, mid, |m|)
    decreases |m| - lo
  {
    if lo < |m| {
      var mid' := if lo == mid then lo + 1 else mid;
      TableStep(m, lo, mid);
      TableFree(m, lo + 1, mid');
      assert lo == mid ==> [Entry(mid, m[mid])] + Entries(m, mid + 1, |m|) == Entries(m, mid, |m|);
    }
  }

  lemma {:induction false} TableWithin(m: seq<Message>, lo: nat, mid: nat, last: nat)
    requires lo <= mid <= |m|
    ensures FreeWithin(Table(m, lo, mid), mid, last) ==
            if last < mid then 0 else if last < |m| then last + 1 - mid else |m| - mid
    ensures forall first: nat :: first <= mid ==>
      FreeWithin(Table(m, lo, mid), first, last) == FreeWithin(Table(m, lo, mid), mid, last)
    decreases |m| - lo
  {
    if lo < |m| {
      TableStep(m, lo, mid);
      TableWithin(m, lo + 1, if lo == mid then lo + 1 else mid, last);
    }
  }

  lemma EntriesPrefix(m: seq<Message>, mid: nat, end: nat)
    requires mid <= end <= |m|
    ensures Entries(m, mid, |m|)[..end - mid] == Entries(m, mid, end)
    ensures Contiguous(Entries(m, mid, end))
  {
  }

  lemma TableReserve(m: seq<Message>, lo: nat, mid: nat, limit: nat) returns (end: nat)
    requires lo <= mid <= |m|
    ensures mid <= end <= |m| && (end == mid ==> mid == |m| || limit == 0)
    ensures Reserve(Table(m, lo, mid), limit) == Ok(Reservation(Entries(m, mid, end), Table(m, lo, end)))
  {
    end := if |m| - mid <= limit then |m| else mid + limit;
    TableFree(m, lo, mid);
    EntriesPrefix(m, mid, end);
    ReservePicked(Table(m, lo, mid), limit, Entries(m, mid, end), m, lo, mid, end);
  }

  lemma ReservePicked(rows: seq<Row>, limit: nat, picked: seq<Entry>, m: seq<Message>, lo: nat, mid: nat, end: nat)
    requires lo <= mid <= end <= |m| && rows == Table(m, lo, mid) && picked == Entries(m, mid, end) && Contiguous(picked)
    requires var free := FreeEntries(rows); picked == if |free| <= limit then free else free[..limit]
    ensures Reserve(rows, limit) == Ok(Reservation(picked, Table(m, lo, end)))
  {
    if end > mid {
      TableMark(m, lo, mid, end);
      assert picked[0].id == mid && picked[|picked| - 1].id == end - 1;
      ReserveMarks(rows, limit, picked, mid, end - 1);
    } else {
      assert picked == [];
    }
  }

  lemma ReserveMarks(rows: seq<Row>, limit: nat, picked: seq<Entry>, first: nat, last: nat)
    requires var free := FreeEntries(rows); picked == if |free| <= limit then free else free[..limit]
    requires Contiguous(picked) && picked != [] && picked[0].id == first && picked[|picked| - 1].id == last
    requires FreeWithin(rows, first, last) == |picked|
    ensures Reserve(rows, limit) == Ok(Reservation(picked, Mark(rows, first, last)))
  {
  }

  lemma TableMark(m: seq<Message>, lo: nat, mid: nat, end: nat)
    requires lo <= mid < end <= |m|
    ensures FreeWithin(Table(m, lo, mid), mid, end - 1) == end - mid
    ensures Mark(Table(m, lo, mid), mid, end - 1) == Table(m, lo, end)
  {
    TableWithin(m, lo, mid, end - 1);
  }

  /** Where the rows start once those reserved at or below `t` are gone. */
  function Kept(lo: nat, mid: nat, t: nat): nat { if t < lo then lo else if t < mid then t + 1 else mid }

  predicate Trimmed(row: Row, t: nat) { row.inflight && row.entry.id <= t }

  /** If the rows to go are in front, a trim cuts them off. */
  lemma {:induction false} TrimFront(rows: seq<Row>, t: nat, k: nat)
    requires k <= |rows| && (forall i :: 0 <= i < k ==> Trimmed(rows[i], t)) && (forall i :: k <= i < |rows| ==> !Trimmed(rows[i], t))
    ensures Trim(rows, t) == rows[k..]
  {
    if rows != [] {
      var rest := rows[1..];
      if k > 0 {
        TrimFront(rest, t, k - 1);
        assert rest[k - 1..] == rows[k..];
      } else {
        TrimFront(rest, t, 0);
        assert [rows[0]] + rest == rows;
      }
    }
  }

  lemma TableTrim(m: seq<Message>, lo: nat, mid: nat, t: nat)
    requires lo <= mid <= |m|
    ensures Trim(Table(m, lo, mid), t) == Table(m, Kept(lo, mid, t), mid)
  {
    var k := Kept(lo, mid, t) - lo;
    TrimFront(Table(m, lo, mid), t, k);
    assert Table(m, lo, mid)[k..] == Table(m, lo + k, mid);
  }

  lemma TableGrow(m: seq<Message>, lo: nat, mid: nat, msgs: seq<Message>)
    requires lo <= mid <= |m|
    ensures Table(m, lo, mid) + NewRows(|m|, msgs) == Table(m + msgs, lo, mid)
  {}

  // ---------------------------------------------------------------- log facts

  ghost predicate Has(log: seq<Record>, d: nat, id: nat) {
    exists j :: 0 <= j < |log| && log[j].origin == d && log[j].entry.id == id
  }

  ghost predicate LandedBelow(log: seq<Record>, d: nat, k: nat) {
    forall id: nat :: id < k ==> Has(log, d, id)
  }

  /**
   * Every record of `d` carries the message minted under its id, and every lower id of `d`
   * already occurs before it: first occurrences are in id order, whatever is repeated.
   */
  ghost predicate LogInv(d: nat, m: seq<Message>, log: seq<Record>) {
    forall j :: 0 <= j < |log| && log[j].origin == d ==>
      && log[j].entry.id < |m| && log[j].entry.msg == m[log[j].entry.id]
      && LandedBelow(log[..j], d, log[j].entry.id)
  }

  lemma LandedGrows(log: seq<Record>, more: seq<Record>, d: nat, k: nat)
    requires LandedBelow(log, d, k)
    ensures LandedBelow(log + more, d, k)
  {
    forall id: nat | id < k ensures Has(log + more, d, id) {
      assert Has(log, d, id);
      var j :| 0 <= j < |log| && log[j].origin == d && log[j].entry.id == id;
      assert (log + more)[j] == log[j];
    }
  }

  lemma LandedNext(log: seq<Record>, d: nat, e: Entry)
    requires LandedBelow(log, d, e.id)
    ensures LandedBelow(log + [Record(d, e)], d, e.id + 1)
  {
    LandedGrows(log, [Record(d, e)], d, e.id);
    assert (log + [Record(d, e)])[|log|] == Record(d, e);
  }

  lemma LogGrows(d: nat, m: seq<Message>, log: seq<Record>, r: Record)
    requires LogInv(d, m, log)
    requires r.origin == d ==> r.entry.id < |m| && r.entry.msg == m[r.entry.id] && LandedBelow(log, d, r.entry.id)
    ensures LogInv(d, m, log + [r])
  {
    forall j | 0 <= j < |log| + 1 && (log + [r])[j].origin == d
      ensures LandedBelow((log + [r])[..j], d, (log + [r])[j].entry.id)
    {
      assert (log + [r])[..j] == if j < |log| then log[..j] else log;
    }
  }

  // ---------------------------------------------------------------- the invariant
  //
  // `lo` is the lowest id still in the outbox, ids below `mid` are reserved, and every id
  // below `top` is in the log.

  function One(b: bool): nat { if b then 1 else 0 }

  /** A release is the last request in the lane. */
  predicate Ordered(lane: seq<Request>) {
    forall i :: 0 <= i < |lane| - 1 ==> !lane[i].ReleaseOutbox?
  }

  predicate TrimsBelow(lane: seq<Request>, top: nat) {
    forall i :: 0 <= i < |lane| && lane[i].TrimOutbox? ==> lane[i].through < top
  }

  predicate DurablesBelow(q: seq<WriterEvent>, top: nat) {
    forall i :: 0 <= i < |q| && q[i].Durable? ==> q[i].through < top
  }

  /** At most one read and one release are outstanding, and everything else goes before the release. */
  predicate LaneInv(lane: seq<Request>, answered: nat, released: nat, f: Flags) {
    && multiset(lane)[ReadOutbox] + answered == One(f.readInFlight)
    && multiset(lane)[ReleaseOutbox] + released == One(f.releaseInFlight)
    && Ordered(lane)
    && (f.releaseRequested ==> f.releaseInFlight)
  }

  /** `es` is the run of minted messages starting at id `a`. */
  ghost predicate IsRun(m: seq<Message>, a: nat, es: seq<Entry>) {
    a + |es| <= |m| && forall i :: 0 <= i < |es| ==> es[i] == Entry(a + i, m[a + i])
  }

  ghost predicate IsAppendRun(m: seq<Message>, a: nat, q: seq<WriterRequest>) {
    a + |q| <= |m| && forall i :: 0 <= i < |q| ==> q[i] == Append(Entry(a + i, m[a + i]))
  }

  predicate AllAppends(q: seq<WriterRequest>) { forall i :: 0 <= i < |q| ==> q[i].Append? }

  predicate AllDurable(q: seq<WriterEvent>) { forall i :: 0 <= i < |q| ==> q[i].Durable? }

  /** What is left of a closed session: a run of minted messages whose predecessors have all landed. */
  ghost predicate Tail(m: seq<Message>, top: nat, z: seq<Entry>) {
    z != [] ==> z[0].id <= top && IsRun(m, z[0].id, z)
  }

  ghost predicate Tails(m: seq<Message>, top: nat, zs: seq<seq<Entry>>) {
    forall i :: 0 <= i < |zs| ==> Tail(m, top, zs[i])
  }

  function Reply(replies: seq<seq<Entry>>): seq<Entry> {
    if replies == [] then [] else replies[0]
  }

  /** How many entries were read in this session and not yet acknowledged. */
  function PipeLength(w: Writer, q: seq<WriterRequest>, reply: seq<Entry>): nat
    requires w.Up?
  {
    |w.sent| + One(w.upload.Some?) + |q| + |reply|
  }

  /**
   * A session starting at `a`: what was submitted, what is uploading, what waits for the
   * writer and what was just read follow each other without a gap.
   */
  ghost predicate Session(m: seq<Message>, w: Writer, q: seq<WriterRequest>, reply: seq<Entry>, a: nat, top: nat)
    requires w.Up?
  {
    var u := a + |w.sent|;
    var v := u + One(w.upload.Some?);
    && IsRun(m, a, w.sent)
    && (w.upload.Some? ==> u < |m| && w.upload.value == Entry(u, m[u]))
    && IsAppendRun(m, v, q)
    && IsRun(m, v + |q|, reply)
    && w.landed <= |w.sent| && a + w.landed <= top
    && (w.expected.Some? ==> w.expected.value == v)
    && (w.expected.None? ==> w.sent == [] && w.upload.None?)
  }

  /** Rows acknowledged but not yet deleted have a trim on its way. */
  predicate TrimDue(events: seq<WriterEvent>, lane: seq<Request>, lo: nat, a: nat) {
    lo < a ==> Durable(a - 1) in events || TrimOutbox(a - 1) in lane
  }

  /** Reservation marks of an earlier session are gone or will be cleared before the next read. */
  predicate WillBeClean(lane: seq<Request>, f: Flags, lo: nat, mid: nat) {
    f.releaseRequested || ReleaseOutbox in lane || (ReadOutbox !in lane && TrimsBelow(lane, 0) && mid == lo)
  }

  predicate ReleasePending(f: Flags) { f.releaseRequested || f.releaseInFlight }

  /** Connected, but the release of the last session is still outstanding: nothing has been sent that matters. */
  predicate Settling(w: Writer, q: seq<WriterRequest>, events: seq<WriterEvent>, f: Flags, replies: seq<seq<Entry>>) {
    || (w == Up(None, None, [], 0) && events == [] && q == [] && (f.readInFlight ==> replies == [[]]))
    || (w.Down? && events == [Disconnected] && AllAppends(q))
  }

  /** The writer failed and the engine has not heard of it yet. */
  predicate Failing(w: Writer, q: seq<WriterRequest>, events: seq<WriterEvent>) {
    && w.Down? && AllAppends(q) && events != []
    && AllDurable(events[..|events| - 1]) && events[|events| - 1].Disconnected?
  }

  /** Everything acknowledged is below `a`. */
  predicate AckedBelow(lane: seq<Request>, events: seq<WriterEvent>, a: nat) {
    TrimsBelow(lane, a) && DurablesBelow(events, a)
  }

  /** What a read brought back, or is about to, has not been acknowledged or trimmed. */
  ghost predicate ReplyInv(m: seq<Message>, lane: seq<Request>, events: seq<WriterEvent>, reply: seq<Entry>, lo: nat, mid: nat) {
    && (reply != [] ==> lo <= reply[0].id && IsRun(m, reply[0].id, reply) && AckedBelow(lane, events, reply[0].id))
    && (ReadOutbox in lane ==> AckedBelow(lane, events, mid))
  }

  predicate Returning(w: Writer, q: seq<WriterRequest>, events: seq<WriterEvent>) {
    if q != [] then w.Down? && events == [] && AllAppends(q[..|q| - 1]) && q[|q| - 1].Reconnect?
    else
      || (w.Connecting? && events == [])
      || (w == Up(None, None, [], 0) && events == [Connected])
      || (w.Down? && (events == [Disconnected] || events == [Connected, Disconnected]))
  }

  /** The running session ends at the reservation mark. */
  ghost predicate LiveInv(m: seq<Message>, w: Writer, q: seq<WriterRequest>, reply: seq<Entry>, events: seq<WriterEvent>, lane: seq<Request>, lo: nat, mid: nat, top: nat)
    requires w.Up?
  {
    var n := PipeLength(w, q, reply);
    && lo <= mid - n && AllDurable(events)
    && Session(m, w, q, reply, mid - n, top)
    && TrimDue(events, lane, lo, mid - n) && AckedBelow(lane, events, mid - n)
  }

  ghost predicate ModeInv(s: Node, lo: nat, mid: nat, top: nat) {
    match s.flags.link
    case Online =>
      if ReleasePending(s.flags) then
        Settling(s.writer, s.toWriter, s.fromWriter, s.flags, s.readReplies) && WillBeClean(s.lane, s.flags, lo, mid)
      else if s.writer.Up? then LiveInv(s.minted, s.writer, s.toWriter, Reply(s.readReplies), s.fromWriter, s.lane, lo, mid, top)
      else Failing(s.writer, s.toWriter, s.fromWriter) && AckedBelow(s.lane, s.fromWriter, mid)
    case Reconnecting =>
      Returning(s.writer, s.toWriter, s.fromWriter) && WillBeClean(s.lane, s.flags, lo, mid)
    case Offline =>
      && s.writer.Down? && s.fromWriter == [] && AllAppends(s.toWriter)
      && WillBeClean(s.lane, s.flags, lo, mid)
  }

  /** No lost wake-up: a free row always has a read on its way. */
  predicate WakeInv(minted: nat, ready: nat, lane: seq<Request>, reply: seq<Entry>, f: Flags, mid: nat) {
    && (mid < minted ==> ready > 0 || f.readRequested || ReadOutbox in lane || reply != [])
    && (f.releaseRequested || ReleaseOutbox in lane ==> f.readRequested)
  }

  /** The invariant in the middle of an engine handler, before `MaybeStartRead`. */
  ghost predicate CoreInv(s: Node, lo: nat, mid: nat, top: nat) {
    && lo <= mid <= |s.minted| && lo <= top <= |s.minted|
    && s.rows == Table(s.minted, lo, mid)
    && LaneInv(s.lane, |s.readReplies|, s.releaseReplies, s.flags)
    && TrimsBelow(s.lane, top) && DurablesBelow(s.fromWriter, top)
    && Tails(s.minted, top, s.adrift)
    && ModeInv(s, lo, mid, top)
    && ReplyInv(s.minted, s.lane, s.fromWriter, Reply(s.readReplies), lo, mid)
    && WakeInv(|s.minted|, s.readyEvents, s.lane, Reply(s.readReplies), s.flags, mid)
  }

  ghost predicate NodeInv(s: Node, lo: nat, mid: nat, top: nat) {
    CoreInv(s, lo, mid, top) && !CanStartRead(s.flags)
  }

  ghost predicate Inv(d: nat, s: Node, log: seq<Record>) {
    && LogInv(d, s.minted, log)
    && exists lo, mid, top :: LandedBelow(log, d, top) && NodeInv(s, lo, mid, top)
  }

  // ---------------------------------------------------------------- preservation

  lemma LanePop(lane: seq<Request>)
    requires lane != []
    ensures multiset(lane) == multiset(lane[1..]) + multiset{lane[0]}
    ensures forall r :: r in lane <==> r == lane[0] || r in lane[1..]
    ensures forall r :: r in lane[1..] <==> multiset(lane[1..])[r] > 0
    ensures Ordered(lane) ==> Ordered(lane[1..])
    ensures Ordered(lane) && lane[0].ReleaseOutbox? ==> lane[1..] == []
    ensures forall top: nat :: TrimsBelow(lane, top) ==> TrimsBelow(lane[1..], top)
  {
    assert lane == [lane[0]] + lane[1..];
  }

  lemma LanePush(lane: seq<Request>, r: Request)
    ensures multiset(lane + [r]) == multiset(lane) + multiset{r}
    ensures forall x :: x in lane + [r] <==> x == r || x in lane
    ensures forall x :: x in lane <==> multiset(lane)[x] > 0
    ensures Ordered(lane) && ReleaseOutbox !in lane ==> Ordered(lane + [r])
    ensures forall top: nat :: TrimsBelow(lane, top) && (r.TrimOutbox? ==> r.through < top) ==> TrimsBelow(lane + [r], top)
  {
  }

  lemma RunSteps(m: seq<Message>, a: nat, es: seq<Entry>, q: seq<WriterRequest>)
    ensures es != [] && IsRun(m, a, es) ==> IsRun(m, a + 1, es[1..])
    ensures q != [] && IsAppendRun(m, a, q) ==> IsAppendRun(m, a + 1, q[1..])
    ensures IsRun(m, a, es) && a + |es| < |m| ==> IsRun(m, a, es + [Entry(a + |es|, m[a + |es|])])
    ensures IsRun(m, a + |q|, es) && IsAppendRun(m, a, q) ==> IsAppendRun(m, a, q + Appends(es))
  {
  }

  lemma KeepMint(s: Node, lo: nat, mid: nat, top: nat, msgs: seq<Message>)
    requires NodeInv(s, lo, mid, top)
    ensures NodeInv(Minted(s, msgs), lo, mid, top)
  {
    TableGrow(s.minted, lo, mid, msgs);
    RunGrows(s.minted, msgs, s.adrift, top);
    ModeGrows(s, msgs, lo, mid, top);
    ReplyGrows(s.minted, msgs, s.lane, s.fromWriter, Reply(s.readReplies), lo, mid);
  }

  lemma ModeGrows(s: Node, msgs: seq<Message>, lo: nat, mid: nat, top: nat)
    requires ModeInv(s, lo, mid, top)
    ensures ModeInv(Minted(s, msgs), lo, mid, top)
  {
    if s.flags.link.Online? && !ReleasePending(s.flags) && s.writer.Up? {
      LiveGrows(s.minted, msgs, s.writer, s.toWriter, Reply(s.readReplies), s.fromWriter, s.lane, lo, mid, top);
    }
  }

  lemma LiveGrows(m: seq<Message>, msgs: seq<Message>, w: Writer, q: seq<WriterRequest>, reply: seq<Entry>, events: seq<WriterEvent>, lane: seq<Request>, lo: nat, mid: nat, top: nat)
    requires w.Up? && LiveInv(m, w, q, reply, events, lane, lo, mid, top)
    ensures LiveInv(m + msgs, w, q, reply, events, lane, lo, mid, top)
  {
    SessionGrows(m, msgs, w, q, reply, mid - PipeLength(w, q, reply), top);
  }

  lemma ReplyGrows(m: seq<Message>, msgs: seq<Message>, lane: seq<Request>, events: seq<WriterEvent>, reply: seq<Entry>, lo: nat, mid: nat)
    requires ReplyInv(m, lane, events, reply, lo, mid)
    ensures ReplyInv(m + msgs, lane, events, reply, lo, mid)
  {
  }

  lemma RunGrows(m: seq<Message>, msgs: seq<Message>, zs: seq<seq<Entry>>, top: nat)
    requires Tails(m, top, zs)
    ensures Tails(m + msgs, top, zs)
  {
    forall i | 0 <= i < |zs| ensures Tail(m + msgs, top, zs[i]) {
      assert Tail(m, top, zs[i]);
    }
  }

  lemma SessionGrows(m: seq<Message>, msgs: seq<Message>, w: Writer, q: seq<WriterRequest>, reply: seq<Entry>, a: nat, top: nat)
    requires w.Up? && Session(m, w, q, reply, a, top)
    ensures Session(m + msgs, w, q, reply, a, top)
  {
  }

  lemma StartRead(s: Node, lo: nat, mid: nat, top: nat)
    requires CoreInv(s, lo, mid, top)
    ensures NodeInv(MaybeStartRead(s), lo, mid, top)
  {
    if CanStartRead(s.flags) {
      LanePush(s.lane, ReadOutbox);
      assert MaybeStartRead(s).lane == s.lane + [ReadOutbox];
    }
  }

  lemma KeepReadyEvent(s: Node, lo: nat, mid: nat, top: nat)
    requires NodeInv(s, lo, mid, top) && s.readyEvents > 0
    ensures NodeInv(OnReadyEvent(s), lo, mid, top)
  {
    StartRead(s.(readyEvents := s.readyEvents - 1, flags := s.flags.(readRequested := true)), lo, mid, top);
  }

  lemma KeepConnected(s: Node, lo: nat, mid: nat, top: nat)
    requires NodeInv(s, lo, mid, top) && s.fromWriter != [] && s.fromWriter[0].Connected? && NothingStale(s)
    ensures NodeInv(OnWriterEvent(s), lo, mid, top)
  {
    ConnectedCore(s, lo, mid, top);
    StartRead(s.(fromWriter := s.fromWriter[1..], flags := s.flags.(link := Online)), lo, mid, top);
  }

  lemma ConnectedCore(s: Node, lo: nat, mid: nat, top: nat)
    requires NodeInv(s, lo, mid, top) && s.fromWriter != [] && s.fromWriter[0].Connected? && NothingStale(s)
    ensures CoreInv(s.(fromWriter := s.fromWriter[1..], flags := s.flags.(link := Online)), lo, mid, top)
  {
    ConnectedMode(s, lo, mid, top);
    EventsLess(s.minted, s.lane, s.fromWriter, Reply(s.readReplies), lo, mid, top);
  }

  /** An event taken leaves what holds of all events. */
  lemma EventsLess(m: seq<Message>, lane: seq<Request>, events: seq<WriterEvent>, reply: seq<Entry>, lo: nat, mid: nat, top: nat)
    requires events != [] && DurablesBelow(events, top) && ReplyInv(m, lane, events, reply, lo, mid)
    ensures DurablesBelow(events[1..], top) && ReplyInv(m, lane, events[1..], reply, lo, mid)
  {
  }

  lemma ConnectedMode(s: Node, lo: nat, mid: nat, top: nat)
    requires NodeInv(s, lo, mid, top) && s.fromWriter != [] && s.fromWriter[0].Connected? && NothingStale(s)
    ensures ModeInv(s.(fromWriter := s.fromWriter[1..], flags := s.flags.(link := Online)), lo, mid, top)
  {
    ComingBack(s, lo, mid, top);
    if !ReleasePending(s.flags) {
      assert multiset(s.lane)[ReleaseOutbox] == 0 && ReleaseOutbox !in s.lane;
    }
  }

  /** Connected is heard of while reconnecting, and the session has done nothing yet or is over. */
  lemma ComingBack(s: Node, lo: nat, mid: nat, top: nat)
    requires NodeInv(s, lo, mid, top) && s.fromWriter != [] && s.fromWriter[0].Connected?
    ensures s.flags.link.Reconnecting? && s.toWriter == [] && WillBeClean(s.lane, s.flags, lo, mid)
    ensures (s.writer == Up(None, None, [], 0) && s.fromWriter == [Connected]) || (s.writer.Down? && s.fromWriter == [Connected, Disconnected])
  {
  }

  lemma KeepDisconnected(s: Node, lo: nat, mid: nat, top: nat)
    requires NodeInv(s, lo, mid, top) && s.fromWriter != [] && s.fromWriter[0].Disconnected?
    ensures NodeInv(OnWriterEvent(s), lo, mid, top)
  {
    LanePush(s.lane, ReleaseOutbox);
    LastWords(s, lo, mid, top);
    var f := s.flags.(link := Offline, readRequested := true);
    if s.flags.releaseInFlight {
      WentOffline(s, f.(releaseRequested := true), s.lane, lo, mid, top);
    } else {
      WentOffline(s, f.(releaseRequested := false, releaseInFlight := true), s.lane + [ReleaseOutbox], lo, mid, top);
    }
  }

  /** A Disconnected event is the writer's last, and nothing but appends is left for it. */
  lemma LastWords(s: Node, lo: nat, mid: nat, top: nat)
    requires NodeInv(s, lo, mid, top) && s.fromWriter != [] && s.fromWriter[0].Disconnected?
    ensures s.fromWriter == [Disconnected] && s.writer.Down? && AllAppends(s.toWriter)
  {
  }

  lemma WentOffline(s: Node, f: Flags, lane: seq<Request>, lo: nat, mid: nat, top: nat)
    requires NodeInv(s, lo, mid, top) && s.writer.Down? && AllAppends(s.toWriter)
    requires f.link.Offline? && f.readRequested && LaneInv(lane, |s.readReplies|, s.releaseReplies, f)
    requires TrimsBelow(lane, top) && (f.releaseRequested || ReleaseOutbox in lane)
    requires ReplyInv(s.minted, lane, [], Reply(s.readReplies), lo, mid)
    ensures NodeInv(s.(fromWriter := [], flags := f, lane := lane), lo, mid, top)
  {
  }

  /** A writer with anything to do is in a running session. */
  lemma LiveMode(s: Node, lo: nat, mid: nat, top: nat)
    requires CoreInv(s, lo, mid, top) && s.writer.Up? && (s.writer.sent != [] || s.writer.upload.Some? || s.toWriter != [])
    ensures s.flags.link.Online? && !ReleasePending(s.flags)
    ensures LiveInv(s.minted, s.writer, s.toWriter, Reply(s.readReplies), s.fromWriter, s.lane, lo, mid, top)
  {
  }

  /** Within a running session, only the session's own parts need looking at. */
  lemma LiveKept(s: Node, w: Writer, q: seq<WriterRequest>, events: seq<WriterEvent>, lo: nat, mid: nat, top: nat)
    requires NodeInv(s, lo, mid, top) && s.flags.link.Online? && !ReleasePending(s.flags) && s.writer.Up? && w.Up?
    requires DurablesBelow(events, top) && LiveInv(s.minted, w, q, Reply(s.readReplies), events, s.lane, lo, mid, top)
    ensures NodeInv(s.(writer := w, toWriter := q, fromWriter := events), lo, mid, top)
  {
    LiveReply(s.minted, w, q, Reply(s.readReplies), events, s.lane, lo, mid, top);
  }

  /** In a running session everything read lies above everything acknowledged. */
  lemma LiveReply(m: seq<Message>, w: Writer, q: seq<WriterRequest>, reply: seq<Entry>, events: seq<WriterEvent>, lane: seq<Request>, lo: nat, mid: nat, top: nat)
    requires w.Up? && LiveInv(m, w, q, reply, events, lane, lo, mid, top)
    ensures ReplyInv(m, lane, events, reply, lo, mid)
  {
    if reply != [] { assert reply[0].id == mid - |reply|; }
  }

  lemma SessionUpload(m: seq<Message>, w: Writer, q: seq<WriterRequest>, reply: seq<Entry>, a: nat, top: nat)
    requires w.Up? && w.upload.Some? && Session(m, w, q, reply, a, top)
    ensures Session(m, w.(upload := None, sent := w.sent + [w.upload.value]), q, reply, a, top)
  {
  }

  lemma SessionAck(m: seq<Message>, w: Writer, q: seq<WriterRequest>, reply: seq<Entry>, a: nat, top: nat)
    requires w.Up? && 0 < w.landed && Session(m, w, q, reply, a, top)
    ensures w.sent != [] && w.sent[0].id == a < top
    ensures Session(m, w.(sent := w.sent[1..], landed := w.landed - 1), q, reply, a + 1, top)
  {
    RunSteps(m, a, w.sent, []);
  }

  lemma SessionSubmit(m: seq<Message>, w: Writer, q: seq<WriterRequest>, reply: seq<Entry>, a: nat, top: nat, big: bool)
    requires w.Up? && w.upload.None? && q != [] && Session(m, w, q, reply, a, top)
    ensures q[0].Append? && (w.expected.Some? ==> w.expected.value == q[0].entry.id)
    ensures var e := q[0].entry; var w1 := w.(expected := Some(e.id + 1));
      Session(m, if big then w1.(upload := Some(e)) else w1.(sent := w1.sent + [e]), q[1..], reply, a, top)
  {
    RunSteps(m, a, w.sent, []);
    RunSteps(m, a + |w.sent|, [], q);
  }

  lemma LiveSubmit(m: seq<Message>, w: Writer, q: seq<WriterRequest>, reply: seq<Entry>, events: seq<WriterEvent>, lane: seq<Request>, lo: nat, mid: nat, top: nat, big: bool)
    requires w.Up? && w.upload.None? && q != [] && LiveInv(m, w, q, reply, events, lane, lo, mid, top)
    ensures q[0].Append? && (w.expected.Some? ==> w.expected.value == q[0].entry.id)
    ensures var e := q[0].entry; var w1 := w.(expected := Some(e.id + 1));
      LiveInv(m, if big then w1.(upload := Some(e)) else w1.(sent := w1.sent + [e]), q[1..], reply, events, lane, lo, mid, top)
  {
    SessionSubmit(m, w, q, reply, mid - PipeLength(w, q, reply), top, big);
  }

  lemma LiveUpload(m: seq<Message>, w: Writer, q: seq<WriterRequest>, reply: seq<Entry>, events: seq<WriterEvent>, lane: seq<Request>, lo: nat, mid: nat, top: nat)
    requires w.Up? && w.upload.Some? && LiveInv(m, w, q, reply, events, lane, lo, mid, top)
    ensures LiveInv(m, w.(upload := None, sent := w.sent + [w.upload.value]), q, reply, events, lane, lo, mid, top)
  {
    SessionUpload(m, w, q, reply, mid - PipeLength(w, q, reply), top);
  }

  lemma LiveAck(m: seq<Message>, w: Writer, q: seq<WriterRequest>, reply: seq<Entry>, events: seq<WriterEvent>, lane: seq<Request>, lo: nat, mid: nat, top: nat)
    requires w.Up? && 0 < w.landed <= |w.sent| && LiveInv(m, w, q, reply, events, lane, lo, mid, top)
    ensures w.sent[0].id < top
    ensures LiveInv(m, w.(sent := w.sent[1..], landed := w.landed - 1), q, reply, events + [Durable(w.sent[0].id)], lane, lo, mid, top)
  {
    var a := mid - PipeLength(w, q, reply);
    SessionAck(m, w, q, reply, a, top);
    assert Durable(a) in events + [Durable(a)];
  }

  lemma LiveLand(m: seq<Message>, w: Writer, q: seq<WriterRequest>, reply: seq<Entry>, events: seq<WriterEvent>, lane: seq<Request>, lo: nat, mid: nat, top: nat, e: Entry, top': nat)
    requires w.Up? && w.landed < |w.sent| && e == w.sent[w.landed] && top' == Above(top, e)
    requires LiveInv(m, w, q, reply, events, lane, lo, mid, top)
    ensures e.id <= top && e.id < |m| && e.msg == m[e.id]
    ensures LiveInv(m, w.(landed := w.landed + 1), q, reply, events, lane, lo, mid, top')
  {
  }

  /** Every id below is in the log once `e` is. */
  function Above(top: nat, e: Entry): nat { if e.id < top then top else e.id + 1 }

  lemma KeepDurable(s: Node, lo: nat, mid: nat, top: nat)
    requires NodeInv(s, lo, mid, top) && s.fromWriter != [] && s.fromWriter[0].Durable?
    ensures NodeInv(OnWriterEvent(s), lo, mid, top)
  {
    var t := TrimOutbox(s.fromWriter[0].through);
    LanePush(s.lane, t);
    assert s.fromWriter == [s.fromWriter[0]] + s.fromWriter[1..];
    if s.writer.Up? {
      DurableLive(s, t, lo, mid, top);
    } else {
      DurableFailing(s.writer, s.toWriter, s.fromWriter);
    }
  }

  lemma DurableLive(s: Node, t: Request, lo: nat, mid: nat, top: nat)
    requires NodeInv(s, lo, mid, top) && s.fromWriter != [] && s.fromWriter[0].Durable? && s.writer.Up?
    requires t == TrimOutbox(s.fromWriter[0].through)
    ensures s.flags.link.Online? && !ReleasePending(s.flags)
    ensures LiveInv(s.minted, s.writer, s.toWriter, Reply(s.readReplies), s.fromWriter[1..], s.lane + [t], lo, mid, top)
  {
    var a := mid - PipeLength(s.writer, s.toWriter, Reply(s.readReplies));
    TrimMoves(s.fromWriter, s.lane, lo, a);
  }

  /** A durable notice becomes a trim request. */
  lemma TrimMoves(events: seq<WriterEvent>, lane: seq<Request>, lo: nat, a: nat)
    requires events != [] && events[0].Durable? && TrimDue(events, lane, lo, a)
    ensures TrimDue(events[1..], lane + [TrimOutbox(events[0].through)], lo, a)
  {
    assert events == [events[0]] + events[1..];
  }

  lemma DurableFailing(w: Writer, q: seq<WriterRequest>, events: seq<WriterEvent>)
    requires Failing(w, q, events) && events[0].Durable?
    ensures Failing(w, q, events[1..])
  {
    var k := |events| - 1;
    assert events[1..][..k - 1] == events[..k][1..];
  }

  lemma KeepReadReply(s: Node, lo: nat, mid: nat, top: nat, i: nat)
    requires NodeInv(s, lo, mid, top) && i < |s.readReplies|
    ensures OnReadReply(s, i).Ok?
    ensures NodeInv(OnReadReply(s, i).value, lo, mid, top)
  {
    OneReply(s, lo, mid, top, i);
    if s.flags.link.Online? {
      KeepForward(s, lo, mid, top);
      StartRead(Forwarded(s), lo, mid, top);
    } else {
      KeepTakeBack(s, lo, mid, top);
      StartRead(TakenBack(s), lo, mid, top);
    }
  }

  lemma OneReply(s: Node, lo: nat, mid: nat, top: nat, i: nat)
    requires NodeInv(s, lo, mid, top) && i < |s.readReplies|
    ensures i == 0 && |s.readReplies| == 1
    ensures OnReadReply(s, i) == Ok(MaybeStartRead(if s.flags.link.Online? then Forwarded(s) else TakenBack(s)))
  {
    assert s.readReplies[..0] + s.readReplies[1..] == [];
  }

  function Forwarded(s: Node): Node
    requires |s.readReplies| == 1
  {
    s.(readReplies := [], toWriter := s.toWriter + Appends(s.readReplies[0]),
       flags := s.flags.(readInFlight := false, readRequested := s.flags.readRequested || s.readReplies[0] != []))
  }

  function TakenBack(s: Node): Node
    requires |s.readReplies| == 1
  {
    var s1 := s.(flags := s.flags.(readInFlight := false), readReplies := []);
    if s.readReplies[0] == [] then s1
    else var s2 := RequestRelease(s1); s2.(flags := s2.flags.(readRequested := true))
  }

  /** Online: the reserved messages go to the writer. */
  lemma KeepForward(s: Node, lo: nat, mid: nat, top: nat)
    requires NodeInv(s, lo, mid, top) && |s.readReplies| == 1 && s.flags.link.Online?
    ensures CoreInv(Forwarded(s), lo, mid, top)
  {
    if !ReleasePending(s.flags) && s.writer.Up? {
      LiveForward(s.minted, s.writer, s.toWriter, s.readReplies[0], s.fromWriter, s.lane, lo, mid, top);
    }
  }

  lemma LiveForward(m: seq<Message>, w: Writer, q: seq<WriterRequest>, reply: seq<Entry>, events: seq<WriterEvent>, lane: seq<Request>, lo: nat, mid: nat, top: nat)
    requires w.Up? && LiveInv(m, w, q, reply, events, lane, lo, mid, top)
    ensures LiveInv(m, w, q + Appends(reply), [], events, lane, lo, mid, top)
  {
    SessionForward(m, w, q, reply, mid - PipeLength(w, q, reply), top);
  }

  lemma SessionForward(m: seq<Message>, w: Writer, q: seq<WriterRequest>, reply: seq<Entry>, a: nat, top: nat)
    requires w.Up? && Session(m, w, q, reply, a, top)
    ensures Session(m, w, q + Appends(reply), [], a, top)
    ensures PipeLength(w, q + Appends(reply), []) == PipeLength(w, q, reply)
  {
    RunSteps(m, a + |w.sent| + One(w.upload.Some?), reply, q);
  }

  /** Not online: a nonempty reservation is given back. */
  lemma KeepTakeBack(s: Node, lo: nat, mid: nat, top: nat)
    requires NodeInv(s, lo, mid, top) && |s.readReplies| == 1 && !s.flags.link.Online?
    ensures CoreInv(TakenBack(s), lo, mid, top)
  {
    LanePush(s.lane, ReleaseOutbox);
    if s.readReplies[0] == [] {
      TakeNothing(s, lo, mid, top);
    } else if s.flags.releaseInFlight {
      TakeAgain(s, s.flags.(readInFlight := false, readRequested := true, releaseRequested := true), s.lane, lo, mid, top);
    } else {
      TakeAgain(s, s.flags.(readInFlight := false, readRequested := true, releaseRequested := false, releaseInFlight := true),
                s.lane + [ReleaseOutbox], lo, mid, top);
    }
  }

  lemma TakeNothing(s: Node, lo: nat, mid: nat, top: nat)
    requires NodeInv(s, lo, mid, top) && s.readReplies == [[]] && !s.flags.link.Online?
    ensures CoreInv(s.(flags := s.flags.(readInFlight := false), readReplies := []), lo, mid, top)
  {
  }

  /** What was read is given back: a release is on its way and a read is wanted. */
  lemma TakeAgain(s: Node, f: Flags, lane: seq<Request>, lo: nat, mid: nat, top: nat)
    requires NodeInv(s, lo, mid, top) && !s.flags.link.Online? && f.link == s.flags.link
    requires f.readRequested && (f.releaseRequested || ReleaseOutbox in lane) && LaneInv(lane, 0, s.releaseReplies, f)
    requires TrimsBelow(lane, top) && ReadOutbox !in lane
    ensures CoreInv(s.(flags := f, readReplies := [], lane := lane), lo, mid, top)
  {
  }

  lemma KeepReleaseReply(s: Node, lo: nat, mid: nat, top: nat)
    requires NodeInv(s, lo, mid, top) && s.releaseReplies > 0
    ensures OnReleaseReply(s).Ok?
    ensures NodeInv(OnReleaseReply(s).value, lo, mid, top)
  {
    ReleaseAlone(s, lo, mid, top);
    var s1 := s.(flags := s.flags.(releaseInFlight := false), releaseReplies := 0);
    if s.flags.releaseRequested { NextRelease(s, lo, mid, top); } else { LastRelease(s, lo, mid, top); }
    StartRead(MaybeStartRelease(s1), lo, mid, top);
  }

  lemma ReleaseAlone(s: Node, lo: nat, mid: nat, top: nat)
    requires NodeInv(s, lo, mid, top) && s.releaseReplies > 0
    ensures s.flags.releaseInFlight && s.releaseReplies == 1 && ReleaseOutbox !in s.lane
  {
    assert multiset(s.lane)[ReleaseOutbox] == 0;
  }

  lemma NextRelease(s: Node, lo: nat, mid: nat, top: nat)
    requires NodeInv(s, lo, mid, top) && s.releaseReplies == 1 && s.flags.releaseInFlight && s.flags.releaseRequested && ReleaseOutbox !in s.lane
    ensures CoreInv(s.(lane := s.lane + [ReleaseOutbox], releaseReplies := 0, flags := s.flags.(releaseRequested := false)), lo, mid, top)
  {
    LanePush(s.lane, ReleaseOutbox);
  }

  lemma LastRelease(s: Node, lo: nat, mid: nat, top: nat)
    requires NodeInv(s, lo, mid, top) && s.releaseReplies == 1 && s.flags.releaseInFlight && !s.flags.releaseRequested && ReleaseOutbox !in s.lane
    ensures CoreInv(s.(releaseReplies := 0, flags := s.flags.(releaseInFlight := false)), lo, mid, top)
  {
    LastReleaseMode(s, lo, mid, top);
  }

  lemma LastReleaseMode(s: Node, lo: nat, mid: nat, top: nat)
    requires NodeInv(s, lo, mid, top) && s.releaseReplies == 1 && s.flags.releaseInFlight && !s.flags.releaseRequested && ReleaseOutbox !in s.lane
    ensures ModeInv(s.(releaseReplies := 0, flags := s.flags.(releaseInFlight := false)), lo, mid, top)
  {
  }

  lemma KeepRead(s: Node, lo: nat, mid: nat, top: nat) returns (mid': nat)
    requires NodeInv(s, lo, mid, top) && s.lane != [] && s.lane[0].ReadOutbox?
    ensures OnLane(s).Ok?
    ensures NodeInv(OnLane(s).value, lo, mid', top)
  {
    mid' := TableReserve(s.minted, lo, mid, READ_OUTBOX_BATCH_SIZE);
    assert s.readReplies == [] by { LanePop(s.lane); }
    KeepReserved(s, lo, mid, mid', top);
    assert [] + [Entries(s.minted, mid, mid')] == [Entries(s.minted, mid, mid')];
  }

  lemma KeepReserved(s: Node, lo: nat, mid: nat, mid': nat, top: nat)
    requires NodeInv(s, lo, mid, top) && s.lane != [] && s.lane[0].ReadOutbox? && s.readReplies == []
    requires mid <= mid' <= |s.minted| && (mid' == mid ==> mid == |s.minted|)
    ensures NodeInv(s.(lane := s.lane[1..], rows := Table(s.minted, lo, mid'),
                       readReplies := [Entries(s.minted, mid, mid')]), lo, mid', top)
  {
    LanePop(s.lane);
    ReservedMode(s, Table(s.minted, lo, mid'), lo, mid, mid', top);
    ReservedReply(s.minted, s.lane, s.fromWriter, lo, mid, mid');
  }

  lemma ReservedReply(m: seq<Message>, lane: seq<Request>, events: seq<WriterEvent>, lo: nat, mid: nat, mid': nat)
    requires ReplyInv(m, lane, events, [], lo, mid) && lane != [] && lane[0].ReadOutbox? && lo <= mid <= mid' <= |m|
    requires multiset(lane)[ReadOutbox] <= 1
    ensures ReplyInv(m, lane[1..], events, Entries(m, mid, mid'), lo, mid')
  {
    LanePop(lane);
  }

  lemma ReservedMode(s: Node, rows: seq<Row>, lo: nat, mid: nat, mid': nat, top: nat)
    requires NodeInv(s, lo, mid, top) && s.lane != [] && s.lane[0].ReadOutbox? && s.readReplies == []
    requires mid <= mid' <= |s.minted| && (mid' == mid ==> mid == |s.minted|)
    ensures ModeInv(s.(lane := s.lane[1..], rows := rows, readReplies := [Entries(s.minted, mid, mid')]), lo, mid', top)
  {
    LanePop(s.lane);
    if s.flags.link.Online? && !ReleasePending(s.flags) && s.writer.Up? {
      LiveReserve(s.minted, s.writer, s.toWriter, s.fromWriter, s.lane, lo, mid, mid', top);
    }
  }

  lemma LiveReserve(m: seq<Message>, w: Writer, q: seq<WriterRequest>, events: seq<WriterEvent>, lane: seq<Request>, lo: nat, mid: nat, mid': nat, top: nat)
    requires w.Up? && LiveInv(m, w, q, [], events, lane, lo, mid, top) && lane != [] && lane[0].ReadOutbox?
    requires mid <= mid' <= |m|
    ensures LiveInv(m, w, q, Entries(m, mid, mid'), events, lane[1..], lo, mid', top)
  {
    LanePop(lane);
    var n := PipeLength(w, q, []);
    assert PipeLength(w, q, Entries(m, mid, mid')) == n + (mid' - mid);
    assert IsRun(m, mid, Entries(m, mid, mid'));
  }

  lemma KeepRelease(s: Node, lo: nat, mid: nat, top: nat)
    requires NodeInv(s, lo, mid, top) && s.lane != [] && s.lane[0].ReleaseOutbox?
    ensures NodeInv(OnLane(s).value, lo, lo, top)
  {
    LanePop(s.lane);
    assert Release(s.rows) == Table(s.minted, lo, lo);
  }

  lemma KeepTrim(s: Node, lo: nat, mid: nat, top: nat) returns (lo': nat)
    requires NodeInv(s, lo, mid, top) && s.lane != [] && s.lane[0].TrimOutbox?
    ensures NodeInv(OnLane(s).value, lo', mid, top)
  {
    var t := s.lane[0].through;
    TableTrim(s.minted, lo, mid, t);
    lo' := Kept(lo, mid, t);
    KeepTrimmed(s, lo, lo', mid, top);
  }

  lemma KeepTrimmed(s: Node, lo: nat, lo': nat, mid: nat, top: nat)
    requires NodeInv(s, lo, mid, top) && s.lane != [] && s.lane[0].TrimOutbox?
    requires lo' == Kept(lo, mid, s.lane[0].through)
    ensures NodeInv(s.(lane := s.lane[1..], rows := Table(s.minted, lo', mid)), lo', mid, top)
  {
    LanePop(s.lane);
    TrimmedMode(s, Table(s.minted, lo', mid), lo, lo', mid, top);
    TrimmedReply(s.minted, s.lane, s.fromWriter, Reply(s.readReplies), lo, lo', mid);
  }

  lemma TrimmedReply(m: seq<Message>, lane: seq<Request>, events: seq<WriterEvent>, reply: seq<Entry>, lo: nat, lo': nat, mid: nat)
    requires ReplyInv(m, lane, events, reply, lo, mid) && lane != [] && lane[0].TrimOutbox?
    requires lo' == Kept(lo, mid, lane[0].through)
    ensures ReplyInv(m, lane[1..], events, reply, lo', mid)
  {
    LanePop(lane);
  }

  lemma TrimmedLive(m: seq<Message>, w: Writer, q: seq<WriterRequest>, reply: seq<Entry>, events: seq<WriterEvent>, lane: seq<Request>, lo: nat, lo': nat, mid: nat, top: nat)
    requires w.Up? && LiveInv(m, w, q, reply, events, lane, lo, mid, top) && lane != [] && lane[0].TrimOutbox?
    requires lo' == Kept(lo, mid, lane[0].through)
    ensures LiveInv(m, w, q, reply, events, lane[1..], lo', mid, top)
  {
    LanePop(lane);
  }

  lemma TrimmedMode(s: Node, rows: seq<Row>, lo: nat, lo': nat, mid: nat, top: nat)
    requires lo <= mid && ModeInv(s, lo, mid, top) && s.lane != [] && s.lane[0].TrimOutbox?
    requires lo' == Kept(lo, mid, s.lane[0].through)
    ensures ModeInv(s.(lane := s.lane[1..], rows := rows), lo', mid, top)
  {
    LanePop(s.lane);
    if s.flags.link.Online? && !ReleasePending(s.flags) && s.writer.Up? {
      TrimmedLive(s.minted, s.writer, s.toWriter, Reply(s.readReplies), s.fromWriter, s.lane, lo, lo', mid, top);
    }
  }

  lemma KeepTake(s: Node, lo: nat, mid: nat, top: nat, big: bool)
    requires NodeInv(s, lo, mid, top) && Enabled(s, WriterTake(big))
    ensures OnWriterRequest(s, big).Ok?
    ensures NodeInv(OnWriterRequest(s, big).value, lo, mid, top)
  {
    if s.writer.Up? {
      KeepSubmit(s, lo, mid, top, big);
    } else {
      var q := s.toWriter;
      assert |q| > 1 ==> q[1..][..|q| - 2] == q[..|q| - 1][1..];
    }
  }

  /** The contiguity assert of the writer: the next request carries exactly the expected id. */
  lemma KeepSubmit(s: Node, lo: nat, mid: nat, top: nat, big: bool)
    requires NodeInv(s, lo, mid, top) && s.writer.Up? && s.writer.upload.None? && s.toWriter != []
    ensures s.toWriter[0].Append?
    ensures s.writer.expected.Some? ==> s.writer.expected.value == s.toWriter[0].entry.id
    ensures var e := s.toWriter[0].entry;
      var w := s.writer.(expected := Some(e.id + 1));
      NodeInv(s.(toWriter := s.toWriter[1..],
                 writer := if big then w.(upload := Some(e)) else w.(sent := w.sent + [e])), lo, mid, top)
  {
    LiveMode(s, lo, mid, top);
    LiveSubmit(s.minted, s.writer, s.toWriter, Reply(s.readReplies), s.fromWriter, s.lane, lo, mid, top, big);
    var e := s.toWriter[0].entry;
    var w := s.writer.(expected := Some(e.id + 1));
    LiveKept(s, if big then w.(upload := Some(e)) else w.(sent := w.sent + [e]), s.toWriter[1..], s.fromWriter, lo, mid, top);
  }

  lemma KeepUpload(s: Node, lo: nat, mid: nat, top: nat)
    requires NodeInv(s, lo, mid, top) && s.writer.Up? && s.writer.upload.Some?
    ensures NodeInv(Uploaded(s), lo, mid, top)
  {
    LiveMode(s, lo, mid, top);
    LiveUpload(s.minted, s.writer, s.toWriter, Reply(s.readReplies), s.fromWriter, s.lane, lo, mid, top);
    LiveKept(s, Uploaded(s).writer, s.toWriter, s.fromWriter, lo, mid, top);
  }

  lemma KeepAck(s: Node, lo: nat, mid: nat, top: nat)
    requires NodeInv(s, lo, mid, top) && s.writer.Up? && 0 < s.writer.landed <= |s.writer.sent|
    ensures NodeInv(Acknowledged(s), lo, mid, top)
  {
    LiveMode(s, lo, mid, top);
    LiveAck(s.minted, s.writer, s.toWriter, Reply(s.readReplies), s.fromWriter, s.lane, lo, mid, top);
    LiveKept(s, Acknowledged(s).writer, s.toWriter, s.fromWriter + [Durable(s.writer.sent[0].id)], lo, mid, top);
  }

  lemma KeepConnect(s: Node, lo: nat, mid: nat, top: nat)
    requires NodeInv(s, lo, mid, top)
    ensures s.writer.Connecting? ==> NodeInv(WriterConnected(s), lo, mid, top)
    ensures s.flags.link.Offline? ==> NodeInv(OnReconnectTimer(s), lo, mid, top)
  {
  }

  lemma KeepFail(s: Node, lo: nat, mid: nat, top: nat)
    requires NodeInv(s, lo, mid, top) && !s.writer.Down?
    ensures NodeInv(WriterFailed(s), lo, mid, top)
  {
    TailOfSession(s, lo, mid, top);
    FailMode(s, lo, mid, top);
    var q := s.fromWriter;
    assert forall t: nat :: DurablesBelow(q, t) ==> DurablesBelow(q + [Disconnected], t);
  }

  lemma FailMode(s: Node, lo: nat, mid: nat, top: nat)
    requires ModeInv(s, lo, mid, top) && !s.writer.Down?
    ensures ModeInv(WriterFailed(s), lo, mid, top)
  {
    var q := s.fromWriter;
    assert (q + [Disconnected])[..|q|] == q;
  }

  lemma KeepCrash(s: Node, lo: nat, mid: nat, top: nat)
    requires NodeInv(s, lo, mid, top)
    ensures NodeInv(Restarted(s), lo, lo, top)
  {
    assert Release(s.rows) == Table(s.minted, lo, lo);
    TailOfSession(s, lo, mid, top);
  }

  lemma TailOfSession(s: Node, lo: nat, mid: nat, top: nat)
    requires NodeInv(s, lo, mid, top)
    ensures Tails(s.minted, top, CloseSession(s))
  {
  }

  lemma KeepLand(s: Node, lo: nat, mid: nat, top: nat, e: Entry)
    requires NodeInv(s, lo, mid, top) && s.writer.Up? && s.writer.landed < |s.writer.sent|
    requires e == s.writer.sent[s.writer.landed]
    ensures e.id <= top && e.id < |s.minted| && e.msg == s.minted[e.id]
    ensures NodeInv(Landed(s), lo, mid, Above(top, e))
  {
    LandInSession(s, lo, mid, top, e);
    TopGrows(s, lo, mid, top, Above(top, e));
  }

  lemma LandInSession(s: Node, lo: nat, mid: nat, top: nat, e: Entry)
    requires NodeInv(s, lo, mid, top) && s.writer.Up? && s.writer.landed < |s.writer.sent|
    requires e == s.writer.sent[s.writer.landed]
    ensures s.flags.link.Online? && !ReleasePending(s.flags)
    ensures e.id <= top <= Above(top, e) <= |s.minted| && e.id < |s.minted| && e.msg == s.minted[e.id]
    ensures LiveInv(s.minted, s.writer.(landed := s.writer.landed + 1), s.toWriter, Reply(s.readReplies), s.fromWriter, s.lane, lo, mid, Above(top, e))
  {
    Bounds(s, lo, mid, top);
    LiveMode(s, lo, mid, top);
    LandLive(s, s.writer.(landed := s.writer.landed + 1), lo, mid, top, e);
  }

  lemma LandLive(s: Node, w: Writer, lo: nat, mid: nat, top: nat, e: Entry)
    requires s.writer.Up? && s.writer.landed < |s.writer.sent| && e == s.writer.sent[s.writer.landed] && w == s.writer.(landed := s.writer.landed + 1)
    requires LiveInv(s.minted, s.writer, s.toWriter, Reply(s.readReplies), s.fromWriter, s.lane, lo, mid, top)
    ensures e.id <= top && e.id < |s.minted| && e.msg == s.minted[e.id]
    ensures LiveInv(s.minted, w, s.toWriter, Reply(s.readReplies), s.fromWriter, s.lane, lo, mid, Above(top, e))
  {
    LiveLand(s.minted, s.writer, s.toWriter, Reply(s.readReplies), s.fromWriter, s.lane, lo, mid, top, e, Above(top, e));
  }

  lemma Bounds(s: Node, lo: nat, mid: nat, top: nat)
    requires CoreInv(s, lo, mid, top)
    ensures lo <= mid <= |s.minted| && lo <= top <= |s.minted|
  {
  }

  /** More of the log behind us, and the writer knows of it. */
  lemma TopGrows(s: Node, lo: nat, mid: nat, top: nat, top': nat)
    requires NodeInv(s, lo, mid, top) && top <= top' <= |s.minted|
    requires s.flags.link.Online? && !ReleasePending(s.flags) && s.writer.Up?
    requires LiveInv(s.minted, s.writer.(landed := s.writer.landed + 1), s.toWriter, Reply(s.readReplies), s.fromWriter, s.lane, lo, mid, top')
    ensures NodeInv(Landed(s), lo, mid, top')
  {
    TailsUp(s.minted, s.adrift, top, top');
    BelowUp(s.lane, s.fromWriter, top, top');
  }

  lemma TailsUp(m: seq<Message>, zs: seq<seq<Entry>>, top: nat, top': nat)
    requires Tails(m, top, zs) && top <= top'
    ensures Tails(m, top', zs)
  {
  }

  lemma BelowUp(lane: seq<Request>, events: seq<WriterEvent>, top: nat, top': nat)
    requires TrimsBelow(lane, top) && DurablesBelow(events, top) && top <= top'
    ensures TrimsBelow(lane, top') && DurablesBelow(events, top')
  {
  }

  lemma KeepLandAdrift(s: Node, lo: nat, mid: nat, top: nat, i: nat, e: Entry)
    requires NodeInv(s, lo, mid, top) && i < |s.adrift| && s.adrift[i] != [] && e == s.adrift[i][0]
    ensures e.id <= top && e.id < |s.minted| && e.msg == s.minted[e.id]
    ensures NodeInv(LandedAdrift(s, i), lo, mid, Above(top, e))
  {
    TailLanded(s.minted, s.adrift, top, i, e);
    BelowUp(s.lane, s.fromWriter, top, Above(top, e));
    ModeUp(s, s.adrift[i := s.adrift[i][1..]], lo, mid, top, Above(top, e));
  }

  lemma TailLanded(m: seq<Message>, zs: seq<seq<Entry>>, top: nat, i: nat, e: Entry)
    requires Tails(m, top, zs) && i < |zs| && zs[i] != [] && e == zs[i][0]
    ensures e.id <= top && e.id < |m| && e.msg == m[e.id]
    ensures Tails(m, Above(top, e), zs[i := zs[i][1..]])
  {
    assert Tail(m, top, zs[i]);
    forall j | 0 <= j < |zs| && j != i ensures Tail(m, Above(top, e), zs[j]) { assert Tail(m, top, zs[j]); }
  }

  /** A longer log suits every mode. */
  lemma ModeUp(s: Node, adrift: seq<seq<Entry>>, lo: nat, mid: nat, top: nat, top': nat)
    requires ModeInv(s, lo, mid, top) && top <= top'
    ensures ModeInv(s.(adrift := adrift), lo, mid, top')
  {
  }

  lemma FreshInv(d: nat, log: seq<Record>)
    requires forall j :: 0 <= j < |log| ==> log[j].origin != d
    ensures Inv(d, Fresh(), log)
  {
    assert NodeInv(Fresh(), 0, 0, 0);
  }

  /** Whatever others append, and whatever of ours is appended again, the invariant holds. */
  lemma LogStep(d: nat, s: Node, log: seq<Record>, r: Record)
    requires Inv(d, s, log)
    requires r.origin == d ==> r in log
    ensures Inv(d, s, log + [r])
  {
    var lo, mid, top :| LandedBelow(log, d, top) && NodeInv(s, lo, mid, top);
    LandedGrows(log, [r], d, top);
    if r.origin == d {
      var j :| 0 <= j < |log| && log[j] == r;
      assert log == log[..j] + log[j..];
      LandedGrows(log[..j], log[j..], d, r.entry.id);
    }
    LogGrows(d, s.minted, log, r);
  }

  lemma LandStep(d: nat, s: Node, s': Node, log: seq<Record>, e: Entry, lo: nat, mid: nat, top: nat)
    requires LogInv(d, s.minted, log) && LandedBelow(log, d, top) && s'.minted == s.minted
    requires e.id <= top && e.id < |s.minted| && e.msg == s.minted[e.id]
    requires NodeInv(s', lo, mid, Above(top, e))
    ensures Inv(d, s', log + [Record(d, e)])
  {
    LogGrows(d, s.minted, log, Record(d, e));
    if e.id < top { LandedGrows(log, [Record(d, e)], d, top); } else { LandedNext(log, d, e); }
  }

  lemma EngineStep(s: Node, step: Step, lo: nat, mid: nat, top: nat)
    requires NodeInv(s, lo, mid, top) && Enabled(s, step) && Timely(s, step)
    requires step.TakeReadyEvent? || step.TakeWriterEvent? || step.TakeReadReply? || step.TakeReleaseReply? || step.ReconnectTimer?
    ensures Next(s, step).Ok? && NodeInv(Next(s, step).value, lo, mid, top)
  {
    match step {
      case TakeReadyEvent => KeepReadyEvent(s, lo, mid, top);
      case TakeWriterEvent =>
        match s.fromWriter[0] {
          case Connected => KeepConnected(s, lo, mid, top);
          case Disconnected => KeepDisconnected(s, lo, mid, top);
          case Durable(_) => KeepDurable(s, lo, mid, top);
        }
      case TakeReadReply(i) => KeepReadReply(s, lo, mid, top, i);
      case TakeReleaseReply => KeepReleaseReply(s, lo, mid, top);
      case ReconnectTimer => KeepConnect(s, lo, mid, top);
    }
  }

  lemma LaneStep(s: Node, lo: nat, mid: nat, top: nat) returns (lo': nat, mid': nat)
    requires NodeInv(s, lo, mid, top) && s.lane != []
    ensures OnLane(s).Ok? && NodeInv(OnLane(s).value, lo', mid', top)
  {
    lo', mid' := lo, mid;
    match s.lane[0] {
      case ReadOutbox => mid' := KeepRead(s, lo, mid, top);
      case ReleaseOutbox => KeepRelease(s, lo, mid, top); mid' := lo;
      case TrimOutbox(_) => lo' := KeepTrim(s, lo, mid, top);
    }
  }

  lemma WriterStep(s: Node, step: Step, lo: nat, mid: nat, top: nat)
    requires NodeInv(s, lo, mid, top) && Enabled(s, step)
    requires step.WriterConnect? || step.WriterFail? || step.WriterTake? || step.UploadDone? || step.Ack?
    ensures Next(s, step).Ok? && NodeInv(Next(s, step).value, lo, mid, top)
  {
    match step {
      case WriterConnect => KeepConnect(s, lo, mid, top);
      case WriterFail => KeepFail(s, lo, mid, top);
      case WriterTake(big) => KeepTake(s, lo, mid, top, big);
      case UploadDone => KeepUpload(s, lo, mid, top);
      case Ack => KeepAck(s, lo, mid, top);
    }
  }

  /** Which bounds hold after a step that appends nothing. */
  lemma QuietStep(s: Node, step: Step, lo: nat, mid: nat, top: nat) returns (lo': nat, mid': nat)
    requires NodeInv(s, lo, mid, top) && Enabled(s, step) && Timely(s, step) && !step.Land? && !step.LandAdrift?
    ensures Next(s, step).Ok? && NodeInv(Next(s, step).value, lo', mid', top)
  {
    lo', mid' := lo, mid;
    match step {
      case Mint(msgs) => KeepMint(s, lo, mid, top, msgs);
      case RunLane => lo', mid' := LaneStep(s, lo, mid, top);
      case Crash => KeepCrash(s, lo, mid, top); mid' := lo;
      case WriterConnect => WriterStep(s, step, lo, mid, top);
      case WriterFail => WriterStep(s, step, lo, mid, top);
      case WriterTake(_) => WriterStep(s, step, lo, mid, top);
      case UploadDone => WriterStep(s, step, lo, mid, top);
      case Ack => WriterStep(s, step, lo, mid, top);
      case _ => EngineStep(s, step, lo, mid, top);
    }
  }

  /** Only `Mint` changes what has been minted. */
  lemma MintGrows(s: Node, step: Step)
    requires Enabled(s, step) && Next(s, step).Ok?
    ensures Next(s, step).value.minted == s.minted + if step.Mint? then step.msgs else []
  {
  }

  lemma LandSafe(d: nat, s: Node, log: seq<Record>)
    requires Inv(d, s, log) && Enabled(s, Land)
    ensures Inv(d, Landed(s), log + [Record(d, s.writer.sent[s.writer.landed])])
  {
    var lo, mid, top :| LandedBelow(log, d, top) && NodeInv(s, lo, mid, top);
    var e := s.writer.sent[s.writer.landed];
    KeepLand(s, lo, mid, top, e);
    LandStep(d, s, Landed(s), log, e, lo, mid, top);
  }

  lemma LandAdriftSafe(d: nat, s: Node, log: seq<Record>, i: nat)
    requires Inv(d, s, log) && Enabled(s, LandAdrift(i))
    ensures Inv(d, LandedAdrift(s, i), log + [Record(d, s.adrift[i][0])])
  {
    var lo, mid, top :| LandedBelow(log, d, top) && NodeInv(s, lo, mid, top);
    var e := s.adrift[i][0];
    KeepLandAdrift(s, lo, mid, top, i, e);
    LandStep(d, s, LandedAdrift(s, i), log, e, lo, mid, top);
  }

  lemma QuietSafe(d: nat, s: Node, log: seq<Record>, step: Step)
    requires Inv(d, s, log) && Enabled(s, step) && Timely(s, step) && !step.Land? && !step.LandAdrift?
    ensures Next(s, step).Ok? && Inv(d, Next(s, step).value, log)
  {
    var lo, mid, top :| LandedBelow(log, d, top) && NodeInv(s, lo, mid, top);
    var lo', mid' := QuietStep(s, step, lo, mid, top);
    MintGrows(s, step);
    var s' := Next(s, step).value;
    if step.Mint? { LogMint(d, s.minted, step.msgs, log); }
    assert LogInv(d, s'.minted, log) && NodeInv(s', lo', mid', top);
  }

  lemma LogMint(d: nat, m: seq<Message>, msgs: seq<Message>, log: seq<Record>)
    requires LogInv(d, m, log)
    ensures LogInv(d, m + msgs, log)
  {
  }

  /**
   * Every step a node can take, under the timing assumption, finishes without hitting an
   * assert (the writer's contiguity assert, the reservation checks, the reply asserts) and
   * keeps the invariant.
   */
  lemma StepSafe(d: nat, s: Node, log: seq<Record>, step: Step)
    requires Inv(d, s, log) && Enabled(s, step) && Timely(s, step)
    ensures Next(s, step).Ok?
    ensures Inv(d, Next(s, step).value, log + Landing(d, s, step))
    ensures Next(s, step).value.minted == s.minted + if step.Mint? then step.msgs else []
  {
    match step {
      case Land => LandSafe(d, s, log);
      case LandAdrift(i) => LandAdriftSafe(d, s, log, i);
      case _ =>
        QuietSafe(d, s, log, step);
        assert Landing(d, s, step) == [] && log + [] == log;
    }
    MintGrows(s, step);
  }
}
