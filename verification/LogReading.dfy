/**
 * From the log to the tables for one daemon: the log reader (log/reader.rs), the engine's
 * buffer, drain timer and reconnect cursor (engine/actor.rs) and the lane that applies
 * batches. Records are known by their sequence numbers.
 */
module LogReading {
  import opened Common

  datatype Reader =
    | Connecting(start: nat)
    | Running(next: nat)
    | Waiting                          // for a Reconnect request

  datatype Event = Connected | Read(number: nat) | Disconnected

  datatype Link = Online | Reconnecting | Offline

  datatype Job = Apply(batch: seq<nat>) | ReadCursor

  datatype Answer = Applied | CursorIs(cursor: nat)

  datatype Daemon = Daemon(
    logLength: nat,
    reader: Reader, toReader: seq<nat>, events: seq<Event>,
    link: Link, cursorInFlight: bool,
    buffer: seq<nat>, armed: bool, batchInFlight: bool,
    lane: seq<Job>, answers: seq<Answer>,
    cursor: nat,                       // the stable cursor in the tables
    applied: seq<seq<nat>>)            // history: the batches applied

  /** Sequence numbers a, a + 1, ... */
  predicate IsRange(s: seq<nat>, a: nat) { forall i :: 0 <= i < |s| ==> s[i] == a + i }

  // ---------------------------------------------------------------- engine

  function OnEvent(s: Daemon): Daemon
    requires s.events != []
  {
    var rest := s.(events := s.events[1..]);
    match s.events[0]
    case Connected => rest.(link := Online)
    case Disconnected => rest.(link := Offline)
    case Read(n) => rest.(buffer := s.buffer + [n], armed := s.armed || !s.batchInFlight)
  }

  /** The drain timer; `MuxTimer` disarms an event when it fires. */
  function OnDrainTimer(s: Daemon): Outcome<Daemon> {
    if s.batchInFlight then Ok(s.(armed := false))
    else if s.buffer == [] || !IsRange(s.buffer, s.buffer[0]) then Fault
    else Ok(s.(buffer := [], armed := false, batchInFlight := true, lane := s.lane + [Apply(s.buffer)]))
  }

  function OnReconnectTimer(s: Daemon): Daemon {
    if s.link.Offline? && !s.cursorInFlight
    then s.(link := Reconnecting, cursorInFlight := true, lane := s.lane + [ReadCursor])
    else s
  }

  function OnAnswer(s: Daemon, i: nat): Outcome<Daemon>
    requires i < |s.answers|
  {
    var rest := s.(answers := s.answers[..i] + s.answers[i + 1..]);
    match s.answers[i]
    case Applied =>
      if !s.batchInFlight then Fault else Ok(rest.(batchInFlight := false, armed := s.armed || s.buffer != []))
    case CursorIs(c) =>
      if !s.cursorInFlight then Fault
      else Ok(rest.(cursorInFlight := false, toReader := s.toReader + if s.link.Reconnecting? then [c] else []))
  }

  // ---------------------------------------------------------------- lane and reader

  function OnLane(s: Daemon): Outcome<Daemon>
    requires s.lane != []
  {
    var rest := s.(lane := s.lane[1..]);
    match s.lane[0]
    case Apply(batch) =>
      if batch == [] || batch[0] != s.cursor then Fault
      else Ok(rest.(cursor := s.cursor + |batch|, applied := s.applied + [batch], answers := s.answers + [Applied]))
    case ReadCursor => Ok(rest.(answers := s.answers + [CursorIs(s.cursor)]))
  }

  datatype Step =
    | Grow                             // somebody appends to the log
    | ReaderConnect | ReaderRead | ReaderFail
    | ReaderTake                       // a Reconnect request; ignored while connected
    | TakeEvent | DrainTimer | ReconnectTimer
    | TakeAnswer(i: nat) | RunLane

  /** The timing assumption: when a reconnect asks for the cursor, nothing read is still buffered. */
  predicate Timely(s: Daemon, step: Step) {
    step.ReconnectTimer? ==> s.buffer == []
  }

  predicate Enabled(s: Daemon, step: Step) {
    match step
    case Grow => true
    case ReaderConnect => s.reader.Connecting?
    case ReaderRead => s.reader.Running? && s.reader.next < s.logLength
    case ReaderFail => !s.reader.Waiting?
    case ReaderTake => s.toReader != [] && !s.reader.Connecting?
    case TakeEvent => s.events != []
    case DrainTimer => s.armed
    case ReconnectTimer => s.link.Offline?
    case TakeAnswer(i) => i < |s.answers|
    case RunLane => s.lane != []
  }

  function Next(s: Daemon, step: Step): Outcome<Daemon>
    requires Enabled(s, step)
  {
    match step
    case Grow => Ok(s.(logLength := s.logLength + 1))
    case ReaderConnect => Ok(s.(reader := Running(s.reader.start), events := s.events + [Connected]))
    case ReaderRead => Ok(s.(reader := Running(s.reader.next + 1), events := s.events + [Read(s.reader.next)]))
    case ReaderFail => Ok(s.(reader := Waiting, events := s.events + [Disconnected]))
    case ReaderTake =>
      Ok(s.(toReader := s.toReader[1..], reader := if s.reader.Waiting? then Connecting(s.toReader[0]) else s.reader))
    case TakeEvent => Ok(OnEvent(s))
    case DrainTimer => OnDrainTimer(s)
    case ReconnectTimer => Ok(OnReconnectTimer(s))
    case TakeAnswer(i) => OnAnswer(s, i)
    case RunLane => OnLane(s)
  }

  /** Startup: the reader begins at the stable cursor. */
  function Start(cursor: nat, logLength: nat): Daemon {
    Daemon(logLength, Connecting(cursor), [], [], Reconnecting, false, [], false, false, [], [], cursor, [])
  }

  // ---------------------------------------------------------------- the invariant

  /** The batches, one after the other, are exactly the sequence numbers from `start` up to `end`. */
  ghost predicate Covers(batches: seq<seq<nat>>, start: nat, end: nat) {
    if batches == [] then start == end
    else
      var k := |batches| - 1;
      && batches[k] != [] && |batches[k]| <= end - start
      && IsRange(batches[k], end - |batches[k]|)
      && Covers(batches[..k], start, end - |batches[k]|)
  }

  predicate Pending(lane: seq<Job>) { lane != [] && lane[0].Apply? }

  predicate Asking(lane: seq<Job>) { lane != [] && lane[|lane| - 1].ReadCursor? }

  /**
   * One batch and one cursor read may be under way, the batch first. A batch continues the
   * tables, and an answered cursor is the cursor.
   */
  predicate FlightInv(lane: seq<Job>, answers: seq<Answer>, batchInFlight: bool, cursorInFlight: bool, cursor: nat) {
    && lane == (if Pending(lane) then [lane[0]] else []) + (if Asking(lane) then [ReadCursor] else [])
    && (Pending(lane) ==> lane[0].batch != [] && IsRange(lane[0].batch, cursor))
    && (batchInFlight <==> Pending(lane) || Applied in answers)
    && (cursorInFlight <==> Asking(lane) || CursorIs(cursor) in answers)
    && (forall i :: 0 <= i < |answers| ==> answers[i] == if answers[i].Applied? then Applied else CursorIs(cursor))
    && (forall i, j :: 0 <= i < j < |answers| ==> answers[i] != answers[j])
    && (answers != [] ==> Applied in answers || CursorIs(cursor) in answers)
    && (Pending(lane) ==> answers == []) && (Asking(lane) ==> CursorIs(cursor) !in answers)
  }

  /** Where the tables will be once the batch under way is applied. */
  function Base(lane: seq<Job>, cursor: nat): nat {
    cursor + if Pending(lane) then |lane[0].batch| else 0
  }

  function Skipped(link: Link): nat { if link.Reconnecting? then 1 else 0 }

  /** The events of a session: its Connected if not yet seen, then the records from `top` on. */
  predicate Stream(events: seq<Event>, link: Link, top: nat) {
    var skip := Skipped(link);
    && skip <= |events| && (skip == 1 ==> events[0] == Connected)
    && forall i :: skip <= i < |events| ==> events[i] == Read(top + i - skip)
  }

  /** The engine's half of a session under way: what is still in its mailbox. */
  predicate SessionInv(reader: Reader, link: Link, events: seq<Event>, top: nat) {
    match reader
    case Connecting(start) => link.Reconnecting? && events == [] && start == top
    case Running(next) => !link.Offline? && Stream(events, link, top) && next == top + |events| - Skipped(link)
    case Waiting =>
      && !link.Offline? && events != [] && events[|events| - 1] == Disconnected
      && ((link.Reconnecting? && |events| == 1) || Stream(events[..|events| - 1], link, top))
  }

  predicate Idle(reader: Reader, events: seq<Event>) { reader.Waiting? && events == [] }

  predicate LinkInv(asking: bool, toReader: seq<nat>, link: Link, reader: Reader, events: seq<Event>, buffer: seq<nat>, lane: seq<Job>, cursor: nat) {
    if asking then link.Reconnecting? && Idle(reader, events) && toReader == [] && buffer == []
    else if toReader != [] then
      link.Reconnecting? && Idle(reader, events) && toReader == [cursor] && buffer == [] && !Pending(lane)
    else if link.Offline? then Idle(reader, events)
    else SessionInv(reader, link, events, Base(lane, cursor) + |buffer|)
  }

  predicate InLog(events: seq<Event>, logLength: nat) {
    forall i :: 0 <= i < |events| && events[i].Read? ==> events[i].number < logLength
  }

  lemma InLogSteps(events: seq<Event>, logLength: nat, e: Event)
    requires InLog(events, logLength)
    ensures InLog(events, logLength + 1)
    ensures (e.Read? ==> e.number < logLength) ==> InLog(events + [e], logLength)
    ensures events != [] ==> InLog(events[1..], logLength) && (events[0].Read? ==> events[0].number < logLength)
  {
  }

  ghost predicate Inv(s: Daemon, start: nat) {
    && FlightInv(s.lane, s.answers, s.batchInFlight, s.cursorInFlight, s.cursor) && IsRange(s.buffer, Base(s.lane, s.cursor))
    && InLog(s.events, s.logLength) && Base(s.lane, s.cursor) + |s.buffer| <= s.logLength && (s.reader.Running? ==> s.reader.next <= s.logLength)
    && (s.armed <==> s.buffer != [] && !s.batchInFlight)
    && LinkInv(s.cursorInFlight, s.toReader, s.link, s.reader, s.events, s.buffer, s.lane, s.cursor) && Covers(s.applied, start, s.cursor)
  }

  lemma StartInv(cursor: nat, logLength: nat)
    requires cursor <= logLength
    ensures Inv(Start(cursor, logLength), cursor)
  {
  }

  lemma ReaderEmits(reader: Reader, link: Link, events: seq<Event>, top: nat)
    requires SessionInv(reader, link, events, top)
    ensures reader.Connecting? ==> SessionInv(Running(reader.start), link, events + [Connected], top)
    ensures reader.Running? ==> SessionInv(Running(reader.next + 1), link, events + [Read(reader.next)], top)
    ensures !reader.Waiting? ==> SessionInv(Waiting, link, events + [Disconnected], top)
  {
    assert (events + [Disconnected])[..|events|] == events;
  }

  /** The reader moved on within its session. */
  lemma KeepSession(s: Daemon, reader: Reader, events: seq<Event>, start: nat)
    requires Inv(s, start) && !s.reader.Waiting?
    requires SessionInv(reader, s.link, events, Base(s.lane, s.cursor) + |s.buffer|) && (reader.Running? ==> reader.next <= s.logLength)
    requires InLog(events, s.logLength)
    ensures Inv(s.(reader := reader, events := events), start)
  {
  }

  lemma KeepConnect(s: Daemon, start: nat)
    requires Inv(s, start) && s.reader.Connecting?
    ensures Inv(s.(reader := Running(s.reader.start), events := s.events + [Connected]), start)
  {
    SessionOf(s, start);
    ReaderEmits(s.reader, s.link, s.events, Base(s.lane, s.cursor) + |s.buffer|);
    EmitKept(s, Running(s.reader.start), Connected, start);
  }

  lemma KeepFetch(s: Daemon, start: nat)
    requires Inv(s, start) && s.reader.Running? && s.reader.next < s.logLength
    ensures Inv(s.(reader := Running(s.reader.next + 1), events := s.events + [Read(s.reader.next)]), start)
  {
    SessionOf(s, start);
    ReaderEmits(s.reader, s.link, s.events, Base(s.lane, s.cursor) + |s.buffer|);
    EmitKept(s, Running(s.reader.next + 1), Read(s.reader.next), start);
  }

  lemma KeepFail(s: Daemon, start: nat)
    requires Inv(s, start) && !s.reader.Waiting?
    ensures Inv(s.(reader := Waiting, events := s.events + [Disconnected]), start)
  {
    SessionOf(s, start);
    ReaderEmits(s.reader, s.link, s.events, Base(s.lane, s.cursor) + |s.buffer|);
    EmitKept(s, Waiting, Disconnected, start);
  }

  lemma EmitKept(s: Daemon, reader: Reader, e: Event, start: nat)
    requires Inv(s, start) && !s.reader.Waiting? && (e.Read? ==> e.number < s.logLength)
    requires SessionInv(reader, s.link, s.events + [e], Base(s.lane, s.cursor) + |s.buffer|) && (reader.Running? ==> reader.next <= s.logLength)
    ensures Inv(s.(reader := reader, events := s.events + [e]), start)
  {
    InLogSteps(s.events, s.logLength, e);
    KeepSession(s, reader, s.events + [e], start);
  }

  /** A session is under way as soon as the reader is not waiting or has something in its mailbox. */
  lemma SessionOf(s: Daemon, start: nat)
    requires Inv(s, start) && (!s.reader.Waiting? || s.events != [])
    ensures SessionInv(s.reader, s.link, s.events, Base(s.lane, s.cursor) + |s.buffer|)
    ensures !s.cursorInFlight && s.toReader == [] && !s.link.Offline?
    ensures s.reader.Connecting? ==> s.reader.start <= s.logLength
  {
  }

  lemma KeepTake(s: Daemon, start: nat)
    requires Inv(s, start) && s.toReader != [] && !s.reader.Connecting?
    ensures Inv(Next(s, ReaderTake).value, start)
  {
  }

  lemma TakeConnected(reader: Reader, link: Link, events: seq<Event>, top: nat)
    requires SessionInv(reader, link, events, top) && events != [] && events[0] == Connected
    ensures SessionInv(reader, Online, events[1..], top)
  {
    if reader.Waiting? {
      var k := |events| - 1;
      assert k > 0 && events[..k][0] == Connected;
      assert events[1..][..k - 1] == events[..k][1..];
    }
  }

  lemma TakeRead(reader: Reader, link: Link, events: seq<Event>, top: nat)
    requires SessionInv(reader, link, events, top) && events != [] && events[0].Read?
    ensures events[0] == Read(top) && link.Online? && SessionInv(reader, link, events[1..], top + 1)
  {
    if reader.Waiting? {
      var k := |events| - 1;
      assert k > 0 && events[..k][0] == events[0];
      assert events[1..][..k - 1] == events[..k][1..];
    }
  }

  lemma TakeDisconnected(reader: Reader, link: Link, events: seq<Event>, top: nat)
    requires SessionInv(reader, link, events, top) && events != [] && events[0].Disconnected?
    ensures reader.Waiting? && events[1..] == []
  {
  }

  lemma KeepRead(s: Daemon, start: nat)
    requires Inv(s, start) && s.events != [] && s.events[0].Read?
    ensures Inv(OnEvent(s), start)
  {
    var top := Base(s.lane, s.cursor) + |s.buffer|;
    SessionOf(s, start);
    InLogSteps(s.events, s.logLength, Connected);
    TakeRead(s.reader, s.link, s.events, top);
  }

  lemma KeepLink(s: Daemon, start: nat)
    requires Inv(s, start) && s.events != [] && !s.events[0].Read?
    ensures Inv(OnEvent(s), start)
  {
    var top := Base(s.lane, s.cursor) + |s.buffer|;
    SessionOf(s, start);
    InLogSteps(s.events, s.logLength, Connected);
    if s.events[0].Connected? { TakeConnected(s.reader, s.link, s.events, top); }
    else { TakeDisconnected(s.reader, s.link, s.events, top); }
  }

  lemma KeepDrain(s: Daemon, start: nat)
    requires Inv(s, start) && s.armed
    ensures OnDrainTimer(s).Ok? && Inv(OnDrainTimer(s).value, start)
  {
    assert s.lane == [] && s.answers == [];
    assert s.lane + [Apply(s.buffer)] == [Apply(s.buffer)];
  }

  lemma KeepReconnect(s: Daemon, start: nat)
    requires Inv(s, start) && s.link.Offline? && s.buffer == []
    ensures Inv(OnReconnectTimer(s), start)
  {
    var lane := s.lane + [ReadCursor];
    assert lane == (if Pending(lane) then [lane[0]] else []) + [ReadCursor];
  }

  lemma AnswerTaken(answers: seq<Answer>, i: nat, x: Answer)
    requires i < |answers| && (forall j, k :: 0 <= j < k < |answers| ==> answers[j] != answers[k])
    ensures var rest := answers[..i] + answers[i + 1..];
      && (x in rest <==> x in answers && x != answers[i])
      && (forall j, k :: 0 <= j < k < |rest| ==> rest[j] != rest[k])
  {
  }

  lemma FlightAnswer(lane: seq<Job>, answers: seq<Answer>, batchInFlight: bool, cursorInFlight: bool, cursor: nat, i: nat)
    requires FlightInv(lane, answers, batchInFlight, cursorInFlight, cursor) && i < |answers|
    ensures answers[i].Applied? ==> batchInFlight
    ensures answers[i].CursorIs? ==> cursorInFlight && answers[i].cursor == cursor
    ensures !Pending(lane)
    ensures var rest := answers[..i] + answers[i + 1..];
      FlightInv(lane, rest, batchInFlight && !answers[i].Applied?, cursorInFlight && !answers[i].CursorIs?, cursor)
  {
    AnswerTaken(answers, i, Applied);
    AnswerTaken(answers, i, CursorIs(cursor));
    var rest := answers[..i] + answers[i + 1..];
    assert answers[i] in answers && (rest != [] ==> rest[0] in rest);
  }

  lemma KeepAnswer(s: Daemon, i: nat, start: nat)
    requires Inv(s, start) && i < |s.answers|
    ensures OnAnswer(s, i).Ok? && Inv(OnAnswer(s, i).value, start)
  {
    FlightAnswer(s.lane, s.answers, s.batchInFlight, s.cursorInFlight, s.cursor, i);
    assert [] + [s.cursor] == [s.cursor];
  }

  lemma FlightApply(lane: seq<Job>, answers: seq<Answer>, batchInFlight: bool, cursorInFlight: bool, cursor: nat)
    requires FlightInv(lane, answers, batchInFlight, cursorInFlight, cursor) && Pending(lane)
    ensures answers == [] && lane[0].batch != [] && lane[0].batch[0] == cursor && !Pending(lane[1..])
    ensures FlightInv(lane[1..], [Applied], batchInFlight, cursorInFlight, cursor + |lane[0].batch|)
  {
    var rest := lane[1..];
    assert rest == (if Asking(lane) then [ReadCursor] else []);
    assert Asking(rest) <==> Asking(lane);
  }

  lemma CoversMore(batches: seq<seq<nat>>, start: nat, end: nat, batch: seq<nat>)
    requires Covers(batches, start, end) && batch != [] && IsRange(batch, end) && start <= end
    ensures Covers(batches + [batch], start, end + |batch|)
  {
    assert (batches + [batch])[..|batches|] == batches;
  }

  lemma {:induction false} CoversForward(batches: seq<seq<nat>>, start: nat, end: nat)
    requires Covers(batches, start, end)
    ensures start <= end
  {
    if batches != [] { CoversForward(batches[..|batches| - 1], start, end - |batches[|batches| - 1]|); }
  }

  lemma KeepApply(s: Daemon, start: nat)
    requires Inv(s, start) && s.lane != [] && s.lane[0].Apply?
    ensures OnLane(s).Ok? && Inv(OnLane(s).value, start)
  {
    var batch := s.lane[0].batch;
    FlightApply(s.lane, s.answers, s.batchInFlight, s.cursorInFlight, s.cursor);
    CoversForward(s.applied, start, s.cursor);
    CoversMore(s.applied, start, s.cursor, batch);
    var s' := s.(lane := s.lane[1..], cursor := s.cursor + |batch|, applied := s.applied + [batch], answers := [Applied]);
    assert s.answers + [Applied] == [Applied] && OnLane(s) == Ok(s');
  }

  lemma KeepCursor(s: Daemon, start: nat)
    requires Inv(s, start) && s.lane != [] && s.lane[0].ReadCursor?
    ensures OnLane(s).Ok? && Inv(OnLane(s).value, start)
  {
    assert s.lane[1..] == [];
  }

  lemma ReaderSafe(s: Daemon, step: Step, start: nat)
    requires Inv(s, start) && Enabled(s, step)
    requires step.Grow? || step.ReaderConnect? || step.ReaderRead? || step.ReaderFail? || step.ReaderTake?
    ensures Next(s, step).Ok? && Inv(Next(s, step).value, start)
  {
    match step {
      case Grow => KeepGrow(s, start);
      case ReaderConnect => KeepConnect(s, start);
      case ReaderRead => KeepFetch(s, start);
      case ReaderFail => KeepFail(s, start);
      case ReaderTake => KeepTake(s, start);
    }
  }

  lemma KeepGrow(s: Daemon, start: nat)
    requires Inv(s, start)
    ensures Inv(s.(logLength := s.logLength + 1), start)
  {
    InLogSteps(s.events, s.logLength, Connected);
  }

  lemma LaneSafe(s: Daemon, start: nat)
    requires Inv(s, start) && s.lane != []
    ensures OnLane(s).Ok? && Inv(OnLane(s).value, start)
  {
    if s.lane[0].Apply? { KeepApply(s, start); } else { KeepCursor(s, start); }
  }

  lemma EventSafe(s: Daemon, start: nat)
    requires Inv(s, start) && s.events != []
    ensures Inv(OnEvent(s), start)
  {
    if s.events[0].Read? { KeepRead(s, start); } else { KeepLink(s, start); }
  }

  /** Under the timing assumption no step faults: no empty or gappy batch, none out of place. */
  lemma StepSafe(s: Daemon, step: Step, start: nat)
    requires Inv(s, start) && Enabled(s, step) && Timely(s, step)
    ensures Next(s, step).Ok? && Inv(Next(s, step).value, start)
  {
    match step {
      case TakeEvent => EventSafe(s, start);
      case DrainTimer => KeepDrain(s, start);
      case ReconnectTimer => KeepReconnect(s, start);
      case TakeAnswer(i) => KeepAnswer(s, i, start);
      case RunLane => LaneSafe(s, start);
      case _ => ReaderSafe(s, step, start);
    }
  }

  // ---------------------------------------------------------------- runs

  ghost predicate Reaches(s: Daemon, steps: seq<Step>, end: Outcome<Daemon>)
    decreases |steps|
  {
    if steps == [] then end == Ok(s)
    else if !Enabled(s, steps[0]) || !Timely(s, steps[0]) then false
    else match Next(s, steps[0])
      case Fault => end == Fault
      case Ok(s') => Reaches(s', steps[1..], end)
  }

  lemma {:induction false} RunSafe(s: Daemon, steps: seq<Step>, end: Outcome<Daemon>, start: nat)
    requires Inv(s, start) && Reaches(s, steps, end)
    ensures end.Ok? && Inv(end.value, start)
    decreases |steps|
  {
    if steps != [] {
      StepSafe(s, steps[0], start);
      RunSafe(Next(s, steps[0]).value, steps[1..], end, start);
    }
  }

  /**
   * In every run: the timer is armed exactly when something is buffered and no batch is in
   * flight, and the applied batches cover the log from the start to the cursor with no gap
   * and no repeat, across any number of reconnects.
   */
  lemma AppliedWithoutGaps(cursor: nat, logLength: nat, steps: seq<Step>, end: Outcome<Daemon>)
    requires cursor <= logLength && Reaches(Start(cursor, logLength), steps, end)
    ensures end.Ok?
    ensures end.value.armed <==> end.value.buffer != [] && !end.value.batchInFlight
    ensures Covers(end.value.applied, cursor, end.value.cursor)
  {
    StartInv(cursor, logLength);
    RunSafe(Start(cursor, logLength), steps, end, cursor);
  }

  /** What covering means for the records themselves. */
  lemma {:induction false} CoversIsRange(batches: seq<seq<nat>>, start: nat, end: nat)
    requires Covers(batches, start, end)
    ensures IsRange(Flatten(batches), start) && |Flatten(batches)| == end - start
  {
    if batches != [] {
      var k := |batches| - 1;
      CoversIsRange(batches[..k], start, end - |batches[k]|);
    }
  }

  // ---------------------------------------------------------------- why the assumption is needed

  /** Some run of timely steps from `s` faults. */
  ghost predicate CanFault(s: Daemon) { exists steps :: Reaches(s, steps, Fault) }

  lemma FaultLater(s: Daemon, step: Step, s': Daemon)
    requires Enabled(s, step) && !step.ReconnectTimer? && Next(s, step) == Ok(s') && CanFault(s')
    ensures CanFault(s)
  {
    var steps :| Reaches(s', steps, Fault);
    assert ([step] + steps)[1..] == steps;
    assert Reaches(s, [step] + steps, Fault);
  }

  /** The cursor is being read although the records from it on are already buffered. */
  predicate Doomed(s: Daemon) {
    && s.link.Reconnecting? && Idle(s.reader, s.events) && s.toReader == [] && s.cursorInFlight && !s.batchInFlight && s.armed
    && s.lane == [ReadCursor] && s.answers == [] && s.buffer != [] && s.buffer[0] == s.cursor < s.logLength
  }

  /** The reader starts over at a record that is still in the buffer. */
  predicate Rereads(s: Daemon) {
    && s.link.Reconnecting? && s.events == [] && !s.batchInFlight && s.armed
    && s.reader == Connecting(s.cursor) && s.buffer != [] && s.buffer[0] == s.cursor < s.logLength
  }

  lemma RereadFaults(s: Daemon)
    requires Rereads(s)
    ensures CanFault(s)
  {
    var s1 := s.(reader := Running(s.cursor), events := [Connected]);
    assert s.events + [Connected] == [Connected];
    var s2 := s1.(link := Online, events := []);
    assert OnEvent(s1) == s2;
    var s3 := s2.(reader := Running(s.cursor + 1), events := [Read(s.cursor)]);
    assert s2.events + [Read(s.cursor)] == [Read(s.cursor)];
    var s4 := s3.(buffer := s.buffer + [s.cursor], events := []);
    assert OnEvent(s3) == s4;
    assert s4.buffer[|s.buffer|] == s.cursor && OnDrainTimer(s4) == Fault;
    assert Reaches(s4, [DrainTimer], Fault);
    FaultLater(s3, TakeEvent, s4);
    FaultLater(s2, ReaderRead, s3);
    FaultLater(s1, TakeEvent, s2);
    FaultLater(s, ReaderConnect, s1);
  }

  lemma DoomedFaults(s: Daemon)
    requires Doomed(s)
    ensures CanFault(s)
  {
    var s1 := s.(lane := [], answers := [CursorIs(s.cursor)]);
    assert s.lane[1..] == [] && s.answers + [CursorIs(s.cursor)] == [CursorIs(s.cursor)];
    var s2 := s1.(answers := [], cursorInFlight := false, toReader := [s.cursor]);
    assert s1.answers[..0] + s1.answers[1..] == [] && s1.toReader + [s.cursor] == [s.cursor];
    assert OnAnswer(s1, 0) == Ok(s2);
    var s3 := s2.(toReader := [], reader := Connecting(s.cursor));
    assert s2.toReader[1..] == [];
    RereadFaults(s3);
    FaultLater(s2, ReaderTake, s3);
    FaultLater(s1, TakeAnswer(0), s2);
    FaultLater(s, RunLane, s1);
  }

  lemma UntimelyFaults(s: Daemon, start: nat)
    requires Inv(s, start) && s.link.Offline? && s.buffer != []
    ensures CanFault(OnReconnectTimer(s))
  {
    var s0 := OnReconnectTimer(s);
    if !s.batchInFlight {
      assert s.lane == [] && s.lane + [ReadCursor] == [ReadCursor] && s.answers == [];
      DoomedFaults(s0);
    } else if Pending(s.lane) {
      var s1 := OnLane(s0).value;
      assert s0.lane == [s.lane[0], ReadCursor] && s0.lane[1..] == [ReadCursor];
      assert s0.answers + [Applied] == [Applied];
      TakeAppliedFaults(s1);
      FaultLater(s0, RunLane, s1);
    } else {
      assert s.lane == [] && s.lane + [ReadCursor] == [ReadCursor];
      OnlyApplied(s.answers, s.cursor);
      TakeAppliedFaults(s0);
    }
  }

  lemma OnlyApplied(answers: seq<Answer>, cursor: nat)
    requires FlightInv([], answers, true, false, cursor)
    ensures answers == [Applied]
  {
    assert forall i :: 0 <= i < |answers| ==> answers[i] in answers;
    AllAlike(answers, Applied);
  }

  lemma AllAlike(answers: seq<Answer>, x: Answer)
    requires forall i :: 0 <= i < |answers| ==> answers[i] == x
    ensures |answers| > 1 ==> answers[0] == answers[1]
  {
  }

  lemma TakeAppliedFaults(s: Daemon)
    requires s.answers == [Applied] && s.batchInFlight && !s.armed
    requires s.link.Reconnecting? && Idle(s.reader, s.events) && s.toReader == [] && s.cursorInFlight
    requires s.lane == [ReadCursor] && s.buffer != [] && s.buffer[0] == s.cursor < s.logLength
    ensures CanFault(s)
  {
    var s1 := s.(answers := [], batchInFlight := false, armed := true);
    assert s.answers[..0] + s.answers[1..] == [];
    DoomedFaults(s1);
    FaultLater(s, TakeAnswer(0), s1);
  }

  /**
   * Exactly when a reconnect is safe: if a record is still buffered when the cursor is asked
   * for, the reader will deliver it twice and some run fails; if none is, no run does.
   */
  lemma ReconnectSafeExactlyWhenDrained(s: Daemon, start: nat)
    requires Inv(s, start) && s.link.Offline?
    ensures !CanFault(OnReconnectTimer(s)) <==> s.buffer == []
  {
    if s.buffer == [] {
      KeepReconnect(s, start);
      if steps :| Reaches(OnReconnectTimer(s), steps, Fault) {
        RunSafe(OnReconnectTimer(s), steps, Fault, start);
      }
    } else {
      UntimelyFaults(s, start);
    }
  }

  /** What is out of place: a batch that does not begin at the cursor faults; a reconnect while the cursor is being read, or while connected, does nothing. */
  lemma OutOfPlace(s: Daemon)
    ensures s.lane != [] && s.lane[0].Apply? && (s.lane[0].batch == [] || s.lane[0].batch[0] != s.cursor) ==> OnLane(s).Fault?
    ensures s.cursorInFlight ==> OnReconnectTimer(s) == s
    ensures s.toReader != [] && s.reader.Running? ==> Next(s, ReaderTake).value.reader == s.reader
  {
  }
}
