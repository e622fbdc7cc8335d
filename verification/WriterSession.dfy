/** One connected session of the log writer: an object updated in place (log/writer.rs, `run_connected`). */
module WriterSession {
  import opened Common
  import opened Delivery

  class Session {
    var inflight: nat
    var nextExpected: Option<nat>
    var pendingAppends: seq<Entry>
    var bigUpload: Option<Entry>

    ghost predicate Valid()
      reads this
    {
      inflight == |pendingAppends|
    }

    /** The session as the delivery protocol sees it, `landed` of its records being in the log. */
    ghost function State(landed: nat): Writer
      reads this
    {
      Up(nextExpected, bigUpload, pendingAppends, landed)
    }

    constructor ()
      ensures Valid() && State(0) == WriterConnected(Fresh()).writer
    {
      inflight, nextExpected, pendingAppends, bigUpload := 0, None, [], None;
    }

    method Submit(entry: Entry)
      requires Valid()
      modifies this
      ensures Valid() && pendingAppends == old(pendingAppends) + [entry]
      ensures nextExpected == old(nextExpected) && bigUpload == old(bigUpload)
    {
      inflight := inflight + 1;
      pendingAppends := pendingAppends + [entry];
    }

    /** A request is taken only while no upload is running; a gap in the ids is the assertion. */
    method TakeAppend(entry: Entry, big: bool, ghost s: Node) returns (ok: bool)
      requires Valid() && bigUpload.None?
      requires s.writer.Up? && s.writer == State(s.writer.landed) && s.toWriter != [] && s.toWriter[0] == Append(entry)
      modifies this
      ensures ok <==> OnWriterRequest(s, big).Ok?
      ensures ok ==> Valid() && State(s.writer.landed) == OnWriterRequest(s, big).value.writer
    {
      if nextExpected.Some? && nextExpected.value != entry.id { return false; }
      nextExpected := Some(entry.id + 1);
      if big { bigUpload := Some(entry); } else { Submit(entry); }
      ok := true;
    }

    method FinishUpload(ghost s: Node)
      requires Valid() && bigUpload.Some? && s.writer.Up? && s.writer == State(s.writer.landed)
      modifies this
      ensures Valid() && State(s.writer.landed) == Uploaded(s).writer
    {
      var finished := bigUpload.value;
      bigUpload := None;
      Submit(finished);
    }

    /** Acknowledgements are polled in submission order. */
    method TakeAck(ghost s: Node) returns (through: nat)
      requires Valid() && s.writer.Up? && s.writer == State(s.writer.landed) && 0 < s.writer.landed <= |pendingAppends|
      modifies this
      ensures Valid() && State(s.writer.landed - 1) == Acknowledged(s).writer
      ensures Acknowledged(s).fromWriter == s.fromWriter + [Durable(through)]
    {
      inflight := inflight - 1;
      through := pendingAppends[0].id;
      pendingAppends := pendingAppends[1..];
    }
  }
}
