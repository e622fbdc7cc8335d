/** Coalescing of shared messages before they are applied (`engine/shared_message_buffer.rs`, `types.rs`). */
module MessageBuffer {
  import opened Common

  const MAX_SIZE_BYTES := 1024 * 1024 * 10

  datatype Envelope = Envelope(sequenceNumber: nat, size: nat)

  function TotalSize(es: seq<Envelope>): nat {
    if es == [] then 0 else TotalSize(es[..|es| - 1]) + es[|es| - 1].size
  }

  class SharedMessageBuffer {
    const maxCoalesce: nat
    var sizeBytes: nat
    var earliestTimestamp: Option<nat>
    var envelopes: seq<Envelope>

    ghost predicate Valid()
      reads this
    {
      sizeBytes == TotalSize(envelopes) && (earliestTimestamp.None? <==> envelopes == [])
    }

    constructor (maxCoalesce: nat)
      ensures Valid() && envelopes == [] && this.maxCoalesce == maxCoalesce
    {
      this.maxCoalesce := maxCoalesce;
      sizeBytes, earliestTimestamp, envelopes := 0, None, [];
    }

    /** The window opens with the first envelope; later ones do not move it. */
    method Insert(e: Envelope, now: nat)
      requires Valid()
      modifies this
      ensures Valid() && envelopes == old(envelopes) + [e]
      ensures earliestTimestamp == if old(envelopes) == [] then Some(now) else old(earliestTimestamp)
    {
      if earliestTimestamp.None? { earliestTimestamp := Some(now); }
      sizeBytes := sizeBytes + e.size;
      envelopes := envelopes + [e];
    }

    predicate HasCapacity()
      reads this
    {
      sizeBytes < MAX_SIZE_BYTES
    }

    /** When to drain: at the end of the window, or at once when full; never when empty. */
    method NextFireAt(now: nat) returns (at: Option<nat>)
      requires Valid()
      ensures at.Some? <==> envelopes != []
      ensures at.Some? ==>
        at.value == if TotalSize(envelopes) < MAX_SIZE_BYTES then earliestTimestamp.value + maxCoalesce else now
    {
      if HasCapacity() {
        at := if earliestTimestamp.Some? then Some(earliestTimestamp.value + maxCoalesce) else None;
      } else {
        at := Some(now);
      }
    }

    method Drain() returns (drained: seq<Envelope>)
      requires Valid()
      modifies this
      ensures Valid() && drained == old(envelopes) && envelopes == []
    {
      drained := envelopes;
      sizeBytes, earliestTimestamp, envelopes := 0, None, [];
    }
  }

  // ---------------------------------------------------------------- batches

  datatype Batch = Batch(first: nat, last: nat, messages: seq<Envelope>)

  /** Sequence numbers go up by one from the first. */
  predicate InSequence(es: seq<Envelope>) {
    forall i :: 0 <= i < |es| ==> es[i].sequenceNumber == es[0].sequenceNumber + i
  }

  /** `SharedMessageBatch::try_from` accepts exactly the nonempty contiguous sequences. */
  method TryFrom(es: seq<Envelope>) returns (r: Outcome<Batch>)
    ensures r.Ok? <==> es != [] && InSequence(es)
    ensures r.Ok? ==> r.value == Batch(es[0].sequenceNumber, es[0].sequenceNumber + |es| - 1, es)
  {
    if es == [] { return Fault; }
    var first, last := es[0].sequenceNumber, es[|es| - 1].sequenceNumber;
    if first > last { return Fault; }
    var running := first;
    for i := 1 to |es|
      invariant running == first + (i - 1)
      invariant forall k :: 0 <= k < i ==> es[k].sequenceNumber == first + k
    {
      if es[i].sequenceNumber != running + 1 { return Fault; }
      running := es[i].sequenceNumber;
    }
    r := Ok(Batch(first, last, es));
  }
}
