/** Exactly which records are read, and as what. */
module CodecReading {
  import opened Common
  import opened Codec

  // ---------------------------------------------------------------- numbers

  function Zeros(n: nat): Bytes { seq(n, i => 48) }

  ghost predicate Padded(d: Bytes, n: nat) { exists z: nat :: d == Zeros(z) + Decimal(n) }

  lemma PaddedMore(d: Bytes, m: nat, last: nat)
    requires Padded(d, m) && last < 10
    ensures Padded(d + [48 + last], 10 * m + last)
  {
    var z: nat :| d == Zeros(z) + Decimal(m);
    if m == 0 {
      assert d + [48 + last] == Zeros(z + 1) + Decimal(last);
    } else {
      assert d + [48 + last] == Zeros(z) + Decimal(10 * m + last);
    }
  }

  lemma PaddedLess(d: Bytes, n: nat)
    requires Padded(d, n) && |d| > 1
    ensures d[|d| - 1] == 48 + n % 10 && Padded(d[..|d| - 1], n / 10)
  {
    var z: nat :| d == Zeros(z) + Decimal(n);
    if n < 10 {
      assert d[..|d| - 1] == Zeros(z - 1) + Decimal(0);
    } else {
      assert d[..|d| - 1] == Zeros(z) + Decimal(n / 10);
    }
  }

  lemma {:induction false} DigitsExactly(d: Bytes, n: nat)
    requires d != []
    ensures Digits(d) == Some(n) <==> Padded(d, n)
  {
    var k := |d| - 1;
    var e, last := d[..k], d[k] as int - 48;
    assert d == e + [d[k]];
    if k == 0 {
      SingleDigit(d, n);
    } else {
      if Digits(d) == Some(n) {
        DigitsExactly(e, Digits(e).value);
        PaddedMore(e, Digits(e).value, last);
      }
      if Padded(d, n) {
        PaddedLess(d, n);
        DigitsExactly(e, n / 10);
      }
    }
  }

  lemma LongDecimal(n: nat)
    requires n >= 10
    ensures |Decimal(n)| >= 2
  {
    DecimalDigits(n / 10);
  }

  lemma SingleDigit(d: Bytes, n: nat)
    requires |d| == 1
    ensures Digits(d) == Some(n) <==> Padded(d, n)
  {
    assert d[..0] == [] && Digits(d[..0]) == Some(0);
    if Digits(d) == Some(n) { assert d == Zeros(0) + Decimal(n); }
    if Padded(d, n) { OneLetter(d, n); }
  }

  lemma OneLetter(d: Bytes, n: nat)
    requires |d| == 1 && Padded(d, n)
    ensures n < 10 && d == [48 + n]
  {
    var z: nat :| d == Zeros(z) + Decimal(n);
    if n >= 10 { LongDecimal(n); }
  }

  /** A u64 is read exactly from its decimal form, with leading zeros and a plus sign allowed. */
  lemma ParsesExactly(b: Bytes, n: nat)
    ensures ParseU64(b) == Some(n) <==> n < U64_LIMIT && (Padded(b, n) || (b != [] && b[0] == 43 && Padded(b[1..], n)))
  {
    if b != [] { DigitsExactly(b, n); }
    if |b| > 1 { DigitsExactly(b[1..], n); }
    if Padded(b, n) { PaddedStart(b, n); }
    if b != [] && b[0] == 43 && Padded(b[1..], n) { PaddedStart(b[1..], n); }
  }

  lemma PaddedStart(b: Bytes, n: nat)
    requires Padded(b, n)
    ensures b != [] && 48 <= b[0] <= 57
  {
    DecimalDigits(n);
    var z: nat :| b == Zeros(z) + Decimal(n);
  }

  // ---------------------------------------------------------------- headers

  /** The first header called `name` has this value. */
  ghost predicate First(hs: seq<Header>, name: string, value: Bytes) {
    exists i :: 0 <= i < |hs| && hs[i] == Header(name, value) && forall j :: 0 <= j < i ==> hs[j].name != name
  }

  lemma {:induction false} FirstIs(hs: seq<Header>, name: string, value: Bytes)
    ensures HeaderValue(hs, name) == Some(value) <==> First(hs, name, value)
  {
    if hs != [] {
      FirstIs(hs[1..], name, value);
      if hs[0].name == name {
        assert First(hs, name, hs[0].value);
      } else {
        if i :| 0 <= i < |hs[1..]| && hs[1..][i] == Header(name, value) && forall j :: 0 <= j < i ==> hs[1..][j].name != name {
          assert hs[i + 1] == Header(name, value) && forall j :: 0 <= j < i + 1 ==> hs[j].name != name;
        }
        if i :| 0 <= i < |hs| && hs[i] == Header(name, value) && forall j :: 0 <= j < i ==> hs[j].name != name {
          assert hs[1..][i - 1] == hs[i];
        }
      }
    }
  }

  /** The headers name this origin. */
  ghost predicate FromOrigin(hs: seq<Header>, origin: Origin) {
    && First(hs, "daemon_writer_id", origin.writer)
    && exists b :: First(hs, "outbox_id", b) && ParseU64(b) == Some(origin.outboxId)
  }

  lemma OriginExactly(hs: seq<Header>, origin: Origin)
    ensures DecodeOrigin(hs) == Ok(origin) <==> FromOrigin(hs, origin)
  {
    FirstIs(hs, "daemon_writer_id", origin.writer);
    var id := HeaderValue(hs, "outbox_id");
    if id.Some? { FirstIs(hs, "outbox_id", id.value); }
    if b :| First(hs, "outbox_id", b) && ParseU64(b) == Some(origin.outboxId) { FirstIs(hs, "outbox_id", b); }
  }

  /** The headers say what kind of message it is and, for a text, of which object. */
  ghost predicate OfKind(hs: seq<Header>, msg: SharedMessage) {
    && First(hs, "message_kind", Ascii(if msg.NamespaceUpdate? then "namespace_update" else "text_update"))
    && (msg.TextObjectUpdate? ==> First(hs, "object_id", msg.oid))
  }

  lemma PayloadExactly(hs: seq<Header>, payload: Bytes, msg: SharedMessage)
    ensures DecodePayload(hs, payload) == Ok(msg) <==> OfKind(hs, msg) && msg.yjsUpdate == payload
  {
    KindsDiffer();
    FirstIs(hs, "message_kind", NAMESPACE_KIND);
    FirstIs(hs, "message_kind", TEXT_KIND);
    if msg.TextObjectUpdate? { FirstIs(hs, "object_id", msg.oid); }
  }

  // ---------------------------------------------------------------- bodies

  /** Each stored body opens to the body beside it. */
  predicate Bodies(f: Foreign, stored: seq<LogRecord>, bodies: seq<Bytes>) {
    |bodies| == |stored| && forall i :: 0 <= i < |stored| ==> f.open(stored[i].body) == Some(bodies[i])
  }

  /** Every stored body opens, and `payload` is what they hold, one after the other. */
  ghost predicate Opened(f: Foreign, stored: seq<LogRecord>, payload: Bytes) {
    exists bodies :: Bodies(f, stored, bodies) && payload == Join(bodies)
  }

  lemma {:induction false} OpensInto(f: Foreign, stored: seq<LogRecord>) returns (bodies: seq<Bytes>)
    requires OpenAll(f, stored).Ok?
    ensures Bodies(f, stored, bodies) && OpenAll(f, stored).value == Join(bodies)
  {
    bodies := [];
    if stored != [] {
      var k := |stored| - 1;
      var before := OpensInto(f, stored[..k]);
      var last := f.open(stored[k].body).value;
      bodies := before + [last];
      assert bodies[..k] == before;
      assert forall i :: 0 <= i < k ==> stored[..k][i] == stored[i];
    }
  }

  lemma {:induction false} BodiesOpen(f: Foreign, stored: seq<LogRecord>, bodies: seq<Bytes>)
    requires Bodies(f, stored, bodies)
    ensures OpenAll(f, stored) == Ok(Join(bodies))
  {
    if stored != [] {
      var k := |stored| - 1;
      assert Bodies(f, stored[..k], bodies[..k]);
      BodiesOpen(f, stored[..k], bodies[..k]);
    }
  }

  lemma OpensExactly(f: Foreign, stored: seq<LogRecord>, payload: Bytes)
    ensures OpenAll(f, stored) == Ok(payload) <==> Opened(f, stored, payload)
  {
    if OpenAll(f, stored).Ok? { var bodies := OpensInto(f, stored); }
    if bodies :| Bodies(f, stored, bodies) && payload == Join(bodies) { BodiesOpen(f, stored, bodies); }
  }

  /** The pointer's stream holds the payload: as many bodies, as many bytes and the checksum it says. */
  ghost predicate Holds(f: Foreign, pointer: ObjectPointer, stored: seq<LogRecord>, payload: Bytes) {
    Opened(f, stored, payload) && |stored| == pointer.nRecords && |payload| == pointer.sizeBytes && f.checksum(payload) == pointer.checksum
  }

  lemma ReassembledExactly(f: Foreign, hs: seq<Header>, pointer: ObjectPointer, stored: seq<LogRecord>, msg: SharedMessage)
    ensures Reassemble(f, hs, pointer, stored) == Ok(msg) <==> Holds(f, pointer, stored, msg.yjsUpdate) && OfKind(hs, msg)
  {
    OpensExactly(f, stored, msg.yjsUpdate);
    if OpenAll(f, stored).Ok? { PayloadExactly(hs, OpenAll(f, stored).value, msg); }
  }

  /** Where the payload is: in the stream of the pointer, if the record has one, or else in its own body. */
  ghost predicate Carries(f: Foreign, r: LogRecord, stored: seq<LogRecord>, payload: Bytes) {
    if exists v :: First(r.headers, "pointer", v)
    then exists v, pointer :: First(r.headers, "pointer", v) && f.fromJson(v) == Some(pointer) && Holds(f, pointer, stored, payload)
    else f.open(r.body) == Some(payload)
  }

  /**
   * A record is read, as this message from this origin, if and only if its headers say so and
   * its payload opens, whole and unaltered.
   */
  lemma ReceivedExactly(f: Foreign, r: LogRecord, stored: seq<LogRecord>, got: Received)
    ensures Receive(f, r, stored) == Ok(got) <==>
      FromOrigin(r.headers, got.origin) && OfKind(r.headers, got.msg) && Carries(f, r, stored, got.msg.yjsUpdate)
  {
    OriginExactly(r.headers, got.origin);
    var pointed := HeaderValue(r.headers, "pointer");
    if pointed.Some? {
      FirstIs(r.headers, "pointer", pointed.value);
      PointedExactly(f, r, stored, got.msg, pointed.value);
    } else {
      forall v ensures !First(r.headers, "pointer", v) { FirstIs(r.headers, "pointer", v); }
      if f.open(r.body).Some? { PayloadExactly(r.headers, f.open(r.body).value, got.msg); }
    }
  }

  lemma PointedExactly(f: Foreign, r: LogRecord, stored: seq<LogRecord>, msg: SharedMessage, value: Bytes)
    requires First(r.headers, "pointer", value)
    ensures f.fromJson(value).Some? && Reassemble(f, r.headers, f.fromJson(value).value, stored) == Ok(msg)
            <==> OfKind(r.headers, msg) && Carries(f, r, stored, msg.yjsUpdate)
  {
    FirstIs(r.headers, "pointer", value);
    forall v | First(r.headers, "pointer", v) ensures v == value { FirstIs(r.headers, "pointer", v); }
    if f.fromJson(value).Some? { ReassembledExactly(f, r.headers, f.fromJson(value).value, stored, msg); }
  }

  // ---------------------------------------------------------------- inline or not

  /** What the log service charges for the headers of a message. */
  function HeaderCharge(msg: SharedMessage, origin: Origin): nat {
    12 + 16 + |origin.writer| + 9 + |Decimal(origin.outboxId)| + (if msg.NamespaceUpdate? then 16 else 11 + 9 + |msg.oid|)
  }

  /** A message goes inline exactly if its payload is under the inline limit and the sealed record within the service's. */
  lemma InlineExactly(f: Foreign, msg: SharedMessage, origin: Origin, id: Bytes, created: int)
    ensures PackageOf(f, msg, origin, id, created).Inlined? <==>
      && |msg.yjsUpdate| < 1047552
      && 8 + 2 * (if msg.NamespaceUpdate? then 3 else 4) + HeaderCharge(msg, origin) + |msg.yjsUpdate| + 28 <= 1048576
  {
    var hs := CommonHeaders(msg, origin);
    assert |NAMESPACE_KIND| == 16 && |TEXT_KIND| == 11;
    assert hs[..3][..2] == hs[..2] && hs[..2][..1] == hs[..1] && hs[..1][..0] == [];
    assert HeaderBytes(hs[..1]) == 12 + |KindOf(msg)|;
    assert HeaderBytes(hs[..2]) == 12 + |KindOf(msg)| + 16 + |origin.writer|;
    assert HeaderBytes(hs[..3]) == 12 + |KindOf(msg)| + 16 + |origin.writer| + 9 + |Decimal(origin.outboxId)|;
    assert hs[..3] == if msg.NamespaceUpdate? then hs else hs[..|hs| - 1];
  }

  /** What does not go inline is announced by a record without a body, whose pointer names the stream, its time and what it holds. */
  lemma PointerNames(f: Foreign, msg: SharedMessage, origin: Origin, id: Bytes, created: int)
    requires PackageOf(f, msg, origin, id, created).Pointed?
    ensures var p := PackageOf(f, msg, origin, id, created);
      && p.entry.body == [] && First(p.entry.headers, "pointer", f.toJson(p.pointer))
      && p.pointer == ObjectPointer(id, created, f.checksum(msg.yjsUpdate), |msg.yjsUpdate|, (|msg.yjsUpdate| + 1047551) / 1047552)
      && |p.parts| == p.pointer.nRecords && forall i :: 0 <= i < |p.parts| ==> p.parts[i].headers == []
  {
    ChunksCount(msg.yjsUpdate);
    var p := PackageOf(f, msg, origin, id, created);
    assert p.entry.headers[0] == Header("pointer", f.toJson(p.pointer));
  }
}
