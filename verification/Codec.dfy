/**
 * Log records (`log/codec.rs`) and their reassembly (`log/reader.rs`): a message travels
 * inline or as a pointer to parts on a stream of its own, every body encrypted.
 */
module Codec {
  import opened Common
  import Crdt

  type Bytes = Crdt.Bytes

  datatype SharedMessage =
    | NamespaceUpdate(yjsUpdate: Bytes)
    | TextObjectUpdate(oid: Bytes, yjsUpdate: Bytes)

  datatype Origin = Origin(writer: Bytes, outboxId: nat)

  datatype Header = Header(name: string, value: Bytes)

  datatype LogRecord = LogRecord(body: Bytes, headers: seq<Header>)

  datatype ObjectPointer = ObjectPointer(id: Bytes, created: int, checksum: nat, sizeBytes: nat, nRecords: nat)

  datatype Package =
    | Inlined(entry: LogRecord)
    | Pointed(entry: LogRecord, pointer: ObjectPointer, parts: seq<LogRecord>)

  const MAX_INLINE_RECORD_SIZE := 1024 * 1024 - 1024
  const S2_MAX_RECORD_METERED_BYTES := 1024 * 1024
  const CIPHERTEXT_OVERHEAD_LEN := 28
  const U64_LIMIT := 0x1_0000_0000_0000_0000

  /** Foreign code: encryption, the payload checksum and the JSON form of a pointer. */
  datatype Foreign = Foreign(
    seal: Bytes -> Bytes, open: Bytes -> Option<Bytes>,
    checksum: Bytes -> nat,
    toJson: ObjectPointer -> Bytes, fromJson: Bytes -> Option<ObjectPointer>)

  /** Decryption undoes encryption, which adds a fixed overhead; JSON parsing undoes printing. */
  ghost predicate Sound(f: Foreign) {
    && (forall b :: f.open(f.seal(b)) == Some(b) && |f.seal(b)| == |b| + CIPHERTEXT_OVERHEAD_LEN)
    && (forall p :: f.fromJson(f.toJson(p)) == Some(p))
  }

  // ---------------------------------------------------------------- sizes

  function HeaderBytes(hs: seq<Header>): nat {
    if hs == [] then 0 else HeaderBytes(hs[..|hs| - 1]) + |hs[|hs| - 1].name| + |hs[|hs| - 1].value|
  }

  /** The size S2 charges for a record. */
  function MeteredBytes(r: LogRecord): nat { 8 + 2 * |r.headers| + HeaderBytes(r.headers) + |r.body| }

  function EncryptedMeteredBytes(bodyLen: nat, headers: seq<Header>): nat {
    MeteredBytes(LogRecord([], headers)) + bodyLen + CIPHERTEXT_OVERHEAD_LEN
  }

  // ---------------------------------------------------------------- numbers as text

  function Decimal(n: nat): Bytes {
    if n < 10 then [48 + n] else Decimal(n / 10) + [48 + n % 10]
  }

  function Digits(b: Bytes): Option<nat> {
    if b == [] then Some(0)
    else
      var last := b[|b| - 1];
      var before := Digits(b[..|b| - 1]);
      if before.Some? && 48 <= last <= 57 then Some(10 * before.value + (last - 48)) else None
  }

  /** `str::parse::<u64>`: digits, an optional plus sign, no overflow. */
  function ParseU64(b: Bytes): Option<nat> {
    var digits := if b != [] && b[0] == 43 then b[1..] else b;
    if digits == [] then None
    else
      var n := Digits(digits);
      if n.Some? && n.value < U64_LIMIT then n else None
  }

  lemma {:induction false} DecimalDigits(n: nat)
    ensures Decimal(n) != [] && Digits(Decimal(n)) == Some(n)
    ensures forall i :: 0 <= i < |Decimal(n)| ==> 48 <= Decimal(n)[i] <= 57
  {
    if n < 10 {
      assert Digits([48 + n]) == Some(n);
    } else {
      DecimalDigits(n / 10);
      var d := Decimal(n);
      assert d[..|d| - 1] == Decimal(n / 10);
    }
  }

  lemma ParseDecimal(n: nat)
    requires n < U64_LIMIT
    ensures ParseU64(Decimal(n)) == Some(n)
  {
    DecimalDigits(n);
  }

  // ---------------------------------------------------------------- headers

  function Ascii(s: string): Bytes {
    seq(|s|, i requires 0 <= i < |s| => (s[i] as int) % 256)
  }

  /** `header_value`: the first header with the name. */
  function HeaderValue(hs: seq<Header>, name: string): Option<Bytes> {
    if hs == [] then None
    else if hs[0].name == name then Some(hs[0].value)
    else HeaderValue(hs[1..], name)
  }

  const NAMESPACE_KIND := Ascii("namespace_update")
  const TEXT_KIND := Ascii("text_update")

  function KindOf(msg: SharedMessage): Bytes {
    if msg.NamespaceUpdate? then NAMESPACE_KIND else TEXT_KIND
  }

  function CommonHeaders(msg: SharedMessage, origin: Origin): seq<Header> {
    [Header("message_kind", KindOf(msg)),
     Header("daemon_writer_id", origin.writer),
     Header("outbox_id", Decimal(origin.outboxId))]
    + if msg.TextObjectUpdate? then [Header("object_id", msg.oid)] else []
  }

  function DecodeOrigin(hs: seq<Header>): Outcome<Origin> {
    var writer, outboxId := HeaderValue(hs, "daemon_writer_id"), HeaderValue(hs, "outbox_id");
    if writer.None? || outboxId.None? || ParseU64(outboxId.value).None? then Fault
    else Ok(Origin(writer.value, ParseU64(outboxId.value).value))
  }

  function DecodePayload(hs: seq<Header>, payload: Bytes): Outcome<SharedMessage> {
    var kind := HeaderValue(hs, "message_kind");
    if kind.None? then Fault
    else if kind.value == NAMESPACE_KIND then Ok(NamespaceUpdate(payload))
    else if kind.value == TEXT_KIND && HeaderValue(hs, "object_id").Some? then
      Ok(TextObjectUpdate(HeaderValue(hs, "object_id").value, payload))
    else Fault
  }

  lemma NamesDiffer()
    ensures "pointer" != "message_kind" && "pointer" != "daemon_writer_id" && "pointer" != "outbox_id" && "pointer" != "object_id"
    ensures "message_kind" != "daemon_writer_id" && "message_kind" != "outbox_id" && "message_kind" != "object_id"
    ensures "daemon_writer_id" != "outbox_id" && "daemon_writer_id" != "object_id" && "outbox_id" != "object_id"
  {
    assert |"pointer"| == 7 && |"message_kind"| == 12 && |"daemon_writer_id"| == 16 && |"outbox_id"| == 9 && |"object_id"| == 9;
    assert "outbox_id"[1] == 'u' && "object_id"[1] == 'b';
  }

  lemma NextHeader(hs: seq<Header>, rest: seq<Header>, name: string)
    requires hs != [] && hs[1..] == rest
    ensures HeaderValue(hs, name) == if hs[0].name == name then Some(hs[0].value) else HeaderValue(rest, name)
  {
  }

  lemma FindCommon(msg: SharedMessage, origin: Origin, name: string)
    ensures HeaderValue(CommonHeaders(msg, origin), name) ==
      if name == "message_kind" then Some(KindOf(msg))
      else if name == "daemon_writer_id" then Some(origin.writer)
      else if name == "outbox_id" then Some(Decimal(origin.outboxId))
      else if name == "object_id" && msg.TextObjectUpdate? then Some(msg.oid)
      else None
  {
    var hs := CommonHeaders(msg, origin);
    NextHeader(hs, hs[1..], name);
    NextHeader(hs[1..], hs[2..], name);
    NextHeader(hs[2..], hs[3..], name);
    if msg.TextObjectUpdate? { NextHeader(hs[3..], [], name); }
  }

  lemma HeadersDecode(msg: SharedMessage, origin: Origin)
    requires origin.outboxId < U64_LIMIT
    ensures DecodeOrigin(CommonHeaders(msg, origin)) == Ok(origin)
    ensures DecodePayload(CommonHeaders(msg, origin), msg.yjsUpdate) == Ok(msg)
    ensures HeaderValue(CommonHeaders(msg, origin), "pointer") == None
  {
    NamesDiffer();
    KindsDiffer();
    ParseDecimal(origin.outboxId);
    FindCommon(msg, origin, "pointer");
    FindCommon(msg, origin, "message_kind");
    FindCommon(msg, origin, "daemon_writer_id");
    FindCommon(msg, origin, "outbox_id");
    FindCommon(msg, origin, "object_id");
  }

  lemma KindsDiffer()
    ensures NAMESPACE_KIND != TEXT_KIND
  {
    assert |NAMESPACE_KIND| == 16 && |TEXT_KIND| == 11;
  }

  /** A pointer header in front hides none of the others. */
  lemma PointerInFront(hs: seq<Header>, value: Bytes, name: string)
    ensures HeaderValue([Header("pointer", value)] + hs, name) == if name == "pointer" then Some(value) else HeaderValue(hs, name)
  {
    assert ([Header("pointer", value)] + hs)[1..] == hs;
  }

  // ---------------------------------------------------------------- packaging

  /** The payload cut into pieces of the inline limit, the last one possibly shorter. */
  function Chunks(payload: Bytes): seq<Bytes>
    decreases |payload|
  {
    if payload == [] then []
    else
      var n := FirstCut(|payload|);
      [payload[..n]] + Chunks(payload[n..])
  }

  function Join(pieces: seq<Bytes>): Bytes {
    if pieces == [] then [] else Join(pieces[..|pieces| - 1]) + pieces[|pieces| - 1]
  }

  lemma {:induction false} JoinFront(first: Bytes, rest: seq<Bytes>)
    ensures Join([first] + rest) == first + Join(rest)
  {
    if rest == [] {
      assert [first] + rest == [first] && [first][..0] == [];
    } else {
      var k := |rest| - 1;
      assert ([first] + rest)[..k + 1] == [first] + rest[..k];
      JoinFront(first, rest[..k]);
    }
  }

  /** The fewest pieces of the inline limit that hold `n` bytes. */
  function PieceCount(n: nat): nat { (n + MAX_INLINE_RECORD_SIZE - 1) / MAX_INLINE_RECORD_SIZE }

  /** The length of the first chunk. */
  function FirstCut(n: nat): nat { if n < MAX_INLINE_RECORD_SIZE then n else MAX_INLINE_RECORD_SIZE }

  /** The chunks, in order, make up the payload. */
  lemma {:induction false} ChunksJoin(payload: Bytes)
    ensures Join(Chunks(payload)) == payload
    decreases |payload|
  {
    if payload != [] {
      var n := FirstCut(|payload|);
      ChunksJoin(payload[n..]);
      JoinFront(payload[..n], Chunks(payload[n..]));
      assert payload[..n] + payload[n..] == payload;
    }
  }

  /** They are nonempty and within the limit. */
  lemma {:induction false} ChunksFit(payload: Bytes)
    ensures forall i :: 0 <= i < |Chunks(payload)| ==> 0 < |Chunks(payload)[i]| <= MAX_INLINE_RECORD_SIZE
    decreases |payload|
  {
    if payload != [] { ChunksFit(payload[FirstCut(|payload|)..]); }
  }

  /** There are as few of them as possible. */
  lemma {:induction false} ChunksCount(payload: Bytes)
    ensures |Chunks(payload)| == PieceCount(|payload|)
    decreases |payload|
  {
    if payload != [] {
      ChunksCount(payload[FirstCut(|payload|)..]);
    }
  }

  function Bare(pieces: seq<Bytes>): seq<LogRecord> {
    seq(|pieces|, i requires 0 <= i < |pieces| => LogRecord(pieces[i], []))
  }

  predicate FitsInline(msg: SharedMessage, origin: Origin) {
    && |msg.yjsUpdate| < MAX_INLINE_RECORD_SIZE
    && EncryptedMeteredBytes(|msg.yjsUpdate|, CommonHeaders(msg, origin)) <= S2_MAX_RECORD_METERED_BYTES
  }

  /** `id` and `created` are the generated pointer id and the clock. */
  function PackageOf(f: Foreign, msg: SharedMessage, origin: Origin, id: Bytes, created: int): Package {
    var headers := CommonHeaders(msg, origin);
    if FitsInline(msg, origin) then Inlined(LogRecord(msg.yjsUpdate, headers))
    else
      var parts := Bare(Chunks(msg.yjsUpdate));
      var pointer := ObjectPointer(id, created, f.checksum(msg.yjsUpdate), |msg.yjsUpdate|, |parts|);
      Pointed(LogRecord([], [Header("pointer", f.toJson(pointer))] + headers), pointer, parts)
  }

  lemma NextChunk(payload: Bytes, start: nat, end: nat)
    requires start < |payload| && end == start + FirstCut(|payload| - start)
    ensures Chunks(payload[start..]) == [payload[start..end]] + Chunks(payload[end..])
  {
    var rest := payload[start..];
    assert rest[..end - start] == payload[start..end] && rest[end - start..] == payload[end..];
  }

  /** What the log service's record type accepts; creating a larger record is an error. */
  predicate Accepted(r: LogRecord) { MeteredBytes(r) <= S2_MAX_RECORD_METERED_BYTES }

  predicate AllAccepted(p: Package) {
    match p
    case Inlined(r) => Accepted(r)
    case Pointed(r, _, parts) => Accepted(r) && forall i :: 0 <= i < |parts| ==> Accepted(parts[i])
  }

  lemma {:induction false} HeaderBytesFront(h: Header, hs: seq<Header>)
    ensures HeaderBytes([h] + hs) == |h.name| + |h.value| + HeaderBytes(hs)
  {
    if hs == [] {
      assert [h] + hs == [h] && [h][..0] == [];
    } else {
      var k := |hs| - 1;
      assert ([h] + hs)[..k + 1] == [h] + hs[..k];
      HeaderBytesFront(h, hs[..k]);
    }
  }

  lemma PartAccepted(body: Bytes)
    requires |body| <= MAX_INLINE_RECORD_SIZE
    ensures Accepted(LogRecord(body, []))
  {
  }

  /** The package fails to be built exactly if the message does not fit inline and its headers with the pointer do not fit either. */
  lemma PackageFails(f: Foreign, msg: SharedMessage, origin: Origin, id: Bytes, created: int)
    ensures var p := PackageOf(f, msg, origin, id, created); AllAccepted(p) <==> p.Inlined? || Accepted(p.entry)
    ensures PackageOf(f, msg, origin, id, created).Inlined? <==> FitsInline(msg, origin)
    ensures !Accepted(LogRecord([], CommonHeaders(msg, origin))) ==> !AllAccepted(PackageOf(f, msg, origin, id, created))
  {
    var p := PackageOf(f, msg, origin, id, created);
    ChunksFit(msg.yjsUpdate);
    if p.Pointed? { HeaderBytesFront(Header("pointer", f.toJson(p.pointer)), CommonHeaders(msg, origin)); }
  }

  /** The chunk loop. Every part is a record the log service accepts. */
  method CutParts(payload: Bytes) returns (parts: seq<LogRecord>)
    ensures parts == Bare(Chunks(payload))
  {
    var start: nat := 0;
    parts := [];
    ghost var cut: seq<Bytes> := [];
    while start < |payload|
      invariant start <= |payload| && parts == Bare(cut) && Chunks(payload) == cut + Chunks(payload[start..])
    {
      var end := if start + MAX_INLINE_RECORD_SIZE < |payload| then start + MAX_INLINE_RECORD_SIZE else |payload|;
      NextChunk(payload, start, end);
      PartAccepted(payload[start..end]);
      parts := parts + [LogRecord(payload[start..end], [])];
      cut := cut + [payload[start..end]];
      start := end;
    }
    assert payload[start..] == [] && Chunks(payload) == cut;
  }

  method SharedToS2Package(f: Foreign, msg: SharedMessage, origin: Origin, id: Bytes, created: int) returns (r: Outcome<Package>)
    ensures r == if AllAccepted(PackageOf(f, msg, origin, id, created)) then Ok(PackageOf(f, msg, origin, id, created)) else Fault
  {
    var payload := msg.yjsUpdate;
    var pointerHeaders := CommonHeaders(msg, origin);
    PackageFails(f, msg, origin, id, created);
    if |payload| < MAX_INLINE_RECORD_SIZE {
      if !Accepted(LogRecord([], pointerHeaders)) { return Fault; }
      if EncryptedMeteredBytes(|payload|, pointerHeaders) <= S2_MAX_RECORD_METERED_BYTES {
        return Ok(Inlined(LogRecord(payload, pointerHeaders)));
      }
    }
    var parts := CutParts(payload);
    var pointer := ObjectPointer(id, created, f.checksum(payload), |payload|, |parts|);
    var pointerRecord := LogRecord([], [Header("pointer", f.toJson(pointer))] + pointerHeaders);
    if !Accepted(pointerRecord) { return Fault; }
    r := Ok(Pointed(pointerRecord, pointer, parts));
  }

  // ---------------------------------------------------------------- over the wire and back

  /** The writer encrypts bodies and leaves headers readable; a pointer record has no body and is sent as it is. */
  function Sealed(f: Foreign, r: LogRecord): LogRecord { r.(body := f.seal(r.body)) }

  function SealedAll(f: Foreign, rs: seq<LogRecord>): seq<LogRecord> {
    seq(|rs|, i requires 0 <= i < |rs| => Sealed(f, rs[i]))
  }

  /** Every encrypted body record, inline or part, is within the S2 limit. */
  lemma BodiesFit(f: Foreign, msg: SharedMessage, origin: Origin, id: Bytes, created: int)
    requires Sound(f)
    ensures match PackageOf(f, msg, origin, id, created)
      case Inlined(r) => MeteredBytes(Sealed(f, r)) <= S2_MAX_RECORD_METERED_BYTES
      case Pointed(_, pointer, parts) =>
        && (forall i :: 0 <= i < |parts| ==>
              0 < |parts[i].body| <= MAX_INLINE_RECORD_SIZE && MeteredBytes(Sealed(f, parts[i])) <= S2_MAX_RECORD_METERED_BYTES)
        && |parts| == pointer.nRecords == PieceCount(|msg.yjsUpdate|)
  {
    ChunksFit(msg.yjsUpdate);
    ChunksCount(msg.yjsUpdate);
  }

  /** The bodies of sealed records, opened and concatenated; fails on the first that does not open. */
  function OpenAll(f: Foreign, rs: seq<LogRecord>): Outcome<Bytes> {
    if rs == [] then Ok([])
    else match OpenAll(f, rs[..|rs| - 1])
      case Fault => Fault
      case Ok(buf) =>
        match f.open(rs[|rs| - 1].body)
        case None => Fault
        case Some(body) => Ok(buf + body)
  }

  /** `read_full_multipart`: count, size and checksum must all match the pointer. */
  function Reassemble(f: Foreign, headers: seq<Header>, pointer: ObjectPointer, stored: seq<LogRecord>): Outcome<SharedMessage> {
    match OpenAll(f, stored)
    case Fault => Fault
    case Ok(buf) =>
      if |stored| != pointer.nRecords || |buf| != pointer.sizeBytes || f.checksum(buf) != pointer.checksum then Fault
      else DecodePayload(headers, buf)
  }

  function Concat(batches: seq<seq<LogRecord>>): seq<LogRecord> {
    if batches == [] then [] else Concat(batches[..|batches| - 1]) + batches[|batches| - 1]
  }

  lemma {:induction false} OpenFailsOn(f: Foreign, a: seq<LogRecord>, b: seq<LogRecord>)
    requires OpenAll(f, a).Fault?
    ensures OpenAll(f, a + b).Fault?
  {
    if b == [] { assert a + b == a; } else {
      assert (a + b)[..|a| + |b| - 1] == a + b[..|b| - 1];
      OpenFailsOn(f, a, b[..|b| - 1]);
    }
  }

  lemma {:induction false} ConcatPrefix(batches: seq<seq<LogRecord>>, i: nat) returns (rest: seq<LogRecord>)
    requires i <= |batches|
    ensures Concat(batches) == Concat(batches[..i]) + rest
    decreases |batches| - i
  {
    if i == |batches| {
      assert batches[..i] == batches;
      rest := [];
    } else {
      var more := ConcatPrefix(batches, i + 1);
      assert batches[..i + 1][..i] == batches[..i];
      rest := batches[i] + more;
      assert Concat(batches[..i]) + batches[i] + more == Concat(batches[..i]) + rest;
    }
  }

  /** The stream comes in batches; reading stops at the first body that does not open. */
  method ReadFullMultipart(f: Foreign, headers: seq<Header>, pointer: ObjectPointer, batches: seq<seq<LogRecord>>)
    returns (r: Outcome<SharedMessage>)
    ensures r == Reassemble(f, headers, pointer, Concat(batches))
  {
    var buf: Bytes := [];
    var recordCount := 0;
    for i := 0 to |batches|
      invariant OpenAll(f, Concat(batches[..i])) == Ok(buf) && recordCount == |Concat(batches[..i])|
    {
      ghost var before := Concat(batches[..i]);
      assert batches[..i + 1][..i] == batches[..i];
      assert before + batches[i][..0] == before;
      for j := 0 to |batches[i]|
        invariant OpenAll(f, before + batches[i][..j]) == Ok(buf) && recordCount == |before| + j
      {
        recordCount := recordCount + 1;
        assert (before + batches[i][..j + 1])[..|before| + j] == before + batches[i][..j];
        var body := f.open(batches[i][j].body);
        if body.None? {
          var rest := ConcatPrefix(batches, i + 1);
          assert before + batches[i] == (before + batches[i][..j + 1]) + batches[i][j + 1..];
          OpenFailsOn(f, before + batches[i][..j + 1], batches[i][j + 1..]);
          OpenFailsOn(f, Concat(batches[..i + 1]), rest);
          return Fault;
        }
        buf := buf + body.value;
      }
      assert before + batches[i][..|batches[i]|] == Concat(batches[..i + 1]);
    }
    assert batches[..|batches|] == batches;
    if recordCount != pointer.nRecords || |buf| != pointer.sizeBytes || f.checksum(buf) != pointer.checksum {
      return Fault;
    }
    r := DecodePayload(headers, buf);
  }

  datatype Received = Received(msg: SharedMessage, origin: Origin)

  /** What the log reader makes of one record; `stored` is what the pointer's stream holds. */
  function Receive(f: Foreign, r: LogRecord, stored: seq<LogRecord>): Outcome<Received> {
    match DecodeOrigin(r.headers)
    case Fault => Fault
    case Ok(origin) =>
      var pointed := HeaderValue(r.headers, "pointer");
      var msg :=
        if pointed.Some? then
          match f.fromJson(pointed.value)
          case None => Fault
          case Some(pointer) => Reassemble(f, r.headers, pointer, stored)
        else
          match f.open(r.body)
          case None => Fault
          case Some(body) => DecodePayload(r.headers, body);
      if msg.Fault? then Fault else Ok(Received(msg.value, origin))
  }

  lemma {:induction false} OpenSealed(f: Foreign, pieces: seq<Bytes>)
    requires Sound(f)
    ensures OpenAll(f, SealedAll(f, Bare(pieces))) == Ok(Join(pieces))
  {
    if pieces != [] {
      var k := |pieces| - 1;
      OpenSealed(f, pieces[..k]);
      assert SealedAll(f, Bare(pieces))[..k] == SealedAll(f, Bare(pieces[..k]));
    }
  }

  lemma PointedHeaders(msg: SharedMessage, origin: Origin, json: Bytes)
    requires origin.outboxId < U64_LIMIT
    ensures var hs := [Header("pointer", json)] + CommonHeaders(msg, origin);
      && HeaderValue(hs, "pointer") == Some(json)
      && DecodeOrigin(hs) == Ok(origin) && DecodePayload(hs, msg.yjsUpdate) == Ok(msg)
  {
    var common := CommonHeaders(msg, origin);
    NamesDiffer();
    HeadersDecode(msg, origin);
    PointerInFront(common, json, "pointer");
    PointerInFront(common, json, "message_kind");
    PointerInFront(common, json, "daemon_writer_id");
    PointerInFront(common, json, "outbox_id");
    PointerInFront(common, json, "object_id");
  }

  /** Whatever its size, a message that is packaged and read back is the message and origin that were sent. */
  lemma RoundTrip(f: Foreign, msg: SharedMessage, origin: Origin, id: Bytes, created: int)
    requires Sound(f) && origin.outboxId < U64_LIMIT
    ensures match PackageOf(f, msg, origin, id, created)
      case Inlined(r) => Receive(f, Sealed(f, r), []) == Ok(Received(msg, origin))
      case Pointed(r, _, parts) => Receive(f, r, SealedAll(f, parts)) == Ok(Received(msg, origin))
  {
    HeadersDecode(msg, origin);
    match PackageOf(f, msg, origin, id, created) {
      case Inlined(_) =>
      case Pointed(_, pointer, parts) =>
        PointedHeaders(msg, origin, f.toJson(pointer));
        ChunksJoin(msg.yjsUpdate);
        OpenSealed(f, Chunks(msg.yjsUpdate));
    }
  }
}
