/** Conflict resolution of `crdt/namespace.rs`: from the set of active claims to disk placements. */
module Namespace {
  import opened Common
  import opened Crdt
  import opened Order

  /** An active claim together with the creator of its object. */
  datatype Claim = Claim(id: ClaimId, oid: ObjectId, path: Path, creator: WriterId)

  datatype Placement = Placement(path: Path, claimed: Path, claim: ClaimId, oid: ObjectId)

  // ---------------------------------------------------------------- orders

  predicate CharLess(a: char, b: char) { a < b }
  predicate ByteLess(a: byte, b: byte) { a < b }
  predicate StringLess(a: string, b: string) { Lex(CharLess, a, b) }
  predicate BytesLess(a: Bytes, b: Bytes) { Lex(ByteLess, a, b) }
  predicate PathLess(a: Path, b: Path) { Lex(StringLess, a, b) }

  /** (creator, object, claim): the order that picks the winner of a path. */
  predicate RankLess(a: Claim, b: Claim) {
    || BytesLess(a.creator, b.creator)
    || (a.creator == b.creator && BytesLess(a.oid, b.oid))
    || (a.creator == b.creator && a.oid == b.oid && BytesLess(a.id, b.id))
  }

  predicate ClaimLess(a: Claim, b: Claim) {
    PathLess(a.path, b.path) || (a.path == b.path && RankLess(a, b))
  }

  predicate PlacementLess(a: Placement, b: Placement) {
    || PathLess(a.path, b.path)
    || (a.path == b.path && PathLess(a.claimed, b.claimed))
    || (a.path == b.path && a.claimed == b.claimed && BytesLess(a.claim, b.claim))
    || (a.path == b.path && a.claimed == b.claimed && a.claim == b.claim && BytesLess(a.oid, b.oid))
  }

  lemma BaseOrders()
    ensures Total(PathLess) && Total(BytesLess)
  {
    LexTotal(CharLess, StringLess);
    LexTotal(ByteLess, BytesLess);
    forall a: Path ensures !PathLess(a, a) { LexIrreflexive(StringLess, a); }
    forall a: Path, b: Path ensures PathLess(a, b) || a == b || PathLess(b, a) { LexConnected(StringLess, a, b); }
    forall a: Path, b: Path, c: Path | PathLess(a, b) && PathLess(b, c) ensures PathLess(a, c) {
      LexTransitive(StringLess, a, b, c);
    }
  }

  lemma RankOrder(a: Claim, b: Claim, c: Claim)
    requires Total(BytesLess)
    ensures !RankLess(a, a)
    ensures RankLess(a, b) || (a.creator == b.creator && a.oid == b.oid && a.id == b.id) || RankLess(b, a)
    ensures RankLess(a, b) && RankLess(b, c) ==> RankLess(a, c)
  {}

  lemma ClaimOrder()
    ensures Total(PathLess) && Total(ClaimLess)
  {
    BaseOrders();
    forall a, b, c
      ensures !ClaimLess(a, a) && (ClaimLess(a, b) || a == b || ClaimLess(b, a))
      ensures ClaimLess(a, b) && ClaimLess(b, c) ==> ClaimLess(a, c)
    {
      RankOrder(a, b, c);
    }
  }

  lemma PlacementOrder()
    ensures Total(PlacementLess)
  {
    BaseOrders();
    forall a: Placement, b: Placement, c: Placement | PlacementLess(a, b) && PlacementLess(b, c)
      ensures PlacementLess(a, c) {}
  }

  // ---------------------------------------------------------------- conflict names

  type bit = b: int | 0 <= b < 2

  const CROCKFORD := "0123456789abcdefghjkmnpqrstvwxyz"

  function Pow2(n: nat): nat { if n == 0 then 1 else 2 * Pow2(n - 1) }

  /** The low `n` bits of a number, highest first. */
  function LowBits(v: nat, n: nat): (r: seq<bit>)
    ensures |r| == n
  {
    if n == 0 then [] else LowBits(v / 2, n - 1) + [v % 2]
  }

  /** The number that bits stand for, highest first. */
  function Value(g: seq<bit>): (v: nat)
    ensures v < Pow2(|g|)
  {
    if g == [] then 0 else 2 * Value(g[..|g| - 1]) + g[|g| - 1] as nat
  }

  function Bits(bytes: Bytes): seq<bit> {
    if bytes == [] then [] else LowBits(bytes[0] as nat, 8) + Bits(bytes[1..])
  }

  function Letter(g: seq<bit>): (r: char)
    requires |g| == 5
    ensures r in CROCKFORD
  {
    assert Pow2(5) == 32;
    CROCKFORD[Value(g)]
  }

  /** The first five bits, padded with zeros. */
  function Five(bits: seq<bit>): (r: seq<bit>)
    ensures |r| == 5
  {
    if |bits| < 5 then (bits + [0, 0, 0, 0, 0])[..5] else bits[..5]
  }

  /** Letters for groups of five bits, the last group padded with zeros. */
  function Letters(bits: seq<bit>): (r: string)
    ensures forall i :: 0 <= i < |r| ==> r[i] in CROCKFORD
    decreases |bits|
  {
    if bits == [] then ""
    else [Letter(Five(bits))] + Letters(if |bits| < 5 then [] else bits[5..])
  }

  function Base32(bytes: Bytes): string { Letters(Bits(bytes)) }

  function Prefix(s: string, n: nat): string { if n < |s| then s[..n] else s }

  function LastDot(name: string): Option<nat> {
    if name == "" then None
    else if name[|name| - 1] == '.' then Some(|name| - 1)
    else LastDot(name[..|name| - 1])
  }

  /** The suffix goes before the extension; a leading dot starts no extension. */
  function ConflictName(name: string, suffix: string): (r: string)
    ensures |r| > 2
    ensures forall x :: x in r ==> x in name || x in suffix || x in " (conflict )"
  {
    var dot := LastDot(name);
    if dot.Some? && 0 < dot.value < |name|
    then name[..dot.value] + " (conflict " + suffix + ")" + name[dot.value..]
    else name + " (conflict " + suffix + ")"
  }

  /** The suffixes tried for a losing claim, consecutive repeats dropped. */
  function Suffixes(c: Claim): seq<string> {
    var o := Base32(c.oid);
    Dedup([Prefix(Base32(c.creator), 6), Prefix(o, 6), Prefix(o, 8), o, o + "-" + Prefix(Base32(c.id), 6)])
  }

  predicate Plain(s: string) { '/' !in s && '\0' !in s }

  function Dedup(s: seq<string>): (r: seq<string>)
    ensures forall x :: x in r ==> x in s
    decreases |s|
  {
    if |s| < 2 then s
    else if s[0] == s[1] then Dedup([s[0]] + s[2..])
    else [s[0]] + Dedup(s[1..])
  }

  lemma PlainSuffixes(c: Claim)
    ensures forall x :: x in Suffixes(c) ==> Plain(x)
  {
    PlainBase32(c.oid);
    PlainBase32(c.creator);
    PlainBase32(c.id);
  }

  lemma PlainBase32(bytes: Bytes)
    ensures Plain(Base32(bytes))
  {
    assert Plain(CROCKFORD);
  }

  /** A conflict name is always a valid file name, so building the path cannot fail. */
  function ConflictPath(p: Path, suffix: string): Path
    requires Plain(suffix)
  {
    var name := ConflictName(p[|p| - 1], suffix);
    assert ValidComponent(p[|p| - 1]) && ValidComponent(name);
    p[..|p| - 1] + [name]
  }

  function Candidates(c: Claim): seq<Path> {
    PlainSuffixes(c);
    var suffixes := Suffixes(c);
    seq(|suffixes|, i requires 0 <= i < |suffixes| => assert suffixes[i] in suffixes; ConflictPath(c.path, suffixes[i]))
  }

  /** A losing claim and the paths it may take instead, in order of preference. */
  datatype Loser = Loser(claim: Claim, candidates: seq<Path>)

  function Contenders(cs: seq<Claim>): seq<Loser> {
    seq(|cs|, i requires 0 <= i < |cs| => Loser(cs[i], Candidates(cs[i])))
  }

  function FirstFree(candidates: seq<Path>, taken: set<Path>): (r: Outcome<Path>)
    ensures r.Ok? ==> r.value in candidates && r.value !in taken
    ensures r.Fault? ==> forall q :: q in candidates ==> q in taken
  {
    if candidates == [] then Fault
    else if candidates[0] in taken then FirstFree(candidates[1..], taken)
    else Ok(candidates[0])
  }

  method NextAvailableConflictPath(candidates: seq<Path>, taken: set<Path>) returns (r: Outcome<Path>)
    ensures r == FirstFree(candidates, taken)
  {
    for k := 0 to |candidates|
      invariant FirstFree(candidates, taken) == FirstFree(candidates[k..], taken)
    {
      if candidates[k] !in taken { return Ok(candidates[k]); }
    }
    return Fault;
  }

  // ---------------------------------------------------------------- placements of a set of claims

  ghost function Paths(s: set<Claim>): set<Path> { set c | c in s :: c.path }

  ghost function At(s: set<Claim>, p: Path): set<Claim> { set c | c in s && c.path == p }

  /** The claims on a path, best first. */
  ghost function Ranked(s: set<Claim>, p: Path): seq<Claim> {
    ClaimOrder();
    Sorted(ClaimLess, At(s, p))
  }

  lemma RankedNonempty(s: set<Claim>, p: Path)
    requires p in Paths(s)
    ensures Ranked(s, p) != [] && Ranked(s, p)[0] in At(s, p)
  {
    var c :| c in s && c.path == p;
    assert c in Elements(Ranked(s, p));
    assert Ranked(s, p)[0] in Elements(Ranked(s, p));
  }

  /** The winners of the paths `ps`, in their order. */
  ghost function Winners(s: set<Claim>, ps: seq<Path>): (r: seq<Claim>)
    requires forall p :: p in ps ==> p in Paths(s)
    ensures |r| == |ps|
  {
    if ps == [] then []
    else
      var p := ps[|ps| - 1];
      RankedNonempty(s, p);
      Winners(s, ps[..|ps| - 1]) + [Ranked(s, p)[0]]
  }

  ghost function Losers(s: set<Claim>, ps: seq<Path>): seq<Claim>
    requires forall p :: p in ps ==> p in Paths(s)
  {
    if ps == [] then []
    else
      var p := ps[|ps| - 1];
      RankedNonempty(s, p);
      Losers(s, ps[..|ps| - 1]) + Ranked(s, p)[1..]
  }

  function Won(c: Claim): Placement { Placement(c.path, c.path, c.id, c.oid) }

  function AllWon(cs: seq<Claim>): seq<Placement> { seq(|cs|, i requires 0 <= i < |cs| => Won(cs[i])) }

  function PlaceLosers(losers: seq<Loser>, taken: set<Path>): Outcome<seq<Placement>> {
    if losers == [] then Ok([])
    else
      match FirstFree(losers[0].candidates, taken)
      case Fault => Fault
      case Ok(q) =>
        match PlaceLosers(losers[1..], taken + {q})
        case Fault => Fault
        case Ok(rest) => Ok([Lost(losers[0].claim, q)] + rest)
  }

  function Lost(c: Claim, q: Path): Placement { Placement(q, c.path, c.id, c.oid) }

  /** Winners take the paths they ask for; then each loser, in rank order, takes the first free conflict path. */
  ghost function Materialized(s: set<Claim>): Outcome<seq<Placement>> {
    ClaimOrder();
    var ps := Sorted(PathLess, Paths(s));
    assert forall p :: p in ps <==> p in Elements(ps);
    match PlaceLosers(Contenders(Losers(s, ps)), Paths(s))
    case Fault => Fault
    case Ok(l) => Ok(Sort(PlacementLess, AllWon(Winners(s, ps)) + l))
  }
}
