/** What a conflict name looks like, letter by letter. */
module ConflictNames {
  import opened Common
  import opened Crdt
  import opened Namespace

  // ---------------------------------------------------------------- names

  /** The extension of `name` starts at `k`: at its last dot, a leading dot not counting, or nowhere. */
  predicate ExtensionAt(name: string, k: nat) {
    && k <= |name|
    && (forall i :: k < i < |name| ==> name[i] != '.')
    && (if k < |name| then 0 < k && name[k] == '.' else forall i :: 0 < i < |name| ==> name[i] != '.')
  }

  lemma {:induction false} LastDotIs(name: string)
    ensures match LastDot(name)
      case None => forall i :: 0 <= i < |name| ==> name[i] != '.'
      case Some(k) => k < |name| && name[k] == '.' && forall i :: k < i < |name| ==> name[i] != '.'
  {
    if name != "" && name[|name| - 1] != '.' { LastDotIs(name[..|name| - 1]); }
  }

  /** The suffix stands right before the extension and the rest of the name is kept. */
  lemma NameSplits(name: string, suffix: string, k: nat)
    requires ExtensionAt(name, k)
    ensures ConflictName(name, suffix) == name[..k] + " (conflict " + suffix + ")" + name[k..]
  {
    LastDotIs(name);
    assert k == |name| ==> name[..k] == name && name[k..] == "";
  }

  // ---------------------------------------------------------------- letters of an id

  lemma {:induction false} LowBitsValue(v: nat, n: nat)
    requires v < Pow2(n)
    ensures Value(LowBits(v, n)) == v
  {
    if n > 0 {
      LowBitsValue(v / 2, n - 1);
      assert LowBits(v, n)[..n - 1] == LowBits(v / 2, n - 1);
    }
  }

  /** The first bit weighs most. */
  lemma {:induction false} ValueFront(b: bit, rest: seq<bit>)
    ensures Value([b] + rest) == b as nat * Pow2(|rest|) + Value(rest)
  {
    var all := [b] + rest;
    if rest == [] {
      assert all[..0] == [];
    } else {
      var k := |rest| - 1;
      assert all[..k + 1] == [b] + rest[..k];
      ValueFront(b, rest[..k]);
    }
  }

  lemma LastBit(v: nat, x: bit, w: nat, y: bit)
    requires 2 * v + x as int == 2 * w + y as int
    ensures v == w && x == y
  {
  }

  lemma {:induction false} ValueTells(a: seq<bit>, b: seq<bit>)
    requires |a| == |b| && Value(a) == Value(b)
    ensures a == b
  {
    if a != [] {
      var k := |a| - 1;
      LastBit(Value(a[..k]), a[k], Value(b[..k]), b[k]);
      ValueTells(a[..k], b[..k]);
      assert a == a[..k] + [a[k]] && b == b[..k] + [b[k]];
    }
  }

  /** Byte `i` of an id is the value of the eight bits from `8 * i`. */
  lemma {:induction false} BitsOf(bytes: Bytes, i: nat)
    requires i < |bytes|
    ensures |Bits(bytes)| == 8 * |bytes| && Value(Bits(bytes)[8 * i..8 * i + 8]) == bytes[i]
  {
    var first, rest := LowBits(bytes[0] as nat, 8), Bits(bytes[1..]);
    if |bytes| > 1 { BitsOf(bytes[1..], if i == 0 then 0 else i - 1); }
    if i == 0 {
      assert Pow2(8) == 256;
      LowBitsValue(bytes[0] as nat, 8);
      assert (first + rest)[..8] == first;
    } else {
      assert (first + rest)[8 * i..8 * i + 8] == rest[8 * (i - 1)..8 * (i - 1) + 8];
    }
  }

  /** Bits past the end read as zero. */
  function BitAt(bits: seq<bit>, k: nat): bit { if k < |bits| then bits[k] else 0 }

  function Group(bits: seq<bit>, from: nat): (g: seq<bit>)
    ensures |g| == 5
  {
    [BitAt(bits, from), BitAt(bits, from + 1), BitAt(bits, from + 2), BitAt(bits, from + 3), BitAt(bits, from + 4)]
  }

  lemma GroupIs(bits: seq<bit>, from: nat)
    requires from < |bits|
    ensures Five(bits[from..]) == Group(bits, from)
  {
    var five, g := Five(bits[from..]), Group(bits, from);
    forall k | 0 <= k < 5 ensures five[k] == BitAt(bits, from + k) {}
    assert five[0] == g[0] && five[1] == g[1] && five[2] == g[2] && five[3] == g[3] && five[4] == g[4];
  }

  lemma ThirtyTwo()
    ensures Pow2(5) == 32
  {
  }

  /** Letter `i` is the one whose number the five bits from `5 * i` stand for. */
  lemma LettersAre(bits: seq<bit>, i: nat)
    requires 5 * i < |bits|
    ensures |Letters(bits)| == (|bits| + 4) / 5
    ensures Value(Group(bits, 5 * i)) < 32 && Letters(bits)[i] == CROCKFORD[Value(Group(bits, 5 * i))]
  {
    LettersOf(bits, i);
    GroupIs(bits, 5 * i);
    ThirtyTwo();
  }

  lemma {:induction false} LettersOf(bits: seq<bit>, i: nat)
    requires 5 * i < |bits|
    ensures |Letters(bits)| == (|bits| + 4) / 5 && Letters(bits)[i] == Letter(Five(bits[5 * i..]))
    decreases |bits|
  {
    assert bits[0..] == bits;
    if |bits| > 5 {
      var rest := bits[5..];
      LettersOf(rest, if i == 0 then 0 else i - 1);
      if i > 0 { assert rest[5 * (i - 1)..] == bits[5 * i..]; }
    }
  }

  lemma Alphabet(i: nat, j: nat)
    requires i < 32 && j < 32 && CROCKFORD[i] == CROCKFORD[j]
    ensures i == j
  {
    assert forall k, l :: 0 <= k < l < 32 ==> CROCKFORD[k] != CROCKFORD[l];
  }

  /** The first bits of two equally long rows with one first letter are the same. */
  lemma LetterTells(a: seq<bit>, b: seq<bit>)
    requires |a| == |b| && Letter(Five(a)) == Letter(Five(b))
    ensures if |a| < 5 then a == b else a[..5] == b[..5]
  {
    assert Pow2(5) == 32;
    Alphabet(Value(Five(a)), Value(Five(b)));
    ValueTells(Five(a), Five(b));
    if |a| < 5 { assert a == Five(a)[..|a|] && b == Five(b)[..|b|]; }
  }

  lemma {:induction false} LettersTell(a: seq<bit>, b: seq<bit>)
    requires |a| == |b| && Letters(a) == Letters(b)
    ensures a == b
    decreases |a|
  {
    if a != [] {
      assert Letter(Five(a)) == Letters(a)[0] && Letter(Five(b)) == Letters(b)[0];
      LetterTells(a, b);
      if |a| >= 5 {
        assert Letters(a[5..]) == Letters(a)[1..] && Letters(b[5..]) == Letters(b)[1..];
        LettersTell(a[5..], b[5..]);
        assert a == a[..5] + a[5..] && b == b[..5] + b[5..];
      }
    }
  }

  /** Ids of one length are told apart by their letters. */
  lemma IdsToldApart(a: Bytes, b: Bytes)
    requires |a| == |b| && Base32(a) == Base32(b)
    ensures a == b
  {
    if a != [] {
      BitsOf(a, 0);
      BitsOf(b, 0);
    }
    LettersTell(Bits(a), Bits(b));
    forall i | 0 <= i < |a| ensures a[i] == b[i] {
      BitsOf(a, i);
      BitsOf(b, i);
    }
  }

  // ---------------------------------------------------------------- the suffixes

  function Unless(s: string, before: string): seq<string> { if s == before then [] else [s] }

  /**
   * The suffixes in order of preference: six letters of the creator, six, eight and all of the
   * object, and the object with six letters of the claim; each only if it differs from the one before.
   */
  lemma SuffixesAre(c: Claim)
    ensures var w, o, k := Base32(c.creator), Base32(c.oid), Base32(c.id);
      Suffixes(c) == [Prefix(w, 6)] + Unless(Prefix(o, 6), Prefix(w, 6)) + Unless(Prefix(o, 8), Prefix(o, 6))
                     + Unless(o, Prefix(o, 8)) + [o + "-" + Prefix(k, 6)]
  {
    var o := Base32(c.oid);
    DedupFive(Prefix(Base32(c.creator), 6), Prefix(o, 6), Prefix(o, 8), o, o + "-" + Prefix(Base32(c.id), 6));
  }

  lemma DedupFive(a: string, b: string, c: string, d: string, e: string)
    requires |d| < |e|
    ensures Dedup([a, b, c, d, e]) == [a] + Unless(b, a) + Unless(c, b) + Unless(d, c) + [e]
  {
    DedupFour(b, c, d, e);
    DedupKeeps(a, [b, c, d, e]);
    var rest := Unless(c, b) + Unless(d, c) + [e];
    assert [b] + Unless(c, b) + Unless(d, c) + [e] == [b] + rest;
    assert [a] + Unless(b, a) + Unless(c, b) + Unless(d, c) + [e] == [a] + Unless(b, a) + rest;
  }

  lemma DedupFour(b: string, c: string, d: string, e: string)
    requires |d| < |e|
    ensures Dedup([b, c, d, e]) == [b] + Unless(c, b) + Unless(d, c) + [e]
  {
    DedupThree(c, d, e);
    DedupKeeps(b, [c, d, e]);
  }

  lemma DedupThree(c: string, d: string, e: string)
    requires |d| < |e|
    ensures Dedup([c, d, e]) == [c] + Unless(d, c) + [e]
  {
    DedupKeeps(d, [e]);
    DedupKeeps(c, [d, e]);
  }

  lemma DedupKeeps(a: string, s: seq<string>)
    requires s != []
    ensures Dedup([a] + s) == if s[0] == a then Dedup(s) else [a] + Dedup(s)
  {
    var all := [a] + s;
    assert all[1..] == s;
    if s[0] == a { assert [all[0]] + all[2..] == s; }
  }

  /** A conflict path keeps the directory, and the file name around the suffix. */
  lemma CandidateIs(c: Claim, i: nat, k: nat)
    requires i < |Suffixes(c)| && ExtensionAt(c.path[|c.path| - 1], k)
    ensures |Candidates(c)| == |Suffixes(c)|
    ensures var name := c.path[|c.path| - 1];
      Candidates(c)[i] == c.path[..|c.path| - 1] + [name[..k] + " (conflict " + Suffixes(c)[i] + ")" + name[k..]]
  {
    NameSplits(c.path[|c.path| - 1], Suffixes(c)[i], k);
  }
}
