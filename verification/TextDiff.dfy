/** Replaying a diff script on a document (`crdt/text_doc.rs`, `apply_string_diff`). */
module TextDiff {
  import opened Crdt

  datatype Tag = Equal | Removed | Added

  /** One change of the script: a character, as its UTF-8 bytes. */
  datatype Change = Change(tag: Tag, value: Bytes)

  const MIN_SIGNIFICANT_RUN := 3
  const SUBSTANTIAL_RUN_FRACTION: real := 1.0 / 3.0
  const CHAR_DIFF_RETAIN_THRESHOLD: real := 0.5

  /** The text a script starts from. */
  function Before(cs: seq<Change>): Bytes {
    if cs == [] then [] else (if cs[0].tag.Added? then [] else cs[0].value) + Before(cs[1..])
  }

  /** The text a script ends with. */
  function After(cs: seq<Change>): Bytes {
    if cs == [] then []
    else After(cs[..|cs| - 1]) + if cs[|cs| - 1].tag.Removed? then [] else cs[|cs| - 1].value
  }

  // ---------------------------------------------------------------- measuring equal runs

  predicate AllEqual(cs: seq<Change>, i: nat, j: nat)
    requires i <= j <= |cs|
  {
    forall k :: i <= k < j ==> cs[k].tag.Equal?
  }

  /** Bytes of the changes in [i, j). */
  function Weight(cs: seq<Change>, i: nat, j: nat): nat
    requires i <= j <= |cs|
    decreases j - i
  {
    if i == j then 0 else Weight(cs, i, j - 1) + |cs[j - 1].value|
  }

  /** Where the run of equal changes that ends at `j` begins. */
  function RunStart(cs: seq<Change>, j: nat): (i: nat)
    requires j <= |cs|
    ensures i <= j && AllEqual(cs, i, j) && (i > 0 ==> !cs[i - 1].tag.Equal?)
  {
    if j > 0 && cs[j - 1].tag.Equal? then RunStart(cs, j - 1) else j
  }

  function Heavy(n: nat): nat { if n >= MIN_SIGNIFICANT_RUN then n else 0 }

  /** Bytes in the significant maximal runs of [0, j), leaving out the run that ends at `j`. */
  function Significant(cs: seq<Change>, j: nat): nat
    requires j <= |cs|
  {
    if j == 0 then 0
    else if cs[j - 1].tag.Equal? then Significant(cs, j - 1)
    else Significant(cs, j - 1) + Heavy(Weight(cs, RunStart(cs, j - 1), j - 1))
  }

  /** The change lies in a run of equal changes of at least three bytes. */
  ghost predicate Kept(cs: seq<Change>, k: nat)
    requires k < |cs|
  {
    exists i, j :: 0 <= i <= k < j <= |cs| && AllEqual(cs, i, j) && Weight(cs, i, j) >= 3
  }

  /** Bytes of the kept changes in [i, j). */
  ghost function KeptBytes(cs: seq<Change>, i: nat, j: nat): nat
    requires i <= j <= |cs|
    decreases j - i
  {
    if i == j then 0 else KeptBytes(cs, i, j - 1) + if Kept(cs, j - 1) then |cs[j - 1].value| else 0
  }

  lemma {:induction false} WeightSplit(cs: seq<Change>, i: nat, j: nat, k: nat)
    requires i <= j <= k <= |cs|
    ensures Weight(cs, i, k) == Weight(cs, i, j) + Weight(cs, j, k)
    decreases k - j
  {
    if j < k { WeightSplit(cs, i, j, k - 1); }
  }

  /** The changes of a maximal run are kept together, if it is heavy enough. */
  lemma RunKept(cs: seq<Change>, a: nat, b: nat, k: nat)
    requires a <= k < b <= |cs| && AllEqual(cs, a, b)
    requires (a > 0 ==> !cs[a - 1].tag.Equal?) && (b < |cs| ==> !cs[b].tag.Equal?)
    ensures Kept(cs, k) <==> Weight(cs, a, b) >= 3
  {
    if i, j :| 0 <= i <= k < j <= |cs| && AllEqual(cs, i, j) && Weight(cs, i, j) >= 3 {
      assert a <= i && j <= b;
      WeightSplit(cs, a, i, b);
      WeightSplit(cs, i, j, b);
    }
  }

  lemma {:induction false} RunBytes(cs: seq<Change>, a: nat, j: nat, b: nat)
    requires a <= j <= b <= |cs| && AllEqual(cs, a, b)
    requires (a > 0 ==> !cs[a - 1].tag.Equal?) && (b < |cs| ==> !cs[b].tag.Equal?)
    ensures KeptBytes(cs, a, j) == if Weight(cs, a, b) >= 3 then Weight(cs, a, j) else 0
    decreases j - a
  {
    if a < j {
      RunKept(cs, a, b, j - 1);
      RunBytes(cs, a, j - 1, b);
    }
  }

  lemma {:induction false} KeptSplit(cs: seq<Change>, i: nat, j: nat, k: nat)
    requires i <= j <= k <= |cs|
    ensures KeptBytes(cs, i, k) == KeptBytes(cs, i, j) + KeptBytes(cs, j, k)
    decreases k - j
  {
    if j < k { KeptSplit(cs, i, j, k - 1); }
  }

  lemma {:induction false} SignificantKept(cs: seq<Change>, j: nat)
    requires j <= |cs|
    ensures Significant(cs, j) == KeptBytes(cs, 0, RunStart(cs, j))
  {
    if j > 0 {
      SignificantKept(cs, j - 1);
      if !cs[j - 1].tag.Equal? {
        var a := RunStart(cs, j - 1);
        RunBytes(cs, a, j - 1, j - 1);
        KeptSplit(cs, 0, a, j - 1);
        assert !Kept(cs, j - 1);
      }
    }
  }

  /** What the loop counts: the bytes that lie in runs of equal changes of at least three bytes. */
  lemma AllKept(cs: seq<Change>)
    ensures Significant(cs, |cs|) + Heavy(Weight(cs, RunStart(cs, |cs|), |cs|)) == KeptBytes(cs, 0, |cs|)
  {
    var a := RunStart(cs, |cs|);
    SignificantKept(cs, |cs|);
    RunBytes(cs, a, |cs|, |cs|);
    KeptSplit(cs, 0, a, |cs|);
  }

  /** `w` is the weight of the heaviest run of equal changes in [0, n). */
  ghost predicate Heaviest(cs: seq<Change>, n: nat, w: nat)
    requires n <= |cs|
  {
    && (forall i, j :: 0 <= i <= j <= n && AllEqual(cs, i, j) ==> Weight(cs, i, j) <= w)
    && exists i, j :: 0 <= i <= j <= n && AllEqual(cs, i, j) && Weight(cs, i, j) == w
  }

  /** The heaviest run before `n` is one already seen or the one ending at `n`. */
  lemma HeaviestStep(cs: seq<Change>, n: nat, w: nat)
    requires n < |cs| && Heaviest(cs, n, w)
    ensures cs[n].tag.Equal? ==>
      var run := Weight(cs, RunStart(cs, n + 1), n + 1);
      Heaviest(cs, n + 1, if run > w then run else w)
    ensures !cs[n].tag.Equal? ==> Heaviest(cs, n + 1, w)
  {
    var a := RunStart(cs, n + 1);
    forall i, j | 0 <= i <= j <= n + 1 && AllEqual(cs, i, j)
      ensures Weight(cs, i, j) <= w || (cs[n].tag.Equal? && Weight(cs, i, j) <= Weight(cs, a, n + 1))
    {
      if j == n + 1 && i < j {
        assert cs[n].tag.Equal?;
        assert i >= a;
        WeightSplit(cs, a, i, j);
      } else if i == j {
        assert Weight(cs, 0, 0) == 0;
      }
    }
    var i, j :| 0 <= i <= j <= n && AllEqual(cs, i, j) && Weight(cs, i, j) == w;
  }

  /** A change extends the current run or ends it. */
  lemma RunStep(cs: seq<Change>, n: nat)
    requires n < |cs|
    ensures Weight(cs, RunStart(cs, n + 1), n + 1) ==
            if cs[n].tag.Equal? then Weight(cs, RunStart(cs, n), n) + |cs[n].value| else 0
    ensures Significant(cs, n + 1) ==
            Significant(cs, n) + if cs[n].tag.Equal? then 0 else Heavy(Weight(cs, RunStart(cs, n), n))
  {
  }

  method MeasureRuns(cs: seq<Change>) returns (maxRun: nat, significant: nat)
    ensures Heaviest(cs, |cs|, maxRun)
    ensures significant == KeptBytes(cs, 0, |cs|)
  {
    maxRun, significant := 0, 0;
    var currentRun: nat := 0;
    ghost var heaviest: nat := 0;
    assert Weight(cs, 0, 0) == 0;
    for n := 0 to |cs|
      invariant currentRun == Weight(cs, RunStart(cs, n), n)
      invariant Heaviest(cs, n, heaviest) && heaviest == if currentRun > maxRun then currentRun else maxRun
      invariant significant == Significant(cs, n)
    {
      HeaviestStep(cs, n, heaviest);
      RunStep(cs, n);
      if cs[n].tag.Equal? {
        currentRun := currentRun + |cs[n].value|;
        heaviest := if currentRun > heaviest then currentRun else heaviest;
      } else {
        if currentRun > maxRun { maxRun := currentRun; }
        if currentRun >= MIN_SIGNIFICANT_RUN { significant := significant + currentRun; }
        currentRun := 0;
      }
    }
    if currentRun > maxRun { maxRun := currentRun; }
    if currentRun >= MIN_SIGNIFICANT_RUN { significant := significant + currentRun; }
    AllKept(cs);
  }

  // ---------------------------------------------------------------- the document

  /** A Yrs text. Edits out of range are errors. `inserted` and `removed` count bytes. */
  class Text {
    var content: Bytes
    ghost var inserted: nat
    ghost var removed: nat

    constructor (content: Bytes)
      ensures this.content == content && inserted == 0 && removed == 0
    {
      this.content := content;
      inserted, removed := 0, 0;
    }

    method RemoveRange(pos: nat, len: nat)
      requires pos + len <= |content|
      modifies this
      ensures content == old(content)[..pos] + old(content)[pos + len..]
      ensures removed == old(removed) + len && inserted == old(inserted)
    {
      content := content[..pos] + content[pos + len..];
      removed := removed + len;
    }

    method Insert(pos: nat, s: Bytes)
      requires pos <= |content|
      modifies this
      ensures content == old(content)[..pos] + s + old(content)[pos..]
      ensures inserted == old(inserted) + |s| && removed == old(removed)
    {
      content := content[..pos] + s + content[pos..];
      inserted := inserted + |s|;
    }
  }

  lemma BeforeNext(cs: seq<Change>, i: nat)
    requires i < |cs|
    ensures Before(cs[i..]) == (if cs[i].tag.Added? then [] else cs[i].value) + Before(cs[i + 1..])
  {
    assert cs[i..][1..] == cs[i + 1..];
  }

  lemma AfterNext(cs: seq<Change>, i: nat)
    requires i < |cs|
    ensures After(cs[..i + 1]) == After(cs[..i]) + if cs[i].tag.Removed? then [] else cs[i].value
  {
    assert cs[..i + 1][..i] == cs[..i];
  }

  /** Passing an equal change moves it from the old text to the new. */
  lemma SkipEqual(cs: seq<Change>, i: nat)
    requires i < |cs| && cs[i].tag.Equal?
    ensures After(cs[..i + 1]) + Before(cs[i + 1..]) == After(cs[..i]) + Before(cs[i..])
    ensures |After(cs[..i + 1])| == |After(cs[..i])| + |cs[i].value|
  {
    BeforeNext(cs, i);
    AfterNext(cs, i);
  }

  /** Bytes of the changes with this tag in [i, |cs|). */
  function TagWeight(cs: seq<Change>, tag: Tag, i: nat): nat
    requires i <= |cs|
    decreases |cs| - i
  {
    if i == |cs| then 0 else (if cs[i].tag == tag then |cs[i].value| else 0) + TagWeight(cs, tag, i + 1)
  }

  // The inner loops of the replay: each takes the longest run of one tag.

  method TakeEqual(cs: seq<Change>, start: nat) returns (byteCount: nat, i: nat)
    requires start < |cs| && cs[start].tag.Equal?
    ensures start < i <= |cs|
    ensures |After(cs[..i])| == |After(cs[..start])| + byteCount
    ensures After(cs[..i]) + Before(cs[i..]) == After(cs[..start]) + Before(cs[start..])
    ensures TagWeight(cs, Removed, i) == TagWeight(cs, Removed, start) && TagWeight(cs, Added, i) == TagWeight(cs, Added, start)
  {
    byteCount, i := 0, start;
    while i < |cs| && cs[i].tag == Equal
      invariant start <= i <= |cs| && (i == start ==> i < |cs| && cs[i].tag == Equal)
      invariant |After(cs[..i])| == |After(cs[..start])| + byteCount
      invariant After(cs[..i]) + Before(cs[i..]) == After(cs[..start]) + Before(cs[start..])
      invariant TagWeight(cs, Removed, i) == TagWeight(cs, Removed, start) && TagWeight(cs, Added, i) == TagWeight(cs, Added, start)
    {
      SkipEqual(cs, i);
      byteCount := byteCount + |cs[i].value|;
      i := i + 1;
    }
  }

  method TakeRemoved(cs: seq<Change>, start: nat) returns (byteCount: nat, i: nat)
    requires start < |cs| && cs[start].tag.Removed?
    ensures start < i <= |cs| && After(cs[..i]) == After(cs[..start])
    ensures byteCount <= |Before(cs[start..])| && Before(cs[start..])[byteCount..] == Before(cs[i..])
    ensures TagWeight(cs, Removed, start) == byteCount + TagWeight(cs, Removed, i)
    ensures TagWeight(cs, Added, i) == TagWeight(cs, Added, start)
  {
    byteCount, i := 0, start;
    ghost var rest := Before(cs[start..]);
    while i < |cs| && cs[i].tag == Removed
      invariant start <= i <= |cs| && (i == start ==> i < |cs| && cs[i].tag == Removed)
      invariant byteCount <= |rest| && rest[byteCount..] == Before(cs[i..])
      invariant After(cs[..i]) == After(cs[..start])
      invariant TagWeight(cs, Removed, start) == byteCount + TagWeight(cs, Removed, i)
      invariant TagWeight(cs, Added, i) == TagWeight(cs, Added, start)
    {
      BeforeNext(cs, i);
      AfterNext(cs, i);
      byteCount := byteCount + |cs[i].value|;
      i := i + 1;
    }
  }

  method TakeAdded(cs: seq<Change>, start: nat) returns (buf: Bytes, i: nat)
    requires start < |cs| && cs[start].tag.Added?
    ensures start < i <= |cs| && After(cs[..i]) == After(cs[..start]) + buf && Before(cs[i..]) == Before(cs[start..])
    ensures TagWeight(cs, Added, start) == |buf| + TagWeight(cs, Added, i)
    ensures TagWeight(cs, Removed, i) == TagWeight(cs, Removed, start)
  {
    buf, i := [], start;
    while i < |cs| && cs[i].tag == Added
      invariant start <= i <= |cs| && (i == start ==> i < |cs| && cs[i].tag == Added)
      invariant After(cs[..i]) == After(cs[..start]) + buf && Before(cs[i..]) == Before(cs[start..])
      invariant TagWeight(cs, Added, start) == |buf| + TagWeight(cs, Added, i)
      invariant TagWeight(cs, Removed, i) == TagWeight(cs, Removed, start)
    {
      BeforeNext(cs, i);
      AfterNext(cs, i);
      buf := buf + cs[i].value;
      i := i + 1;
    }
  }

  lemma CutAfter(done: Bytes, rest: Bytes, n: nat)
    requires n <= |rest|
    ensures (done + rest)[..|done|] + (done + rest)[|done| + n..] == done + rest[n..]
  {
  }

  lemma PasteAfter(done: Bytes, s: Bytes, rest: Bytes)
    ensures (done + rest)[..|done|] + s + (done + rest)[|done|..] == done + s + rest
  {
    assert (done + rest)[..|done|] == done && (done + rest)[|done|..] == rest;
  }

  /** The document after `i` changes, with the cursor where the new text so far ends. */
  ghost predicate At(cs: seq<Change>, i: nat, content: Bytes, pos: nat) {
    i <= |cs| && pos == |After(cs[..i])| && content == After(cs[..i]) + Before(cs[i..])
  }

  /** One run, one edit. */
  method ReplayRun(text: Text, cs: seq<Change>, pos: nat, i: nat) returns (nextPos: nat, next: nat)
    requires i < |cs| && At(cs, i, text.content, pos)
    modifies text
    ensures i < next && At(cs, next, text.content, nextPos)
    ensures text.removed + TagWeight(cs, Removed, next) == old(text.removed) + TagWeight(cs, Removed, i)
    ensures text.inserted + TagWeight(cs, Added, next) == old(text.inserted) + TagWeight(cs, Added, i)
  {
    nextPos := pos;
    match cs[i].tag {
      case Equal =>
        var byteCount;
        byteCount, next := TakeEqual(cs, i);
        nextPos := pos + byteCount;
      case Removed =>
        var byteCount;
        byteCount, next := TakeRemoved(cs, i);
        CutAfter(After(cs[..i]), Before(cs[i..]), byteCount);
        text.RemoveRange(pos, byteCount);
      case Added =>
        var buf;
        buf, next := TakeAdded(cs, i);
        PasteAfter(After(cs[..i]), buf, Before(cs[i..]));
        text.Insert(pos, buf);
        nextPos := pos + |buf|;
    }
  }

  /** The replay: runs of one tag become one edit, at a cursor that moves along the new text. */
  method Replay(text: Text, cs: seq<Change>)
    requires text.content == Before(cs)
    modifies text
    ensures text.content == After(cs)
    ensures text.removed == old(text.removed) + TagWeight(cs, Removed, 0)
    ensures text.inserted == old(text.inserted) + TagWeight(cs, Added, 0)
  {
    var pos, i := 0, 0;
    assert cs[0..] == cs && After(cs[..0]) + Before(cs) == Before(cs);
    while i < |cs|
      invariant At(cs, i, text.content, pos)
      invariant text.removed + TagWeight(cs, Removed, i) == old(text.removed) + TagWeight(cs, Removed, 0)
      invariant text.inserted + TagWeight(cs, Added, i) == old(text.inserted) + TagWeight(cs, Added, 0)
    {
      pos, i := ReplayRun(text, cs, pos, i);
    }
    assert cs[..|cs|] == cs && After(cs) + Before(cs[|cs|..]) == After(cs);
  }

  // ---------------------------------------------------------------- the whole capture

  /**
   * The script shares too little with the old text: no run of equal bytes covers a third of
   * it, and significant runs cover less than half.
   */
  ghost predicate Incoherent(cs: seq<Change>, oldLen: nat) {
    && oldLen > 0
    && (forall i, j :: 0 <= i <= j <= |cs| && AllEqual(cs, i, j) ==> 3 * Weight(cs, i, j) < oldLen)
    && 2 * KeptBytes(cs, 0, |cs|) < oldLen
  }

  /**
   * Whatever script the differ produces, the document ends as exactly the new text. A
   * coherent script removes and inserts only what it says; an incoherent one replaces
   * everything.
   */
  method ApplyStringDiff(text: Text, oldText: Bytes, newText: Bytes, cs: seq<Change>) returns (blunt: bool)
    requires text.content == oldText && Before(cs) == oldText && After(cs) == newText
    modifies text
    ensures text.content == newText
    ensures blunt <==> Incoherent(cs, |oldText|)
    ensures text.removed == old(text.removed) + if blunt then |oldText| else TagWeight(cs, Removed, 0)
    ensures text.inserted == old(text.inserted) + if blunt then |newText| else TagWeight(cs, Added, 0)
  {
    blunt := false;
    if |oldText| > 0 {
      var maxRun, significant := MeasureRuns(cs);
      var hasSubstantialRun := maxRun as real >= |oldText| as real * SUBSTANTIAL_RUN_FRACTION;
      Substantial(maxRun, |oldText|);
      if !hasSubstantialRun {
        var retained := significant as real / |oldText| as real;
        Retained(significant, |oldText|);
        if retained < CHAR_DIFF_RETAIN_THRESHOLD {
          text.RemoveRange(0, |oldText|);
          if newText != [] { text.Insert(0, newText); }
          return true;
        }
      }
    }
    Replay(text, cs);
  }

  lemma Substantial(run: nat, oldLen: nat)
    ensures run as real >= oldLen as real * SUBSTANTIAL_RUN_FRACTION <==> 3 * run >= oldLen
  {
  }

  lemma Retained(kept: nat, oldLen: nat)
    requires oldLen > 0
    ensures kept as real / oldLen as real < CHAR_DIFF_RETAIN_THRESHOLD <==> 2 * kept < oldLen
  {
    var q := kept as real / oldLen as real;
    assert q * oldLen as real == kept as real;
  }
}
