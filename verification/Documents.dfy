/**
 * What a set of messages means: the operations they carry, the ids those operations define
 * and rely on, and the tree a namespace document describes.
 */
module Documents {
  import opened Common
  import opened Crdt
  import opened Namespace
  import opened NamespaceResults
  import opened StableTree

  // ---------------------------------------------------------------- operations of messages

  datatype Op = Ns(ns: NsOp) | Txt(oid: ObjectId, txt: TextOp)

  ghost function NsPart(doc: NsDoc): set<Op> { set x | x in doc :: Ns(x) }

  ghost function TextPart(o: ObjectId, doc: TextDoc): set<Op> { set x | x in doc :: Txt(o, x) }

  ghost function Ops(m: Message): set<Op> {
    match m
    case NamespaceUpdate(doc) => NsPart(doc)
    case TextObjectUpdate(o, doc) => TextPart(o, doc)
  }

  /** Everything carried by a sequence of messages. */
  ghost function Join(ms: seq<Message>): set<Op> {
    if ms == [] then {} else Join(ms[..|ms| - 1]) + Ops(ms[|ms| - 1])
  }

  lemma {:induction false} JoinHas(ms: seq<Message>, op: Op)
    ensures op in Join(ms) <==> exists i :: 0 <= i < |ms| && op in Ops(ms[i])
  {
    if ms != [] {
      var k := |ms| - 1;
      JoinHas(ms[..k], op);
      if op in Join(ms[..k]) {
        var i :| 0 <= i < |ms[..k]| && op in Ops(ms[..k][i]);
        assert op in Ops(ms[i]);
      }
      if i :| 0 <= i < |ms| && op in Ops(ms[i]) {
        assert i < k ==> op in Ops(ms[..k][i]);
      }
    }
  }

  lemma {:induction false} JoinConcat(a: seq<Message>, b: seq<Message>)
    ensures Join(a + b) == Join(a) + Join(b)
  {
    if b == [] {
      assert a + b == a;
    } else {
      var k := |b| - 1;
      assert (a + b)[..|a| + k] == a + b[..k];
      JoinConcat(a, b[..k]);
    }
  }

  // ---------------------------------------------------------------- ids

  datatype Key = NsKey(client: nat, clock: nat) | TextKey(oid: ObjectId, id: StructId) | ObjectKey(oid: ObjectId)

  /** The ids an operation defines. */
  function Provides(op: Op): set<Key> {
    match op
    case Ns(x) => {NsKey(x.client, x.clock)} + (if x.fact.AddObject? then {ObjectKey(x.fact.oid)} else {})
    case Txt(o, x) => if x.Insert? then {TextKey(o, StructId(x.client, x.clock))} else {}
  }

  /** The ids it relies on: its predecessor, and whatever it refers to. */
  function Needs(op: Op): set<Key> {
    match op
    case Ns(x) =>
      (if x.clock > 0 then {NsKey(x.client, x.clock - 1)} else {})
      + (if x.fact.AddClaim? then {ObjectKey(x.fact.owner)} else {})
    case Txt(o, x) =>
      if x.Delete? then {TextKey(o, x.target)}
      else
        (if x.clock > 0 then {TextKey(o, StructId(x.client, x.clock - 1))} else {})
        + (if x.left.Some? then {TextKey(o, x.left.value)} else {})
  }

  ghost predicate Provided(s: set<Op>, k: Key) {
    exists op :: op in s && k in Provides(op)
  }

  /** Every operation of `s` finds what it relies on in `base`. */
  ghost predicate Grounded(s: set<Op>, base: set<Op>) {
    forall op, k :: op in s && k in Needs(op) ==> Provided(base, k)
  }

  ghost predicate Closed(s: set<Op>) { Grounded(s, s) }

  lemma ProvidedMore(a: set<Op>, b: set<Op>, k: Key)
    requires Provided(a, k) && a <= b
    ensures Provided(b, k)
  {
  }

  // ---------------------------------------------------------------- clocks

  function OwnNs(doc: NsDoc, c: nat): NsDoc { set x | x in doc && x.client == c }

  predicate OwnOp(x: TextOp, c: nat) { x.Insert? && x.client == c }

  function OwnText(doc: TextDoc, c: nat): TextDoc { set x | x in doc && OwnOp(x, c) }

  ghost predicate NsUses(doc: NsDoc, c: nat, k: int) {
    exists x :: x in doc && x.client == c && x.clock == k
  }

  ghost predicate TextUses(doc: TextDoc, c: nat, k: int) {
    exists x :: x in doc && OwnOp(x, c) && x.clock == k
  }

  /** The ids of `doc` under client `c` are exactly the clocks in [a, b), each used once. */
  ghost predicate NsSpans(doc: NsDoc, c: nat, a: nat, b: nat) {
    && a <= b
    && (forall x :: x in doc && x.client == c ==> a <= x.clock < b)
    && (forall k :: a <= k < b ==> NsUses(doc, c, k))
    && (forall x, y :: x in doc && y in doc && x.client == c && y.client == c && x.clock == y.clock ==> x == y)
  }

  ghost predicate TextSpans(doc: TextDoc, c: nat, a: nat, b: nat) {
    && a <= b
    && (forall x :: x in doc && OwnOp(x, c) ==> a <= x.clock < b)
    && (forall k :: a <= k < b ==> TextUses(doc, c, k))
    && (forall x, y :: x in doc && y in doc && OwnOp(x, c) && OwnOp(y, c) && x.clock == y.clock ==> x == y)
  }

  /** The next clock Yrs gives client `c`: the number of its ids the document holds. */
  function NsClock(doc: NsDoc, c: nat): nat { |OwnNs(doc, c)| }

  lemma {:induction false} NsClockSpans(doc: NsDoc, c: nat, n: nat)
    requires NsSpans(doc, c, 0, n)
    ensures NsClock(doc, c) == n
  {
    if n == 0 {
      assert OwnNs(doc, c) == {};
    } else {
      assert NsUses(doc, c, n - 1);
      var x :| x in doc && x.client == c && x.clock == n - 1;
      var rest := doc - {x};
      forall k | 0 <= k < n - 1 ensures NsUses(rest, c, k) {
        assert NsUses(doc, c, k);
        var y :| y in doc && y.client == c && y.clock == k;
        assert y in rest;
      }
      NsClockSpans(rest, c, n - 1);
      assert OwnNs(doc, c) == OwnNs(rest, c) + {x};
    }
  }

  lemma NsSpansJoin(d: NsDoc, u: NsDoc, c: nat, a: nat, n: nat, m: nat)
    requires NsSpans(d, c, a, n) && NsSpans(u, c, n, m)
    ensures NsSpans(d + u, c, a, m)
  {
    forall k | a <= k < m ensures NsUses(d + u, c, k) {
      if k < n {
        assert NsUses(d, c, k);
        var x :| x in d && x.client == c && x.clock == k;
        assert x in d + u;
      } else {
        assert NsUses(u, c, k);
        var x :| x in u && x.client == c && x.clock == k;
        assert x in d + u;
      }
    }
  }

  lemma TextSpansJoin(d: TextDoc, u: TextDoc, c: nat, a: nat, n: nat, m: nat)
    requires TextSpans(d, c, a, n) && TextSpans(u, c, n, m)
    ensures TextSpans(d + u, c, a, m)
  {
    forall k | a <= k < m ensures TextUses(d + u, c, k) {
      if k < n {
        assert TextUses(d, c, k);
        var x :| x in d && OwnOp(x, c) && x.clock == k;
        assert x in d + u;
      } else {
        assert TextUses(u, c, k);
        var x :| x in u && OwnOp(x, c) && x.clock == k;
        assert x in d + u;
      }
    }
  }

  /** Spans depend only on the client's own operations. */
  lemma SpansOfOwn(d: TextDoc, e: TextDoc, c: nat, a: nat, b: nat)
    requires OwnText(d, c) == OwnText(e, c) && TextSpans(d, c, a, b)
    ensures TextSpans(e, c, a, b)
  {
    assert forall x :: x in d && OwnOp(x, c) <==> x in OwnText(d, c);
    assert forall x :: x in e && OwnOp(x, c) <==> x in OwnText(e, c);
    forall k | a <= k < b ensures TextUses(e, c, k) {
      assert TextUses(d, c, k);
      var x :| x in d && OwnOp(x, c) && x.clock == k;
      assert x in OwnText(e, c);
    }
  }

  lemma NsSpansOfOwn(d: NsDoc, e: NsDoc, c: nat, a: nat, b: nat)
    requires OwnNs(d, c) == OwnNs(e, c) && NsSpans(d, c, a, b)
    ensures NsSpans(e, c, a, b)
  {
    assert forall x :: x in d && x.client == c <==> x in OwnNs(d, c);
    assert forall x :: x in e && x.client == c <==> x in OwnNs(e, c);
    forall k | a <= k < b ensures NsUses(e, c, k) {
      assert NsUses(d, c, k);
      var x :| x in d && x.client == c && x.clock == k;
      assert x in OwnNs(e, c);
    }
  }

  /** Namespace operations minted for `facts` from clock `n` on. */
  function NsOps(c: nat, n: nat, facts: seq<NsFact>): NsDoc {
    set i | 0 <= i < |facts| :: NsOp(c, n + i, facts[i])
  }

  lemma NsOpsSpan(c: nat, n: nat, facts: seq<NsFact>)
    ensures NsSpans(NsOps(c, n, facts), c, n, n + |facts|)
  {
    forall k | n <= k < n + |facts| ensures NsUses(NsOps(c, n, facts), c, k) {
      assert NsOp(c, n + (k - n), facts[k - n]) in NsOps(c, n, facts);
    }
  }

  // ---------------------------------------------------------------- the tree of a namespace document

  ghost predicate HasObject(doc: NsDoc, o: ObjectId) {
    exists x :: x in doc && x.fact.AddObject? && x.fact.oid == o
  }

  ghost function Creator(doc: NsDoc, o: ObjectId): WriterId
    requires HasObject(doc, o)
  {
    var x :| x in doc && x.fact.AddObject? && x.fact.oid == o;
    x.fact.creator
  }

  ghost predicate IsRemoved(doc: NsDoc, claim: ClaimId) {
    exists y :: y in doc && y.fact.RemoveClaim? && y.fact.removed == claim
  }

  ghost predicate IsActive(doc: NsDoc, x: NsOp) {
    x in doc && x.fact.AddClaim? && !IsRemoved(doc, x.fact.claim)
  }

  /** Every active claim's object has metadata. */
  ghost predicate Complete(doc: NsDoc) {
    forall x :: IsActive(doc, x) ==> HasObject(doc, x.fact.owner)
  }

  ghost predicate AllText(doc: NsDoc) {
    forall x :: x in doc && x.fact.AddObject? ==> x.fact.kind.Text?
  }

  ghost function ClaimsOf(doc: NsDoc): set<Claim>
    requires Complete(doc)
  {
    set x | x in doc && IsActive(doc, x) :: Claim(x.fact.claim, x.fact.owner, x.fact.path, Creator(doc, x.fact.owner))
  }

  /** The stable tree a namespace document calls for; fails on missing metadata, kinds other than text, and exhausted conflict names. */
  ghost function TreeOf(doc: NsDoc): Outcome<Tree> {
    if !Complete(doc) || !AllText(doc) then Fault
    else match Materialized(ClaimsOf(doc))
      case Fault => Fault
      case Ok(xs) => Desired(xs)
  }

  /** Each claim id is added at most once. */
  ghost predicate OneClaimEach(doc: NsDoc) {
    forall x, y :: x in doc && y in doc && x.fact.AddClaim? && y.fact.AddClaim? && x.fact.claim == y.fact.claim ==> x == y
  }

  /** Each object id is added at most once. */
  ghost predicate OneObjectEach(doc: NsDoc) {
    forall x, y :: x in doc && y in doc && x.fact.AddObject? && y.fact.AddObject? && x.fact.oid == y.fact.oid ==> x == y
  }

  /** Object and claim ids are added once each: what materialization reads is well defined. */
  ghost predicate Clean(doc: NsDoc) { OneClaimEach(doc) && OneObjectEach(doc) }

  lemma ClaimsUnique(doc: NsDoc)
    requires Complete(doc) && OneClaimEach(doc)
    ensures UniqueIds(ClaimsOf(doc))
  {
  }

  /** Rows of the tree come from claims of the document; its claims are unique. */
  lemma TreeFacts(doc: NsDoc)
    requires OneClaimEach(doc) && TreeOf(doc).Ok?
    ensures UniqueClaims(TreeOf(doc).value)
    ensures forall p :: p in TreeOf(doc).value ==> HasObject(doc, TreeOf(doc).value[p].oid)
  {
    ClaimsUnique(doc);
    DesiredOfMaterialized(ClaimsOf(doc));
    var t := TreeOf(doc).value;
    forall p | p in t ensures HasObject(doc, t[p].oid) {
      var c :| c in ClaimsOf(doc) && t[p] == TreeRow(c.path, c.id, c.oid);
      assert exists x :: IsActive(doc, x) && x.fact.owner == c.oid;
    }
  }

  /** The tree's rows are the active claims, each once and with its own path and object. */
  lemma TreeRowsAre(doc: NsDoc)
    requires OneClaimEach(doc) && TreeOf(doc).Ok?
    ensures forall x :: IsActive(doc, x) ==> HoldsRow(TreeOf(doc).value, TreeRow(x.fact.path, x.fact.claim, x.fact.owner))
    ensures forall p :: p in TreeOf(doc).value ==> RowActive(doc, TreeOf(doc).value[p])
  {
    ClaimsUnique(doc);
    DesiredOfMaterialized(ClaimsOf(doc));
    var t := TreeOf(doc).value;
    forall x | IsActive(doc, x) ensures HoldsRow(t, TreeRow(x.fact.path, x.fact.claim, x.fact.owner)) {
      EveryClaimHasRow(ClaimsOf(doc), Claim(x.fact.claim, x.fact.owner, x.fact.path, Creator(doc, x.fact.owner)));
    }
    forall p | p in t ensures RowActive(doc, t[p]) {
      var c :| c in ClaimsOf(doc) && t[p] == TreeRow(c.path, c.id, c.oid);
      var x :| IsActive(doc, x) && c == Claim(x.fact.claim, x.fact.owner, x.fact.path, Creator(doc, x.fact.owner));
    }
  }

  /** Nobody but claim `claim` asks for the path. */
  ghost predicate OnlyClaim(doc: NsDoc, p: Path, claim: ClaimId) {
    forall x :: IsActive(doc, x) && x.fact.path == p ==> x.fact.claim == claim
  }

  /** An active claim that nobody contests has its path in the tree. */
  lemma SoleClaimInTree(doc: NsDoc, x: NsOp)
    requires OneClaimEach(doc) && TreeOf(doc).Ok? && IsActive(doc, x) && OnlyClaim(doc, x.fact.path, x.fact.claim)
    ensures x.fact.path in TreeOf(doc).value
    ensures TreeOf(doc).value[x.fact.path] == TreeRow(x.fact.path, x.fact.claim, x.fact.owner)
  {
    ClaimsUnique(doc);
    SoleClaimPlaced(ClaimsOf(doc), Claim(x.fact.claim, x.fact.owner, x.fact.path, Creator(doc, x.fact.owner)));
  }

  /** The row is that of an active claim. */
  ghost predicate RowActive(doc: NsDoc, row: TreeRow) {
    exists x :: IsActive(doc, x) && row == TreeRow(x.fact.path, x.fact.claim, x.fact.owner)
  }

  /** An object of any kind but text leaves the document without a tree. */
  lemma OtherKindsRefused(doc: NsDoc, x: NsOp)
    requires x in doc && x.fact.AddObject? && x.fact.kind != Text
    ensures TreeOf(doc).Fault?
  {
  }

  /** Causal closure of the operations makes every namespace document complete. */
  lemma ClosedIsComplete(s: set<Op>, doc: NsDoc)
    requires Closed(s) && forall x :: x in doc <==> Ns(x) in s
    ensures Complete(doc)
  {
    forall x | IsActive(doc, x) ensures HasObject(doc, x.fact.owner) {
      var k := ObjectKey(x.fact.owner);
      assert Ns(x) in s && k in Needs(Ns(x));
      assert Provided(s, k);
      var op :| op in s && k in Provides(op);
      assert op.Ns? && op.ns in doc;
    }
  }
}
