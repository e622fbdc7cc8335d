/**
 * What every transaction keeps: prior below stable, own ids counted and never reused,
 * staged rows and the active plan taken from documents that stable still contains.
 */
module ReplicaSafety {
  import opened Common
  import opened Crdt
  import opened StableTree
  import opened Documents
  import opened Delivery
  import opened Replica

  // ---------------------------------------------------------------- stable as a set of operations

  ghost function TextsPart(texts: Texts): set<Op> {
    set o, x | o in texts && x in texts[o] :: Txt(o, x)
  }

  ghost function StableOps(t: Tables): set<Op> { NsPart(t.stableNs) + TextsPart(t.stableText) }

  lemma StableHas(t: Tables)
    ensures forall x :: x in t.stableNs <==> Ns(x) in StableOps(t)
    ensures forall o, x :: x in Doc(t.stableText, o) <==> Txt(o, x) in StableOps(t)
  {
  }

  /** Stable after adding `u` to one text document. */
  lemma TextsGrow(texts: Texts, o: ObjectId, u: TextDoc)
    ensures TextsPart(ApplyText(texts, o, u)) == TextsPart(texts) + TextPart(o, u)
  {
    forall q, x ensures Txt(q, x) in TextsPart(ApplyText(texts, o, u)) <==> Txt(q, x) in TextsPart(texts) + TextPart(o, u) {
      assert Txt(q, x) in TextPart(o, u) <==> q == o && x in u;
    }
  }

  lemma NsGrows(a: NsDoc, u: NsDoc)
    ensures NsPart(a + u) == NsPart(a) + NsPart(u)
  {
  }

  // ---------------------------------------------------------------- the invariant

  /** `p` is below `s`, and `s` has no operation of client `c` that `p` lacks. */
  ghost predicate Under(p: TextDoc, s: TextDoc, c: nat) {
    p <= s && OwnText(p, c) == OwnText(s, c)
  }

  ghost predicate NsUnder(p: NsDoc, s: NsDoc, c: nat) {
    p <= s && OwnNs(p, c) == OwnNs(s, c)
  }

  ghost predicate TextsUnder(prior: Texts, stable: Texts, c: nat) {
    forall o :: Under(Doc(prior, o), Doc(stable, o), c)
  }

  ghost predicate Counted(doc: TextDoc, c: nat) { exists n: nat :: TextSpans(doc, c, 0, n) }

  ghost predicate NsCounted(doc: NsDoc, c: nat) { exists n: nat :: NsSpans(doc, c, 0, n) }

  /** Own clocks of every stable document are 0..n-1, each used once. */
  ghost predicate TextsCounted(stable: Texts, c: nat) {
    forall o :: Counted(Doc(stable, o), c)
  }

  /** `u` holds what client `c` may mint on top of `base`: the next clocks, and references into `base` or itself. */
  ghost predicate EditOf(base: TextDoc, u: TextDoc, c: nat) {
    && (exists n: nat, m: nat :: TextSpans(base, c, 0, n) && TextSpans(u, c, n, m))
    && (forall x :: x in u && x.Insert? ==> x.client == c)
    && (forall x :: x in u && x.Insert? && x.left.Some? ==> HasStruct(base + u, x.left.value))
    && (forall x :: x in u && x.Delete? ==> HasStruct(base + u, x.target))
  }

  ghost predicate HasStruct(doc: TextDoc, id: StructId) {
    exists x :: x in doc && x.Insert? && x.client == id.client && x.clock == id.clock
  }

  /** A staged row is an edit of a document below stable. */
  ghost predicate StagedOk(row: Staged, stable: TextDoc, c: nat) {
    var u := if row.update.Some? then row.update.value else {};
    && u <= row.priorDoc <= stable + u
    && OwnText(stable, c) <= row.priorDoc
    && (row.update.Some? ==> EditOf(stable, u, c))
  }

  ghost predicate StagedTexts(staged: seq<Staged>, stable: Texts, c: nat) {
    forall i :: 0 <= i < |staged| ==> StagedOk(staged[i], Doc(stable, staged[i].oid), c)
  }

  /** At most one staged row per object, path and claim. */
  predicate StagedShape(staged: seq<Staged>) {
    forall i, j :: 0 <= i < j < |staged| ==>
      staged[i].oid != staged[j].oid && staged[i].path != staged[j].path && staged[i].claim != staged[j].claim
  }

  ghost predicate PlanTexts(plan: Plan, stable: Texts, c: nat) {
    forall p :: p in plan && plan[p].WriteFile? ==> Under(plan[p].doc, Doc(stable, plan[p].row.oid), c)
  }

  /** What the semantic actor is in the middle of. */
  datatype Mode = Idle | Importing | Projecting(target: NsDoc, plan: Plan)

  function PlanIn(mode: Mode): Plan { if mode.Projecting? then mode.plan else map[] }

  ghost predicate TextSide(stable: Texts, prior: Texts, staged: seq<Staged>, plan: Plan, c: nat) {
    && TextsUnder(prior, stable, c) && TextsCounted(stable, c)
    && StagedTexts(staged, stable, c) && PlanTexts(plan, stable, c)
  }

  ghost predicate NsSide(stable: NsDoc, prior: NsDoc, mode: Mode, c: nat) {
    && NsUnder(prior, stable, c) && NsCounted(stable, c)
    && (mode.Projecting? ==> NsUnder(mode.target, stable, c))
  }

  /** Every object that prior, the stable tree, a staged row or the plan mentions is in the stable namespace. */
  ghost predicate Known(ns: NsDoc, tree: Tree, prior: map<Path, PriorRow>, staged: seq<Staged>, plan: Plan) {
    && (forall p :: p in tree ==> HasObject(ns, tree[p].oid))
    && (forall p :: p in prior ==> HasObject(ns, prior[p].oid))
    && (forall i :: 0 <= i < |staged| && !staged[i].kind.New? ==> HasObject(ns, staged[i].oid))
    && (forall p :: p in plan && plan[p].WriteFile? ==> HasObject(ns, plan[p].row.oid))
  }

  ghost predicate ReplicaInv(t: Tables, mode: Mode, c: nat) {
    && TextSide(t.stableText, t.priorText, t.staged, PlanIn(mode), c)
    && NsSide(t.stableNs, t.priorNs, mode, c)
    && Known(t.stableNs, t.stableTree, t.priorTree, t.staged, PlanIn(mode))
    && StagedShape(t.staged) && (t.staged != [] ==> mode.Importing?)
    && TreeOf(t.stableNs) == Ok(t.stableTree)
  }

  // ---------------------------------------------------------------- monotonicity

  lemma ObjectsStay(a: NsDoc, b: NsDoc, o: ObjectId)
    requires a <= b && HasObject(a, o)
    ensures HasObject(b, o)
  {
  }

  /** Adding operations of other clients keeps a document under stable. */
  lemma UnderGrows(p: TextDoc, s: TextDoc, u: TextDoc, c: nat)
    requires Under(p, s, c) && OwnText(u, c) == {}
    ensures Under(p, s + u, c)
  {
    assert OwnText(s + u, c) == OwnText(s, c) + OwnText(u, c);
  }

  lemma NsUnderGrows(p: NsDoc, s: NsDoc, u: NsDoc, c: nat)
    requires NsUnder(p, s, c) && OwnNs(u, c) == {}
    ensures NsUnder(p, s + u, c)
  {
    assert OwnNs(s + u, c) == OwnNs(s, c) + OwnNs(u, c);
  }

  /** Adding the same operations to both sides does too. */
  lemma NsUnderBoth(p: NsDoc, s: NsDoc, u: NsDoc, c: nat)
    requires NsUnder(p, s, c)
    ensures NsUnder(p + u, s + u, c)
  {
    assert OwnNs(s + u, c) == OwnNs(s, c) + OwnNs(u, c);
    assert OwnNs(p + u, c) == OwnNs(p, c) + OwnNs(u, c);
  }

  lemma CountedGrows(s: TextDoc, u: TextDoc, c: nat)
    requires Counted(s, c) && OwnText(u, c) == {}
    ensures Counted(s + u, c)
  {
    var n: nat :| TextSpans(s, c, 0, n);
    assert OwnText(s + u, c) == OwnText(s, c) + OwnText(u, c);
    SpansOfOwn(s, s + u, c, 0, n);
  }

  lemma NsCountedGrows(s: NsDoc, u: NsDoc, c: nat)
    requires NsCounted(s, c) && OwnNs(u, c) == {}
    ensures NsCounted(s + u, c)
  {
    var n: nat :| NsSpans(s, c, 0, n);
    assert OwnNs(s + u, c) == OwnNs(s, c) + OwnNs(u, c);
    NsSpansOfOwn(s, s + u, c, 0, n);
  }

  lemma MintedGrows(base: TextDoc, u: TextDoc, more: TextDoc, c: nat)
    requires EditOf(base, u, c) && OwnText(more, c) == {}
    ensures EditOf(base + more, u, c)
  {
    var n: nat, m: nat :| TextSpans(base, c, 0, n) && TextSpans(u, c, n, m);
    assert OwnText(base + more, c) == OwnText(base, c) + OwnText(more, c);
    SpansOfOwn(base, base + more, c, 0, n);
    forall id | HasStruct(base + u, id) ensures HasStruct(base + more + u, id) {
      var x :| x in base + u && x.Insert? && x.client == id.client && x.clock == id.clock;
      assert x in base + more + u;
    }
  }

  lemma StagedGrows(row: Staged, s: TextDoc, more: TextDoc, c: nat)
    requires StagedOk(row, s, c) && OwnText(more, c) == {}
    ensures StagedOk(row, s + more, c)
  {
    assert OwnText(s + more, c) == OwnText(s, c) + OwnText(more, c);
    if row.update.Some? { MintedGrows(s, row.update.value, more, c); }
  }

  // ---------------------------------------------------------------- applying the log

  ghost predicate NoOwn(m: Message, c: nat) {
    match m
    case NamespaceUpdate(u) => OwnNs(u, c) == {}
    case TextObjectUpdate(_, u) => OwnText(u, c) == {}
  }

  /** No record of another daemon carries an insertion under client `c`. */
  ghost predicate Foreign(me: nat, batch: seq<Record>, c: nat) {
    forall i :: 0 <= i < |batch| && batch[i].origin != me ==> NoOwn(batch[i].entry.msg, c)
  }

  lemma TextSideGrows(stable: Texts, prior: Texts, staged: seq<Staged>, plan: Plan, c: nat, o: ObjectId, u: TextDoc)
    requires TextSide(stable, prior, staged, plan, c) && OwnText(u, c) == {}
    ensures TextSide(ApplyText(stable, o, u), prior, staged, plan, c)
  {
    var s := Doc(stable, o);
    var stable' := ApplyText(stable, o, u);
    CountedGrows(s, u, c);
    assert forall q :: Doc(stable', q) == if q == o then s + u else Doc(stable, q);
    UnderGrows(Doc(prior, o), s, u, c);
    forall i | 0 <= i < |staged| && staged[i].oid == o ensures StagedOk(staged[i], s + u, c) {
      StagedGrows(staged[i], s, u, c);
    }
    forall p | p in plan && plan[p].WriteFile? && plan[p].row.oid == o ensures Under(plan[p].doc, s + u, c) {
      UnderGrows(plan[p].doc, s, u, c);
    }
  }

  lemma {:induction false} TextSideBatch(me: nat, stable: Texts, prior: Texts, staged: seq<Staged>, plan: Plan, c: nat, batch: seq<Record>)
    requires TextSide(stable, prior, staged, plan, c) && Foreign(me, batch, c)
    ensures TextSide(TextsOf(me, stable, batch), prior, staged, plan, c)
  {
    if batch != [] {
      var k := |batch| - 1;
      var m := batch[k].entry.msg;
      TextSideBatch(me, stable, prior, staged, plan, c, batch[..k]);
      if batch[k].origin != me && m.TextObjectUpdate? {
        TextSideGrows(TextsOf(me, stable, batch[..k]), prior, staged, plan, c, m.oid, m.textOps);
      }
    }
  }

  lemma {:induction false} NsOfForeign(me: nat, batch: seq<Record>, c: nat)
    requires Foreign(me, batch, c)
    ensures OwnNs(NsOf(me, batch), c) == {}
  {
    if batch != [] {
      var k := |batch| - 1;
      NsOfForeign(me, batch[..k], c);
      assert NoOwn(batch[k].entry.msg, c) || batch[k].origin == me;
      var u := if batch[k].origin != me && batch[k].entry.msg.NamespaceUpdate? then batch[k].entry.msg.nsOps else {};
      assert OwnNs(NsOf(me, batch[..k]) + u, c) == OwnNs(NsOf(me, batch[..k]), c) + OwnNs(u, c);
    }
  }

  lemma NsSideGrows(stable: NsDoc, prior: NsDoc, mode: Mode, u: NsDoc, c: nat)
    requires NsSide(stable, prior, mode, c) && OwnNs(u, c) == {}
    ensures NsSide(stable + u, prior, mode, c)
  {
    NsUnderGrows(prior, stable, u, c);
    NsCountedGrows(stable, u, c);
    if mode.Projecting? { NsUnderGrows(mode.target, stable, u, c); }
  }

  lemma KnownGrows(ns: NsDoc, ns': NsDoc, tree: Tree, tree': Tree, prior: map<Path, PriorRow>, staged: seq<Staged>, plan: Plan)
    requires Known(ns, tree, prior, staged, plan) && ns <= ns'
    requires OneClaimEach(ns') && TreeOf(ns') == Ok(tree')
    ensures Known(ns', tree', prior, staged, plan)
  {
    TreeFacts(ns');
    forall o | HasObject(ns, o) ensures HasObject(ns', o) { ObjectsStay(ns, ns', o); }
  }

  /** A batch of the log keeps the invariant, whatever the daemon is in the middle of. */
  lemma KeepApply(me: nat, t: Tables, mode: Mode, c: nat, first: nat, batch: seq<Record>)
    requires ReplicaInv(t, mode, c) && Foreign(me, batch, c)
    requires ApplyBatch(me, t, first, batch).Ok? && OneClaimEach(t.stableNs + NsOf(me, batch))
    ensures ReplicaInv(ApplyBatch(me, t, first, batch).value, mode, c)
  {
    var t' := ApplyBatch(me, t, first, batch).value;
    TextSideBatch(me, t.stableText, t.priorText, t.staged, PlanIn(mode), c, batch);
    if HasNs(me, batch) {
      NsOfForeign(me, batch, c);
      NsSideGrows(t.stableNs, t.priorNs, mode, NsOf(me, batch), c);
      KnownGrows(t.stableNs, t'.stableNs, t.stableTree, t'.stableTree, t.priorTree, t.staged, PlanIn(mode));
    }
  }
}
