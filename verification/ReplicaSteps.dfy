/** Every transaction as one step of a replica, and the invariant over all of them. */
module ReplicaSteps {
  import opened Common
  import opened Crdt
  import opened StableTree
  import opened Documents
  import opened Delivery
  import opened Files
  import opened Replica
  import opened ReplicaSafety

  // ---------------------------------------------------------------- staging

  /** What the foreign code owes a reading: the edit is an edit of the prior document. */
  ghost predicate SupplyOk(env: Env, t: Tables, r: Reading, s: Supply, cutoff: int, c: nat) {
    && ReuseChoice(t.priorTree, r, cutoff, s.reuse)
    && (s.reuse.Some? ==> s.reuse.value in t.priorTree)
    && (var base := if r.path in t.priorTree && t.priorTree[r.path].deletedAt.None? then Some(r.path) else s.reuse;
        base.Some? ==> Captured(env, Doc(t.priorText, t.priorTree[base.value].oid), s.edit, r.content, c))
    && Captured(env, {}, s.whole, r.content, c)
    && Doc(t.stableText, s.oid) == {}
  }

  /** `capture_text_change`: an edit under client `c` after which the document reads `content`. */
  ghost predicate Captured(env: Env, base: TextDoc, u: TextDoc, content: Bytes, c: nat) {
    EditOf(base, u, c) && env.render(base + u) == content
  }

  lemma EditAbove(p: TextDoc, s: TextDoc, u: TextDoc, c: nat)
    requires Under(p, s, c) && EditOf(p, u, c)
    ensures EditOf(s, u, c)
  {
    var n: nat, m: nat :| TextSpans(p, c, 0, n) && TextSpans(u, c, n, m);
    SpansOfOwn(p, s, c, 0, n);
    forall id | HasStruct(p + u, id) ensures HasStruct(s + u, id) {
      var x :| x in p + u && x.Insert? && x.client == id.client && x.clock == id.clock;
      assert x in s + u;
    }
  }

  lemma StagedExistingOk(env: Env, t: Tables, r: Reading, row: PriorRow, kind: StageKind, claim: ClaimId, u: TextDoc, c: nat)
    requires TextsUnder(t.priorText, t.stableText, c) && EditOf(Doc(t.priorText, row.oid), u, c)
    ensures StagedOk(StageExisting(env, t, r, row, kind, claim, u), Doc(t.stableText, row.oid), c)
  {
    var p, s := Doc(t.priorText, row.oid), Doc(t.stableText, row.oid);
    assert Under(p, s, c);
    EditAbove(p, s, u, c);
    assert forall x :: x in OwnText(s, c) ==> x in OwnText(p, c);
  }

  lemma StagedRowOk(env: Env, t: Tables, r: Reading, s: Supply, cutoff: int, c: nat)
    requires TextsUnder(t.priorText, t.stableText, c) && SupplyOk(env, t, r, s, cutoff, c)
    requires forall p :: p in t.priorTree ==> HasObject(t.stableNs, t.priorTree[p].oid)
    ensures var row := StagedRow(env, t, r, s);
      StagedOk(row, Doc(t.stableText, row.oid), c) && (!row.kind.New? ==> HasObject(t.stableNs, row.oid))
  {
    if IsLive(t.priorTree, r.path) {
      StagedExistingOk(env, t, r, t.priorTree[r.path], Update, t.priorTree[r.path].claim, s.edit, c);
    } else if s.reuse.Some? {
      StagedExistingOk(env, t, r, t.priorTree[s.reuse.value], Resurrect, s.claim, s.edit, c);
    }
  }

  lemma KeepStagedRow(t: Tables, row: Staged, c: nat)
    requires ReplicaInv(t, Importing, c) && CanInsert(t.staged, row)
    requires StagedOk(row, Doc(t.stableText, row.oid), c) && (!row.kind.New? ==> HasObject(t.stableNs, row.oid))
    ensures ReplicaInv(t.(staged := t.staged + [row]), Importing, c)
  {
    assert StagedTexts(t.staged + [row], t.stableText, c);
    assert StagedShape(t.staged + [row]);
  }

  /** The prior row and document taken over from stable: the daemon's own write, recognized. */
  lemma KeepRealign(t: Tables, r: Reading, c: nat)
    requires ReplicaInv(t, Importing, c) && IsSelfEcho(t, r)
    ensures ReplicaInv(Realign(t, r), Importing, c)
  {
    var o := t.stableTree[r.path].oid;
    assert Doc(t.stableText, o) == t.stableText[o];
    AcceptUnder(t.stableText, t.priorText, o, t.stableText[o], c);
  }

  lemma AcceptUnder(stable: Texts, prior: Texts, o: ObjectId, doc: TextDoc, c: nat)
    requires TextsUnder(prior, stable, c) && Under(doc, Doc(stable, o), c)
    ensures TextsUnder(prior[o := doc], stable, c)
  {
    assert forall q :: Doc(prior[o := doc], q) == if q == o then doc else Doc(prior, q);
  }

  // ---------------------------------------------------------------- projection

  /** A new plan is built from stable itself. */
  lemma KeepPlan(env: Env, t: Tables, c: nat)
    requires ReplicaInv(t, Idle, c)
    ensures ReplicaInv(NextWork(env, t), Projecting(t.stableNs, PlanOf(t)), c)
  {
    PlanFromStable(t, c);
  }

  lemma PlanFromStable(t: Tables, c: nat)
    requires forall p :: p in t.stableTree ==> HasObject(t.stableNs, t.stableTree[p].oid)
    ensures PlanTexts(PlanOf(t), t.stableText, c)
    ensures forall p :: p in PlanOf(t) && PlanOf(t)[p].WriteFile? ==> HasObject(t.stableNs, PlanOf(t)[p].row.oid)
  {
  }

  lemma KeepMark(t: Tables, mode: Mode, p: Path, finger: Fingerprint, c: nat)
    requires ReplicaInv(t, mode, c)
    ensures ReplicaInv(MarkApplied(t, p, finger), mode, c)
    ensures StableOps(MarkApplied(t, p, finger)) == StableOps(t)
  {
  }

  /** What one committed action touches. */
  lemma ActionFrame(t: Tables, p: Path, a: Action, finger: Fingerprint, now: int)
    ensures var t' := CommitAction(t, p, a, finger, now);
      && t'.stableText == t.stableText && t'.stableNs == t.stableNs && t'.stableTree == t.stableTree
      && t'.staged == t.staged && t'.priorNs == t.priorNs && t'.cursor == t.cursor
      && t'.priorText == (if a.WriteFile? then t.priorText[a.row.oid := a.doc] else t.priorText)
  {
  }

  lemma {:induction false} KeepActions(t: Tables, plan: Plan, ps: seq<Path>, fingers: map<Path, Fingerprint>, now: int, c: nat)
    requires forall p :: p in ps ==> p in plan && p in fingers
    requires PlanTexts(plan, t.stableText, c) && TextsUnder(t.priorText, t.stableText, c)
    requires forall p :: p in t.priorTree ==> HasObject(t.stableNs, t.priorTree[p].oid)
    requires forall p :: p in plan && plan[p].WriteFile? ==> HasObject(t.stableNs, plan[p].row.oid)
    ensures var t' := CommitActions(t, plan, ps, fingers, now);
      && TextsUnder(t'.priorText, t.stableText, c)
      && (forall p :: p in t'.priorTree ==> HasObject(t.stableNs, t'.priorTree[p].oid))
      && t'.stableText == t.stableText && t'.stableNs == t.stableNs && t'.stableTree == t.stableTree
      && t'.staged == t.staged && t'.priorNs == t.priorNs && t'.cursor == t.cursor
  {
    if ps != [] {
      var k := |ps| - 1;
      KeepActions(t, plan, ps[..k], fingers, now, c);
      var t1, a := CommitActions(t, plan, ps[..k], fingers, now), plan[ps[k]];
      ActionFrame(t1, ps[k], a, fingers[ps[k]], now);
      if a.WriteFile? { AcceptUnder(t.stableText, t1.priorText, a.row.oid, a.doc, c); }
    }
  }

  /** `commit_projection_epoch_tx`: prior moves up to the documents the plan was made from. */
  lemma KeepCommitProjection(t: Tables, mode: Mode, ps: seq<Path>, fingers: map<Path, Fingerprint>, now: int, c: nat)
    requires ReplicaInv(t, mode, c) && mode.Projecting?
    requires forall p :: p in ps ==> p in mode.plan && p in fingers
    ensures var t' := CommitActions(t.(priorNs := mode.target), mode.plan, ps, fingers, now);
      ReplicaInv(t', Idle, c) && StableOps(t') == StableOps(t) && t'.cursor == t.cursor
  {
    KeepActions(t.(priorNs := mode.target), mode.plan, ps, fingers, now, c);
  }

  // ---------------------------------------------------------------- the log

  /** The operations of a batch that are not this daemon's own echo. */
  ghost function ForeignOps(me: nat, batch: seq<Record>): set<Op> {
    if batch == [] then {}
    else
      var r := batch[|batch| - 1];
      ForeignOps(me, batch[..|batch| - 1]) + if r.origin != me then Ops(r.entry.msg) else {}
  }

  lemma {:induction false} BatchOps(me: nat, ns: NsDoc, texts: Texts, batch: seq<Record>)
    ensures NsPart(ns + NsOf(me, batch)) + TextsPart(TextsOf(me, texts, batch)) ==
            NsPart(ns) + TextsPart(texts) + ForeignOps(me, batch)
  {
    if batch != [] {
      var k := |batch| - 1;
      BatchOps(me, ns, texts, batch[..k]);
      var r := batch[k];
      if r.origin != me {
        match r.entry.msg {
          case NamespaceUpdate(u) => NsGrows(ns + NsOf(me, batch[..k]), u);
            assert ns + (NsOf(me, batch[..k]) + u) == ns + NsOf(me, batch[..k]) + u;
          case TextObjectUpdate(o, u) => TextsGrow(TextsOf(me, texts, batch[..k]), o, u);
        }
      }
    }
  }

  lemma {:induction false} NoNs(me: nat, batch: seq<Record>)
    ensures !HasNs(me, batch) ==> NsOf(me, batch) == {}
  {
    if batch != [] {
      var k := |batch| - 1;
      NoNs(me, batch[..k]);
      if !HasNs(me, batch) {
        forall i | 0 <= i < k ensures !(batch[i].origin != me && batch[i].entry.msg.NamespaceUpdate?) {}
        assert !HasNs(me, batch[..k]);
      }
    }
  }

  /** Applying a batch adds exactly the foreign operations in it and moves the cursor by its length. */
  lemma ApplyAdds(tree: NsDoc -> Outcome<Tree>, me: nat, t: Tables, first: nat, batch: seq<Record>)
    requires ApplyBatchBy(tree, me, t, first, batch).Ok?
    ensures var t' := ApplyBatchBy(tree, me, t, first, batch).value;
      && StableOps(t') == StableOps(t) + ForeignOps(me, batch)
      && t'.stableNs == t.stableNs + NsOf(me, batch)
      && t'.cursor == t.cursor + |batch|
  {
    BatchOps(me, t.stableNs, t.stableText, batch);
    NoNs(me, batch);
    if !HasNs(me, batch) { assert t.stableNs + NsOf(me, batch) == t.stableNs; }
  }
}
