/** Applying the log in batches: the loop with its per-batch caches, and independence of the batching. */
module ReplicaBatch {
  import opened Common
  import opened Crdt
  import opened Order
  import opened Namespace
  import opened NamespaceResults
  import opened StableTree
  import opened Documents
  import opened Delivery
  import opened Replica
  import opened ReplicaSteps

  // ---------------------------------------------------------------- splitting

  lemma {:induction false} TextsConcat(me: nat, texts: Texts, a: seq<Record>, b: seq<Record>)
    ensures TextsOf(me, texts, a + b) == TextsOf(me, TextsOf(me, texts, a), b)
  {
    if b == [] {
      assert a + b == a;
    } else {
      var k := |b| - 1;
      assert (a + b)[..|a| + k] == a + b[..k];
      TextsConcat(me, texts, a, b[..k]);
    }
  }

  lemma {:induction false} NsConcat(me: nat, a: seq<Record>, b: seq<Record>)
    ensures NsOf(me, a + b) == NsOf(me, a) + NsOf(me, b)
  {
    if b == [] {
      assert a + b == a;
    } else {
      var k := |b| - 1;
      assert (a + b)[..|a| + k] == a + b[..k];
      NsConcat(me, a, b[..k]);
    }
  }

  lemma HasNsConcat(me: nat, a: seq<Record>, b: seq<Record>)
    ensures HasNs(me, a + b) <==> HasNs(me, a) || HasNs(me, b)
  {
    if HasNs(me, a) {
      var i :| 0 <= i < |a| && a[i].origin != me && a[i].entry.msg.NamespaceUpdate?;
      assert (a + b)[i] == a[i];
    }
    if HasNs(me, b) {
      var i :| 0 <= i < |b| && b[i].origin != me && b[i].entry.msg.NamespaceUpdate?;
      assert (a + b)[|a| + i] == b[i];
    }
  }

  /** The later of two namespace documents is the one that counts. */
  function Later(a: Option<NsDoc>, b: Option<NsDoc>): Option<NsDoc> { if b.Some? then b else a }

  lemma NsTwice(me: nat, ns: NsDoc, a: seq<Record>, b: seq<Record>)
    ensures var first := NsAfter(me, ns, a);
      NsAfter(me, ns, a + b) == Later(first, NsAfter(me, if first.Some? then first.value else ns, b))
  {
    HasNsConcat(me, a, b);
    NsConcat(me, a, b);
    NoNs(me, a);
    NoNs(me, b);
    var x, y := NsOf(me, a), NsOf(me, b);
    assert ns + x + y == ns + (x + y);
    assert ns + {} == ns && {} + y == y && x + {} == x;
  }

  lemma AdvanceTwice(t: Tables, x: Texts, y: Texts, a: Option<NsDoc>, b: Option<NsDoc>, ta: Outcome<Tree>, tb: Outcome<Tree>, m: nat, n: nat)
    requires Advance(t, x, a, ta, m).Ok?
    ensures Advance(Advance(t, x, a, ta, m).value, y, b, tb, n) ==
            Advance(t, y, Later(a, b), if b.Some? then tb else ta, m + n)
  {
  }

  lemma SameTree(me: nat, ns: NsDoc, a: seq<Record>, b: seq<Record>)
    ensures !HasNs(me, b) ==> ns + NsOf(me, a) == ns + NsOf(me, a + b)
    ensures var first := NsAfter(me, ns, a);
      (if first.Some? then first.value else ns) + NsOf(me, b) == ns + NsOf(me, a + b)
  {
    NsConcat(me, a, b);
    NoNs(me, a);
    NoNs(me, b);
    assert ns + NsOf(me, a) + NsOf(me, b) == ns + (NsOf(me, a) + NsOf(me, b));
  }

  /** Two batches one after the other are one batch. */
  lemma TwoBatches(tree: NsDoc -> Outcome<Tree>, me: nat, t: Tables, first: nat, a: seq<Record>, b: seq<Record>)
    requires ApplyBatchBy(tree, me, t, first, a).Ok?
    ensures ApplyBatchBy(tree, me, ApplyBatchBy(tree, me, t, first, a).value, first + |a|, b) ==
            ApplyBatchBy(tree, me, t, first, a + b)
  {
    TextsConcat(me, t.stableText, a, b);
    NsTwice(me, t.stableNs, a, b);
    SameTree(me, t.stableNs, a, b);
    var x, na := TextsOf(me, t.stableText, a), NsAfter(me, t.stableNs, a);
    var ns1 := if na.Some? then na.value else t.stableNs;
    AdvanceTwice(t, x, TextsOf(me, x, b), na, NsAfter(me, ns1, b),
                 tree(t.stableNs + NsOf(me, a)), tree(ns1 + NsOf(me, b)), |a|, |b|);
  }

  /** Batches applied one after the other, each at the cursor the one before it left. */
  ghost function ApplyEach(me: nat, t: Tables, batches: seq<seq<Record>>): Outcome<Tables> {
    if batches == [] then Ok(t)
    else match ApplyEach(me, t, batches[..|batches| - 1])
      case Fault => Fault
      case Ok(t1) => ApplyBatch(me, t1, t1.cursor, batches[|batches| - 1])
  }

  /** However the records are cut into batches, the tables come out the same and the cursor moves by their number. */
  lemma {:induction false} BatchingIrrelevant(me: nat, t: Tables, batches: seq<seq<Record>>)
    requires ApplyEach(me, t, batches).Ok?
    ensures ApplyEach(me, t, batches) == ApplyBatch(me, t, t.cursor, Flatten(batches))
    ensures ApplyEach(me, t, batches).value.cursor == t.cursor + |Flatten(batches)|
  {
    if batches == [] {
      assert !HasNs(me, []);
    } else {
      var k := |batches| - 1;
      BatchingIrrelevant(me, t, batches[..k]);
      TwoBatches(TreeOf, me, t, t.cursor, Flatten(batches[..k]), batches[k]);
      ApplyAdds(TreeOf, me, t, t.cursor, Flatten(batches));
    }
  }

  /** Batch `j` has foreign namespace operations and the namespace after it has no tree. */
  ghost predicate BreaksAt(me: nat, t: Tables, batches: seq<seq<Record>>, j: nat) {
    j < |batches| && HasNs(me, batches[j]) && TreeOf(t.stableNs + NsOf(me, Flatten(batches[..j + 1]))).Fault?
  }

  lemma BatchFaults(tree: NsDoc -> Outcome<Tree>, me: nat, t: Tables, batch: seq<Record>)
    ensures ApplyBatchBy(tree, me, t, t.cursor, batch).Fault? <==> HasNs(me, batch) && tree(t.stableNs + NsOf(me, batch)).Fault?
  {
  }

  lemma EarlierBreaks(me: nat, t: Tables, batches: seq<seq<Record>>, j: nat)
    requires j < |batches| - 1
    ensures BreaksAt(me, t, batches, j) <==> BreaksAt(me, t, batches[..|batches| - 1], j)
  {
    assert batches[..|batches| - 1][..j + 1] == batches[..j + 1];
  }

  ghost predicate Breaks(me: nat, t: Tables, batches: seq<seq<Record>>) { exists j: nat :: BreaksAt(me, t, batches, j) }

  lemma BreaksLater(me: nat, t: Tables, batches: seq<seq<Record>>)
    requires batches != []
    ensures Breaks(me, t, batches) <==> Breaks(me, t, batches[..|batches| - 1]) || BreaksAt(me, t, batches, |batches| - 1)
  {
    var k := |batches| - 1;
    if j: nat :| BreaksAt(me, t, batches[..k], j) { EarlierBreaks(me, t, batches, j); }
    if j: nat :| BreaksAt(me, t, batches, j) && j != k { EarlierBreaks(me, t, batches, j); }
  }

  /**
   * A split fails exactly when some batch of it leaves a namespace without a tree on the way;
   * what comes later may still give the whole one a tree, and then only the split fails.
   */
  lemma {:induction false} SplitFaults(me: nat, t: Tables, batches: seq<seq<Record>>)
    ensures ApplyEach(me, t, batches).Fault? <==> Breaks(me, t, batches)
  {
    if batches != [] {
      var before := batches[..|batches| - 1];
      SplitFaults(me, t, before);
      BreaksLater(me, t, batches);
      if ApplyEach(me, t, before).Ok? {
        BatchingIrrelevant(me, t, before);
        LastBreaks(me, t, batches);
      }
    }
  }

  lemma LastBreaks(me: nat, t: Tables, batches: seq<seq<Record>>)
    requires batches != [] && ApplyEach(me, t, batches[..|batches| - 1]) == ApplyBatch(me, t, t.cursor, Flatten(batches[..|batches| - 1]))
    requires ApplyEach(me, t, batches[..|batches| - 1]).Ok?
    ensures ApplyEach(me, t, batches).Fault? <==> BreaksAt(me, t, batches, |batches| - 1)
  {
    var k := |batches| - 1;
    var t1 := ApplyEach(me, t, batches[..k]).value;
    ApplyAdds(TreeOf, me, t, t.cursor, Flatten(batches[..k]));
    NsConcat(me, Flatten(batches[..k]), batches[k]);
    assert t.stableNs + NsOf(me, Flatten(batches[..k])) + NsOf(me, batches[k]) ==
           t.stableNs + (NsOf(me, Flatten(batches[..k])) + NsOf(me, batches[k]));
    assert batches[..k + 1] == batches;
    BatchFaults(TreeOf, me, t1, batches[k]);
  }

  // ---------------------------------------------------------------- the loop

  /**
   * The stable documents a batch touches are read once and updated in caches message by
   * message; overlaid on the tables, the caches are what single messages would have left.
   */
  method CacheDocs(me: nat, ns: NsDoc, texts: Texts, batch: seq<Record>)
    returns (namespaceDoc: Option<NsDoc>, textDocs: Texts)
    ensures namespaceDoc == NsAfter(me, ns, batch)
    ensures texts + textDocs == TextsOf(me, texts, batch)
  {
    namespaceDoc, textDocs := None, map[];
    for i := 0 to |batch|
      invariant namespaceDoc == NsAfter(me, ns, batch[..i])
      invariant texts + textDocs == TextsOf(me, texts, batch[..i])
    {
      BatchStep(me, batch, i);
      if batch[i].origin != me {
        match batch[i].entry.msg {
          case NamespaceUpdate(u) =>
            NoNs(me, batch[..i]);
            var base := if namespaceDoc.Some? then namespaceDoc.value else ns;
            assert base + u == ns + (NsOf(me, batch[..i]) + u);
            namespaceDoc := Some(base + u);
          case TextObjectUpdate(o, u) =>
            var base := if o in textDocs then textDocs[o] else Doc(texts, o);
            assert base == Doc(texts + textDocs, o);
            assert texts + textDocs[o := base + u] == ApplyText(texts + textDocs, o, u);
            textDocs := textDocs[o := base + u];
        }
      }
    }
    assert batch[..|batch|] == batch;
  }

  lemma BatchStep(me: nat, batch: seq<Record>, i: nat)
    requires i < |batch|
    ensures batch[..i + 1][..i] == batch[..i]
    ensures HasNs(me, batch[..i + 1]) <==> HasNs(me, batch[..i]) || (batch[i].origin != me && batch[i].entry.msg.NamespaceUpdate?)
    ensures !(batch[i].origin != me && batch[i].entry.msg.NamespaceUpdate?) ==> NsOf(me, batch[..i + 1]) == NsOf(me, batch[..i])
  {
    assert batch[..i + 1] == batch[..i] + [batch[i]];
    HasNsConcat(me, batch[..i], [batch[i]]);
    assert HasNs(me, [batch[i]]) <==> batch[i].origin != me && batch[i].entry.msg.NamespaceUpdate? by {
      assert [batch[i]][0] == batch[i];
    }
  }

  // ---------------------------------------------------------------- materializing a document

  /** The creator recorded for an object, if the document has it. */
  method FindCreator(doc: NsDoc, o: ObjectId) returns (r: Option<WriterId>)
    requires OneObjectEach(doc)
    ensures r == if HasObject(doc, o) then Some(Creator(doc, o)) else None
  {
    if x :| x in doc && x.fact.AddObject? && x.fact.oid == o {
      assert HasObject(doc, o);
      return Some(x.fact.creator);
    }
    return None;
  }

  ghost function ClaimAt(doc: NsDoc, x: NsOp): Claim
    requires x.fact.AddClaim? && HasObject(doc, x.fact.owner)
  {
    Claim(x.fact.claim, x.fact.owner, x.fact.path, Creator(doc, x.fact.owner))
  }

  method CollectClaims(doc: NsDoc) returns (r: Outcome<seq<Claim>>)
    requires OneClaimEach(doc) && OneObjectEach(doc)
    ensures r.Ok? <==> Complete(doc)
    ensures r.Ok? ==> Distinct(r.value) && Elements(r.value) == ClaimsOf(doc)
  {
    var todo, claims := doc, [];
    while todo != {}
      invariant todo <= doc && Distinct(claims)
      invariant forall x :: IsActive(doc, x) && x !in todo ==> HasObject(doc, x.fact.owner) && ClaimAt(doc, x) in claims
      invariant forall c :: c in claims ==> exists x :: IsActive(doc, x) && x !in todo && HasObject(doc, x.fact.owner) && c == ClaimAt(doc, x)
      decreases todo
    {
      var x :| x in todo;
      todo := todo - {x};
      if x.fact.AddClaim? && forall y :: y in doc ==> !(y.fact.RemoveClaim? && y.fact.removed == x.fact.claim) {
        assert IsActive(doc, x);
        assert forall c :: c in claims ==> c.id != x.fact.claim;
        var creator := FindCreator(doc, x.fact.owner);
        if creator.None? { return Fault; }
        claims := claims + [Claim(x.fact.claim, x.fact.owner, x.fact.path, creator.value)];
      }
    }
    r := Ok(claims);
  }

  method MaterializeDoc(doc: NsDoc) returns (r: Outcome<Tree>)
    requires OneClaimEach(doc) && OneObjectEach(doc)
    ensures r == TreeOf(doc)
  {
    var claims := CollectClaims(doc);
    if claims.Fault? || exists x :: x in doc && x.fact.AddObject? && !x.fact.kind.Text? { return Fault; }
    var placements := DeriveVisiblePlacements(claims.value);
    if placements.Fault? { return Fault; }
    r := BuildDesired(placements.value);
  }

  /** A batch fails exactly if it does not begin at the cursor, or brings a namespace update to one that has no tree. */
  lemma BatchFails(me: nat, t: Tables, first: nat, batch: seq<Record>)
    ensures ApplyBatch(me, t, first, batch).Fault? <==>
      || first != t.cursor
      || ((exists i :: 0 <= i < |batch| && batch[i].origin != me && batch[i].entry.msg.NamespaceUpdate?)
          && TreeOf(t.stableNs + NsOf(me, batch)).Fault?)
  {
  }
}
