/** Every step of the network keeps its invariant, and what that means for whole runs. */
module NetworkRuns {
  import opened Common
  import opened Crdt
  import opened StableTree
  import opened Documents
  import opened Delivery
  import opened DeliverySafety
  import opened Replica
  import opened ReplicaSafety
  import opened ReplicaSteps
  import opened Network
  import opened NetworkSafety

  // ---------------------------------------------------------------- the log grows

  lemma SourcedGrows(d: nat, m: seq<Message>, log: seq<Record>, r: Record, cursor: nat)
    requires Sourced(d, m, log, cursor) && cursor <= |log|
    ensures Sourced(d, m, log + [r], cursor)
  {
    forall j, op, k | 0 <= j < |m| && op in Ops(m[j]) && k in Needs(op)
      ensures Provided(Join(m[..j + 1]), k) || ForeignBefore(d, log + [r], cursor, j, k)
    {
      if !Provided(Join(m[..j + 1]), k) {
        assert ForeignBefore(d, log, cursor, j, k);
        var p :| 0 <= p < cursor && p < |log| && log[p].origin != d && Provided(Ops(log[p].entry.msg), k)
          && forall q :: 0 <= q < |log| && log[q].origin == d && log[q].entry.id == j ==> p < q;
        assert (log + [r])[p] == log[p];
      }
    }
  }

  lemma StableIsGrows(d: nat, t: Tables, m: seq<Message>, log: seq<Record>, r: Record)
    requires StableIs(d, t, m, log)
    ensures StableIs(d, t, m, log + [r])
  {
    assert (log + [r])[..t.cursor] == log[..t.cursor];
  }

  /** The rest of a daemon's invariant, apart from delivery, is indifferent to new records. */
  lemma DaemonSeesRecord(d: nat, it: Daemon, node: Node, log: seq<Record>, r: Record)
    requires DaemonInv(d, it, log) && node.minted == it.node.minted && Inv(d, node, log + [r])
    ensures DaemonInv(d, it.(node := node), log + [r])
  {
    StableIsGrows(d, it.local.tables, it.node.minted, log, r);
    SourcedGrows(d, it.node.minted, log, r, it.local.tables.cursor);
  }

  lemma EachSeesRecord(daemons: seq<Daemon>, log: seq<Record>, r: Record, d: nat, node: Node)
    requires EachInv(daemons, log) && d < |daemons|
    requires node.minted == daemons[d].node.minted && Inv(d, node, log + [r])
    requires r.origin != d ==> r in log
    ensures EachInv(daemons[d := daemons[d].(node := node)], log + [r])
  {
    var ds := daemons[d := daemons[d].(node := node)];
    forall e | 0 <= e < |ds| ensures DaemonInv(e, ds[e], log + [r]) {
      if e == d {
        DaemonSeesRecord(d, daemons[d], node, log, r);
      } else {
        assert DaemonInv(e, daemons[e], log);
        LogStep(e, daemons[e].node, log, r);
        DaemonSeesRecord(e, daemons[e], daemons[e].node, log, r);
      }
    }
  }

  /** Daemon `e` of `ds'` is who it was in `ds` and has minted the same messages. */
  ghost predicate SameMinters(ds: seq<Daemon>, ds': seq<Daemon>) {
    && |ds| == |ds'|
    && forall e :: 0 <= e < |ds| ==> ds'[e].me == ds[e].me && ds'[e].node.minted == ds[e].node.minted
  }

  /** Worlds in which the same messages were minted agree on ids. */
  lemma SameOps(w: World, w': World)
    requires SameMinters(w.daemons, w'.daemons) && IdsOnce(w)
    ensures IdsOnce(w')
  {
    forall op | InWorld(w', op) ensures InWorld(w, op) {
      var d :| 0 <= d < |w'.daemons| && op in Join(w'.daemons[d].node.minted);
      assert op in Join(w.daemons[d].node.minted);
    }
  }

  lemma SamePeers(w: World, w': World)
    requires SameMinters(w.daemons, w'.daemons) && Peers(w)
    requires w'.log == w.log || exists r :: w'.log == w.log + [r] && r.origin < |w.daemons|
    ensures Peers(w')
  {
  }

  lemma KeepRecord(w: World, r: Record, d: nat, node: Node)
    requires WorldInv(w) && r.origin < |w.daemons| && d < |w.daemons|
    requires node.minted == w.daemons[d].node.minted && Inv(d, node, w.log + [r])
    requires r.origin != d ==> r in w.log
    ensures WorldInv(World(w.daemons[d := w.daemons[d].(node := node)], w.log + [r]))
  {
    var w' := World(w.daemons[d := w.daemons[d].(node := node)], w.log + [r]);
    EachSeesRecord(w.daemons, w.log, r, d, node);
    SameOps(w, w');
    SamePeers(w, w');
  }

  lemma KeepRepeat(w: World, at: nat)
    requires WorldInv(w) && at < |w.log|
    ensures WorldInv(w.(log := w.log + [w.log[at]]))
  {
    var r := w.log[at];
    var d := r.origin;
    assert DaemonInv(d, w.daemons[d], w.log);
    LogStep(d, w.daemons[d].node, w.log, r);
    KeepRecord(w, r, d, w.daemons[d].node);
    assert w.daemons[d := w.daemons[d].(node := w.daemons[d].node)] == w.daemons;
  }

  lemma EachButOne(daemons: seq<Daemon>, log: seq<Record>, d: nat, it: Daemon)
    requires EachInv(daemons, log) && d < |daemons| && DaemonInv(d, it, log)
    ensures EachInv(daemons[d := it], log)
  {
  }

  /** A step of one daemon that leaves the log and what was minted alone. */
  lemma KeepOne(w: World, d: nat, it: Daemon)
    requires WorldInv(w) && d < |w.daemons| && DaemonInv(d, it, w.log)
    requires it.me == w.daemons[d].me && it.node.minted == w.daemons[d].node.minted
    ensures WorldInv(w.(daemons := w.daemons[d := it]))
  {
    var w' := w.(daemons := w.daemons[d := it]);
    EachButOne(w.daemons, w.log, d, it);
    SameOps(w, w');
    SamePeers(w, w');
  }

  lemma KeepDeliver(w: World, d: nat, move: Delivery.Step)
    requires WorldInv(w) && d < |w.daemons| && !move.Mint?
    requires Enabled(w.daemons[d].node, move) && Timely(w.daemons[d].node, move)
    ensures var it := w.daemons[d];
      && Next(it.node, move).Ok?
      && WorldInv(World(w.daemons[d := it.(node := Next(it.node, move).value)], w.log + Landing(d, it.node, move)))
  {
    var it := w.daemons[d];
    assert DaemonInv(d, it, w.log);
    StepSafe(d, it.node, w.log, move);
    var node := Next(it.node, move).value;
    assert node.minted == it.node.minted;
    if Landing(d, it.node, move) == [] {
      assert w.log + [] == w.log;
      KeepOne(w, d, it.(node := node));
    } else {
      var r := Landing(d, it.node, move)[0];
      assert Landing(d, it.node, move) == [r];
      KeepRecord(w, r, d, node);
    }
  }

  // ---------------------------------------------------------------- crash

  lemma RestartedReplica(t: Tables, mode: Mode, c: nat)
    requires ReplicaInv(t, mode, c)
    ensures ReplicaInv(t.(staged := []), Idle, c) && StableOps(t.(staged := [])) == StableOps(t)
  {
  }

  lemma RestartedNode(d: nat, node: Node, log: seq<Record>)
    requires Inv(d, node, log)
    ensures Inv(d, Restarted(node), log) && Restarted(node).minted == node.minted
  {
    StepSafe(d, node, log, Crash);
    assert log + [] == log;
  }

  /** What else a daemon's invariant says of delivery is about the minted history only. */
  lemma SameHistory(d: nat, it: Daemon, local: Local, node: Node, log: seq<Record>)
    requires DaemonInv(d, it, log) && Inv(d, node, log) && node.minted == it.node.minted
    requires ReplicaInv(local.tables, local.mode, it.me.client)
    requires StableOps(local.tables) == StableOps(it.local.tables) && local.tables.cursor == it.local.tables.cursor
    ensures DaemonInv(d, it.(local := local, node := node), log)
  {
  }

  lemma RestartedDaemon(d: nat, it: Daemon, log: seq<Record>)
    requires DaemonInv(d, it, log)
    ensures DaemonInv(d, it.(local := Local(it.local.tables.(staged := []), Idle), node := Restarted(it.node)), log)
  {
    RestartedNode(d, it.node, log);
    RestartedReplica(it.local.tables, it.local.mode, it.me.client);
    SameHistory(d, it, Local(it.local.tables.(staged := []), Idle), Restarted(it.node), log);
  }

  lemma KeepRestart(w: World, d: nat)
    requires WorldInv(w) && d < |w.daemons|
    ensures var it := w.daemons[d];
      WorldInv(w.(daemons := w.daemons[d := it.(local := Local(it.local.tables.(staged := []), Idle), node := Restarted(it.node))]))
  {
    var it := w.daemons[d];
    assert DaemonInv(d, it, w.log);
    RestartedDaemon(d, it, w.log);
    KeepOne(w, d, it.(local := Local(it.local.tables.(staged := []), Idle), node := Restarted(it.node)));
  }

  // ---------------------------------------------------------------- applying the log

  lemma OneClaimInWorld(w: World, doc: NsDoc)
    requires IdsOnce(w) && forall x :: x in doc ==> InWorld(w, Ns(x))
    ensures Clean(doc) && AllText(doc)
  {
    forall x, y | x in doc && y in doc && x.fact.AddObject? && y.fact.AddObject? && x.fact.oid == y.fact.oid ensures x == y {
      assert InWorld(w, Ns(x)) && InWorld(w, Ns(y)) && IsObject(Ns(x)) && IsObject(Ns(y));
    }
    forall x, y | x in doc && y in doc && x.fact.AddClaim? && y.fact.AddClaim? && x.fact.claim == y.fact.claim ensures x == y {
      assert InWorld(w, Ns(x)) && InWorld(w, Ns(y)) && IsClaim(Ns(x)) && IsClaim(Ns(y));
    }
    forall x | x in doc && x.fact.AddObject? ensures x.fact.kind.Text? {
      assert InWorld(w, Ns(x)) && IsObject(Ns(x));
    }
  }

  /** The document a batch produces: what stable holds once the cursor has moved. */
  lemma BatchDoc(d: nat, t: Tables, m: seq<Message>, log: seq<Record>, batch: seq<Record>, cut: nat)
    requires StableIs(d, t, m, log) && t.cursor <= cut <= |log| && batch == log[t.cursor..cut]
    ensures StableOps(t) + ForeignOps(d, batch) == Join(m) + ForeignOps(d, log[..cut])
    ensures forall x :: x in t.stableNs + NsOf(d, batch) <==> Ns(x) in Join(m) + ForeignOps(d, log[..cut])
  {
    BatchOps(d, t.stableNs, t.stableText, batch);
    assert log[..cut] == log[..t.cursor] + batch;
    ForeignConcat(d, log[..t.cursor], batch);
    NsMembers(t.stableNs + NsOf(d, batch), TextsOf(d, t.stableText, batch));
  }

  lemma NsMembers(ns: NsDoc, texts: Texts)
    ensures forall x :: x in ns <==> Ns(x) in NsPart(ns) + TextsPart(texts)
  {
  }

  lemma BatchInWorld(w: World, d: nat, count: nat)
    requires WorldInv(w) && d < |w.daemons| && w.daemons[d].local.tables.cursor + count <= |w.log|
    ensures var doc := w.daemons[d].local.tables.stableNs + NsOf(d, Batch(w, d, count));
      Clean(doc) && AllText(doc) && Complete(doc)
  {
    var it := w.daemons[d];
    var cut := it.local.tables.cursor + count;
    var doc := it.local.tables.stableNs + NsOf(d, Batch(w, d, count));
    var s := Join(it.node.minted) + ForeignOps(d, w.log[..cut]);
    assert DaemonInv(d, it, w.log);
    BatchDoc(d, it.local.tables, it.node.minted, w.log, Batch(w, d, count), cut);
    forall x | x in doc ensures InWorld(w, Ns(x)) {
      if Ns(x) !in Join(it.node.minted) {
        ForeignHas(d, w.log[..cut], Ns(x));
        var j :| 0 <= j < cut && Ns(x) in Ops(w.log[j].entry.msg);
        RecordMinted(w, j);
      }
    }
    OneClaimInWorld(w, doc);
    CausallyClosed(w, d, cut);
    ClosedIsComplete(s, doc);
  }

  /** The tables a daemon has after applying the next records of the log. */
  lemma AppliedTables(w: World, d: nat, count: nat, t': Tables)
    requires WorldInv(w) && d < |w.daemons| && w.daemons[d].local.tables.cursor + count <= |w.log|
    requires ApplyBatch(d, w.daemons[d].local.tables, w.daemons[d].local.tables.cursor, Batch(w, d, count)) == Ok(t')
    ensures ReplicaInv(t', w.daemons[d].local.mode, w.daemons[d].me.client)
  {
    var it := w.daemons[d];
    var batch := Batch(w, d, count);
    assert ReplicaInv(it.local.tables, it.local.mode, it.me.client) by { assert DaemonInv(d, it, w.log); }
    LogForeign(w, d, batch);
    BatchInWorld(w, d, count);
    KeepApply(d, it.local.tables, it.local.mode, it.me.client, it.local.tables.cursor, batch);
  }

  lemma StableIsOf(w: World, d: nat)
    requires WorldInv(w) && d < |w.daemons|
    ensures StableIs(d, w.daemons[d].local.tables, w.daemons[d].node.minted, w.log)
  {
    assert DaemonInv(d, w.daemons[d], w.log);
  }

  lemma AppliedStable(tree: NsDoc -> Outcome<Tree>, w: World, d: nat, count: nat, t': Tables)
    requires WorldInv(w) && d < |w.daemons| && w.daemons[d].local.tables.cursor + count <= |w.log|
    requires ApplyBatchBy(tree, d, w.daemons[d].local.tables, w.daemons[d].local.tables.cursor, Batch(w, d, count)) == Ok(t')
    ensures StableIs(d, t', w.daemons[d].node.minted, w.log) && w.daemons[d].local.tables.cursor <= t'.cursor
  {
    var it := w.daemons[d];
    StableIsOf(w, d);
    assert |Batch(w, d, count)| == count;
    CursorMoves(tree, d, it.local.tables, it.node.minted, w.log, Batch(w, d, count), t');
  }

  lemma KeepApplied(w: World, d: nat, count: nat, t': Tables)
    requires WorldInv(w) && d < |w.daemons| && w.daemons[d].local.tables.cursor + count <= |w.log|
    requires ApplyBatch(d, w.daemons[d].local.tables, w.daemons[d].local.tables.cursor, Batch(w, d, count)) == Ok(t')
    ensures DaemonInv(d, w.daemons[d].(local := w.daemons[d].local.(tables := t')), w.log)
  {
    AppliedTables(w, d, count, t');
    AppliedStable(TreeOf, w, d, count, t');
    assert DaemonInv(d, w.daemons[d], w.log);
    WithTables(d, w.daemons[d], t', w.log);
  }

  lemma WithTables(d: nat, it: Daemon, t: Tables, log: seq<Record>)
    requires DaemonInv(d, it, log) && ReplicaInv(t, it.local.mode, it.me.client)
    requires StableIs(d, t, it.node.minted, log) && it.local.tables.cursor <= t.cursor
    ensures DaemonInv(d, it.(local := it.local.(tables := t)), log)
  {
    SourcedLater(d, it.node.minted, log, it.local.tables.cursor, t.cursor);
  }

  lemma CursorMoves(tree: NsDoc -> Outcome<Tree>, d: nat, t: Tables, m: seq<Message>, log: seq<Record>, batch: seq<Record>, t': Tables)
    requires StableIs(d, t, m, log) && t.cursor + |batch| <= |log| && batch == log[t.cursor..t.cursor + |batch|]
    requires ApplyBatchBy(tree, d, t, t.cursor, batch) == Ok(t')
    ensures StableIs(d, t', m, log) && t'.cursor == t.cursor + |batch|
  {
    ApplyAdds(tree, d, t, t.cursor, batch);
    StableMoves(d, t, m, log, batch, t');
  }

  lemma StableMoves(d: nat, t: Tables, m: seq<Message>, log: seq<Record>, batch: seq<Record>, t': Tables)
    requires StableIs(d, t, m, log) && t.cursor + |batch| <= |log| && batch == log[t.cursor..t.cursor + |batch|]
    requires StableOps(t') == StableOps(t) + ForeignOps(d, batch) && t'.cursor == t.cursor + |batch|
    ensures StableIs(d, t', m, log)
  {
    BatchDoc(d, t, m, log, batch, t.cursor + |batch|);
  }

  lemma SourcedLater(d: nat, m: seq<Message>, log: seq<Record>, cursor: nat, cursor': nat)
    requires Sourced(d, m, log, cursor) && cursor <= cursor'
    ensures Sourced(d, m, log, cursor')
  {
    forall j, op, k | 0 <= j < |m| && op in Ops(m[j]) && k in Needs(op)
      ensures Provided(Join(m[..j + 1]), k) || ForeignBefore(d, log, cursor', j, k)
    {
      if !Provided(Join(m[..j + 1]), k) {
        assert ForeignBefore(d, log, cursor, j, k);
        var p :| 0 <= p < cursor && p < |log| && log[p].origin != d && Provided(Ops(log[p].entry.msg), k)
          && forall q :: 0 <= q < |log| && log[q].origin == d && log[q].entry.id == j ==> p < q;
        assert p < cursor';
      }
    }
  }
}
