/** The run invariant of the whole network. */
module NetworkSafety {
  import opened Crdt
  import opened Documents
  import opened Delivery
  import opened DeliverySafety
  import opened Replica
  import opened ReplicaSafety
  import opened ReplicaMint
  import opened ReplicaSteps
  import opened Network

  // ---------------------------------------------------------------- what was minted

  /** Minted messages carry only their own daemon's ids, and no id twice. */
  ghost predicate OwnMinted(m: seq<Message>, c: nat) {
    && (forall op :: op in Join(m) ==> MintedBy(op, c))
    && DistinctIds(Join(m))
  }

  /** Message `j` of daemon `d` needs `k`, and some record before all its occurrences provides it. */
  ghost predicate ForeignBefore(d: nat, log: seq<Record>, cursor: nat, j: nat, k: Key) {
    exists p :: 0 <= p < cursor && p < |log| && log[p].origin != d && Provided(Ops(log[p].entry.msg), k)
      && forall q :: 0 <= q < |log| && log[q].origin == d && log[q].entry.id == j ==> p < q
  }

  /** What a minted operation relies on was minted no later by the same daemon, or is earlier in the log. */
  ghost predicate Sourced(d: nat, m: seq<Message>, log: seq<Record>, cursor: nat) {
    forall j, op, k :: 0 <= j < |m| && op in Ops(m[j]) && k in Needs(op) ==>
      Provided(Join(m[..j + 1]), k) || ForeignBefore(d, log, cursor, j, k)
  }

  /** Stable is exactly what the daemon minted joined with the foreign records below its cursor. */
  ghost predicate StableIs(d: nat, t: Tables, m: seq<Message>, log: seq<Record>) {
    t.cursor <= |log| && StableOps(t) == Join(m) + ForeignOps(d, log[..t.cursor])
  }

  ghost predicate DaemonInv(d: nat, it: Daemon, log: seq<Record>) {
    && it.me.origin == d
    && Inv(d, it.node, log)
    && ReplicaInv(it.local.tables, it.local.mode, it.me.client)
    && StableIs(d, it.local.tables, it.node.minted, log)
    && OwnMinted(it.node.minted, it.me.client)
    && Sourced(d, it.node.minted, log, it.local.tables.cursor)
  }

  ghost predicate IsClaim(op: Op) { op.Ns? && op.ns.fact.AddClaim? }

  ghost predicate IsObject(op: Op) { op.Ns? && op.ns.fact.AddObject? }

  /** Claim ids and object ids are added once in the whole network, and objects are text. */
  ghost predicate IdsOnce(w: World) {
    && (forall a, b :: InWorld(w, a) && InWorld(w, b) && IsClaim(a) && IsClaim(b) && a.ns.fact.claim == b.ns.fact.claim ==> a == b)
    && (forall a, b :: InWorld(w, a) && InWorld(w, b) && IsObject(a) && IsObject(b) && a.ns.fact.oid == b.ns.fact.oid ==> a == b)
    && (forall a :: InWorld(w, a) && IsObject(a) ==> a.ns.fact.kind.Text?)
  }

  ghost predicate Peers(w: World) {
    && (forall d, e :: 0 <= e < d < |w.daemons| ==> w.daemons[e].me.client != w.daemons[d].me.client)
    && (forall j :: 0 <= j < |w.log| ==> w.log[j].origin < |w.daemons|)
  }

  ghost predicate WorldInv(w: World) {
    Peers(w) && IdsOnce(w) && EachInv(w.daemons, w.log)
  }

  ghost predicate EachInv(daemons: seq<Daemon>, log: seq<Record>) {
    forall d {:trigger DaemonInv(d, daemons[d], log)} :: 0 <= d < |daemons| ==> DaemonInv(d, daemons[d], log)
  }

  // ---------------------------------------------------------------- the log and its origins

  lemma {:induction false} ForeignHas(me: nat, log: seq<Record>, op: Op)
    ensures op in ForeignOps(me, log) <==> exists j :: 0 <= j < |log| && log[j].origin != me && op in Ops(log[j].entry.msg)
  {
    if log != [] {
      var k := |log| - 1;
      ForeignHas(me, log[..k], op);
      if op in ForeignOps(me, log[..k]) {
        var j :| 0 <= j < k && log[..k][j].origin != me && op in Ops(log[..k][j].entry.msg);
        assert log[j] == log[..k][j];
      }
      if j :| 0 <= j < |log| && log[j].origin != me && op in Ops(log[j].entry.msg) {
        assert j < k ==> log[..k][j] == log[j];
      }
    }
  }

  lemma {:induction false} ForeignConcat(me: nat, a: seq<Record>, b: seq<Record>)
    ensures ForeignOps(me, a + b) == ForeignOps(me, a) + ForeignOps(me, b)
  {
    if b == [] {
      assert a + b == a;
    } else {
      var k := |b| - 1;
      assert (a + b)[..|a| + k] == a + b[..k];
      ForeignConcat(me, a, b[..k]);
    }
  }

  /** A record in the log carries a message its origin minted. */
  lemma RecordMinted(w: World, j: nat)
    requires WorldInv(w) && j < |w.log|
    ensures var r := w.log[j]; var m := w.daemons[r.origin].node.minted;
      && r.origin < |w.daemons| && r.entry.id < |m| && r.entry.msg == m[r.entry.id]
      && Ops(r.entry.msg) <= Join(m)
  {
    var r := w.log[j];
    assert DaemonInv(r.origin, w.daemons[r.origin], w.log);
    var m := w.daemons[r.origin].node.minted;
    forall op | op in Ops(r.entry.msg) ensures op in Join(m) { JoinHas(m, op); }
  }

  /** Everything in a stable state was minted by someone. */
  lemma StableInWorld(w: World, d: nat, op: Op)
    requires WorldInv(w) && d < |w.daemons| && op in StableOps(w.daemons[d].local.tables)
    ensures InWorld(w, op)
  {
    var it := w.daemons[d];
    assert DaemonInv(d, it, w.log);
    if op !in Join(it.node.minted) {
      ForeignHas(d, w.log[..it.local.tables.cursor], op);
      var j :| 0 <= j < it.local.tables.cursor && op in Ops(w.log[j].entry.msg);
      RecordMinted(w, j);
    }
  }

  /** Records of other daemons carry no ids of this one. */
  lemma LogForeign(w: World, d: nat, batch: seq<Record>)
    requires WorldInv(w) && d < |w.daemons| && forall r :: r in batch ==> r in w.log
    ensures Foreign(d, batch, w.daemons[d].me.client)
  {
    var c := w.daemons[d].me.client;
    forall i | 0 <= i < |batch| && batch[i].origin != d ensures NoOwn(batch[i].entry.msg, c) {
      assert batch[i] in w.log;
      var j :| 0 <= j < |w.log| && w.log[j] == batch[i];
      RecordMinted(w, j);
      OthersClient(w, d, batch[i].origin, batch[i].entry.msg);
    }
  }

  lemma OthersClient(w: World, d: nat, e: nat, m: Message)
    requires WorldInv(w) && d < |w.daemons| && e < |w.daemons| && e != d
    requires Ops(m) <= Join(w.daemons[e].node.minted)
    ensures NoOwn(m, w.daemons[d].me.client)
  {
    var c := w.daemons[d].me.client;
    assert DaemonInv(e, w.daemons[e], w.log);
    assert w.daemons[e].me.client != c;
    match m {
      case NamespaceUpdate(u) =>
        forall x | x in u ensures x.client != c { assert Ns(x) in Ops(m) && MintedBy(Ns(x), w.daemons[e].me.client); }
      case TextObjectUpdate(o, u) =>
        forall x | x in u ensures !OwnOp(x, c) { assert Txt(o, x) in Ops(m) && MintedBy(Txt(o, x), w.daemons[e].me.client); }
    }
  }

  // ---------------------------------------------------------------- causal closure

  /** The record that provides `k` is below `cut`: so `d` has it. */
  lemma HasRecord(w: World, d: nat, cut: nat, p: nat, k: Key)
    requires WorldInv(w) && d < |w.daemons| && p < cut <= |w.log| && Provided(Ops(w.log[p].entry.msg), k)
    ensures Provided(Join(w.daemons[d].node.minted) + ForeignOps(d, w.log[..cut]), k)
  {
    var op :| op in Ops(w.log[p].entry.msg) && k in Provides(op);
    RecordMinted(w, p);
    if w.log[p].origin != d {
      assert w.log[..cut][p] == w.log[p];
      ForeignHas(d, w.log[..cut], op);
    }
    assert op in Join(w.daemons[d].node.minted) + ForeignOps(d, w.log[..cut]);
  }

  lemma SourcedOf(w: World, e: nat)
    requires WorldInv(w) && e < |w.daemons|
    ensures Sourced(e, w.daemons[e].node.minted, w.log, w.daemons[e].local.tables.cursor)
  {
    assert DaemonInv(e, w.daemons[e], w.log);
  }

  /** What a record relies on is earlier in the log, or minted by this daemon. */
  lemma RecordSourced(w: World, d: nat, cut: nat, q: nat, op: Op, k: Key)
    requires WorldInv(w) && d < |w.daemons| && q < cut <= |w.log| && op in Ops(w.log[q].entry.msg) && k in Needs(op)
    ensures Provided(Join(w.daemons[d].node.minted) + ForeignOps(d, w.log[..cut]), k)
  {
    var p := ProviderBefore(w, q, op, k);
    HasRecord(w, d, cut, p, k);
  }

  lemma ProviderBefore(w: World, q: nat, op: Op, k: Key) returns (p: nat)
    requires WorldInv(w) && q < |w.log| && op in Ops(w.log[q].entry.msg) && k in Needs(op)
    ensures p <= q && Provided(Ops(w.log[p].entry.msg), k)
  {
    RecordMinted(w, q);
    var e, j := w.log[q].origin, w.log[q].entry.id;
    var m := w.daemons[e].node.minted;
    SourcedOf(w, e);
    if Provided(Join(m[..j + 1]), k) {
      var a :| a in Join(m[..j + 1]) && k in Provides(a);
      JoinHas(m[..j + 1], a);
      var i :| 0 <= i < j + 1 && a in Ops(m[..j + 1][i]);
      p := OccursBy(w, e, i, q);
    } else {
      assert ForeignBefore(e, w.log, w.daemons[e].local.tables.cursor, j, k);
      p :| 0 <= p < |w.log| && Provided(Ops(w.log[p].entry.msg), k) && p < q;
    }
  }

  /** Every id up to that of record `q` occurs no later than `q`. */
  lemma OccursBy(w: World, e: nat, i: nat, q: nat) returns (p: nat)
    requires WorldInv(w) && q < |w.log| && w.log[q].origin == e && i <= w.log[q].entry.id
    ensures p <= q && e < |w.daemons| && i < |w.daemons[e].node.minted| && w.log[p].entry.msg == w.daemons[e].node.minted[i]
  {
    assert DaemonInv(e, w.daemons[e], w.log);
    if i == w.log[q].entry.id {
      p := q;
    } else {
      assert Has(w.log[..q], e, i);
      var x :| 0 <= x < q && w.log[..q][x].origin == e && w.log[..q][x].entry.id == i;
      p := x;
    }
  }

  /**
   * Causal closure: at any cut at or past its cursor, what a daemon holds contains
   * everything its operations refer to.
   */
  lemma CausallyClosed(w: World, d: nat, cut: nat)
    requires WorldInv(w) && d < |w.daemons| && w.daemons[d].local.tables.cursor <= cut <= |w.log|
    ensures Closed(Join(w.daemons[d].node.minted) + ForeignOps(d, w.log[..cut]))
  {
    var m, log := w.daemons[d].node.minted, w.log;
    var s := Join(m) + ForeignOps(d, log[..cut]);
    assert DaemonInv(d, w.daemons[d], log);
    forall op, k | op in s && k in Needs(op) ensures Provided(s, k) {
      if op in Join(m) {
        JoinHas(m, op);
        var j :| 0 <= j < |m| && op in Ops(m[j]);
        OwnSourced(w, d, cut, j, op, k);
      } else {
        ForeignHas(d, log[..cut], op);
        var q :| 0 <= q < cut && op in Ops(log[q].entry.msg);
        RecordSourced(w, d, cut, q, op, k);
      }
    }
  }

  lemma OwnSourced(w: World, d: nat, cut: nat, j: nat, op: Op, k: Key)
    requires WorldInv(w) && d < |w.daemons| && w.daemons[d].local.tables.cursor <= cut <= |w.log|
    requires j < |w.daemons[d].node.minted| && op in Ops(w.daemons[d].node.minted[j]) && k in Needs(op)
    ensures Provided(Join(w.daemons[d].node.minted) + ForeignOps(d, w.log[..cut]), k)
  {
    var m := w.daemons[d].node.minted;
    assert DaemonInv(d, w.daemons[d], w.log);
    if Provided(Join(m[..j + 1]), k) {
      assert m == m[..j + 1] + m[j + 1..];
      JoinConcat(m[..j + 1], m[j + 1..]);
      ProvidedMore(Join(m[..j + 1]), Join(m) + ForeignOps(d, w.log[..cut]), k);
    } else {
      assert ForeignBefore(d, w.log, w.daemons[d].local.tables.cursor, j, k);
      var p :| 0 <= p < w.daemons[d].local.tables.cursor && p < |w.log| && Provided(Ops(w.log[p].entry.msg), k);
      HasRecord(w, d, cut, p, k);
    }
  }
}
