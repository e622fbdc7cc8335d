/** Exactly when a connection may come up while an outbox read is outstanding. */
module DeliveryTiming {
  import opened Common
  import opened Crdt
  import opened Delivery
  import opened DeliverySafety

  // ---------------------------------------------------------------- runs of timely steps

  /** The run ends in `end`: a node, or a fault in its last step. */
  ghost predicate Reaches(s: Node, steps: seq<Step>, end: Outcome<Node>)
    decreases |steps|
  {
    if steps == [] then end == Ok(s)
    else if !Enabled(s, steps[0]) || !Timely(s, steps[0]) then false
    else match Next(s, steps[0])
      case Fault => end == Fault
      case Ok(s') => Reaches(s', steps[1..], end)
  }

  ghost predicate CanFault(s: Node) { exists steps :: Reaches(s, steps, Fault) }

  lemma FaultNow(s: Node, step: Step)
    requires Enabled(s, step) && Timely(s, step) && Next(s, step).Fault?
    ensures CanFault(s)
  {
    assert Reaches(s, [step], Fault);
  }

  lemma FaultLater(s: Node, step: Step, s': Node)
    requires Enabled(s, step) && Timely(s, step) && Next(s, step) == Ok(s') && CanFault(s')
    ensures CanFault(s)
  {
    var steps :| Reaches(s', steps, Fault);
    assert ([step] + steps)[1..] == steps;
    assert Reaches(s, [step] + steps, Fault);
  }

  lemma {:induction false} RunSafe(d: nat, s: Node, log: seq<Record>, steps: seq<Step>, end: Outcome<Node>)
    requires Inv(d, s, log) && Reaches(s, steps, end)
    ensures end.Ok?
    decreases |steps|
  {
    if steps != [] {
      StepSafe(d, s, log, steps[0]);
      RunSafe(d, Next(s, steps[0]).value, log + Landing(d, s, steps[0]), steps[1..], end);
    }
  }

  // ---------------------------------------------------------------- a stale answer reaches the session

  /** The writer has taken what it was sent; the next answer does not continue it. */
  lemma GapFaults(s: Node, r: seq<Entry>)
    requires s.flags.link.Online? && s.flags.readInFlight && s.readReplies == [r] && r != []
    requires s.writer.Up? && s.writer.upload.None? && s.toWriter == []
    requires s.writer.expected.Some? && s.writer.expected.value != r[0].id
    ensures CanFault(s)
  {
    var s1 := OnReadReply(s, 0).value;
    assert s1.toWriter != [] && s1.toWriter[0] == Append(r[0]) && s1.writer == s.writer;
    FaultNow(s1, WriterTake(false));
    FaultLater(s, TakeReadReply(0), s1);
  }

  /** `q` are appends of ids from `a` on. */
  predicate Numbered(q: seq<WriterRequest>, a: nat) {
    forall i :: 0 <= i < |q| ==> q[i].Append? && q[i].entry.id == a + i
  }

  /** The same, with appends of ids from `a` on still to be taken. */
  lemma {:induction false} AppendsThenGap(s: Node, r: seq<Entry>, a: nat)
    requires s.flags.link.Online? && s.flags.readInFlight && s.readReplies == [r] && r != []
    requires s.writer.Up? && s.writer.upload.None? && Numbered(s.toWriter, a)
    requires if s.writer.expected.Some? then s.writer.expected.value == a else s.toWriter != []
    requires r[0].id != a + |s.toWriter|
    ensures CanFault(s)
    decreases |s.toWriter|
  {
    if s.toWriter == [] {
      GapFaults(s, r);
    } else {
      var s1 := OnWriterRequest(s, false).value;
      AppendsThenGap(s1, r, a + 1);
      FaultLater(s, WriterTake(false), s1);
    }
  }

  /** A stale answer is waiting, the reservation behind it has been released, and the session is up. */
  ghost predicate Doomed(s: Node, lo: nat, r: seq<Entry>) {
    && s.flags.link.Online? && s.flags.readInFlight && !ReleasePending(s.flags)
    && s.readReplies == [r] && r != [] && s.lane == [] && s.toWriter == []
    && s.writer == Up(None, None, [], 0)
    && lo < |s.minted| && s.rows == Table(s.minted, lo, lo)
    && lo <= r[0].id && IsRun(s.minted, r[0].id, r)
  }

  /** The next read hands out the same ids again, from the lowest. */
  lemma DoomedFaults(s: Node, lo: nat, r: seq<Entry>)
    requires Doomed(s, lo, r)
    ensures CanFault(s)
  {
    var s1 := s.(readReplies := [], toWriter := Appends(r), lane := [ReadOutbox], flags := s.flags.(readRequested := false));
    ForwardStale(s, r, s1);
    var end := TableReserve(s.minted, lo, lo, READ_OUTBOX_BATCH_SIZE);
    var again := Entries(s.minted, lo, end);
    var s2 := s1.(lane := [], rows := Table(s.minted, lo, end), readReplies := [again]);
    assert s1.lane[1..] == [] && s1.readReplies + [again] == [again];
    AppendsThenGap(s2, again, r[0].id);
    FaultLater(s1, RunLane, s2);
    FaultLater(s, TakeReadReply(0), s1);
  }

  lemma ForwardStale(s: Node, r: seq<Entry>, s1: Node)
    requires s.flags.link.Online? && s.flags.readInFlight && !ReleasePending(s.flags)
    requires s.readReplies == [r] && r != [] && s.lane == [] && s.toWriter == []
    requires s1 == s.(readReplies := [], toWriter := Appends(r), lane := [ReadOutbox], flags := s.flags.(readRequested := false))
    ensures OnReadReply(s, 0) == Ok(s1)
  {
    assert s.readReplies[..0] + s.readReplies[1..] == [] && [] + Appends(r) == Appends(r) && s.lane + [ReadOutbox] == [ReadOutbox];
  }

  // ---------------------------------------------------------------- from Connected to the fault

  /** The node once it has processed Connected, its read still outstanding. */
  function Over(s: Node): Node { s.(fromWriter := [], flags := s.flags.(link := Online)) }

  /** Connected is next, and an answer is there, or will be, for rows of an earlier session. */
  ghost predicate Stale(s: Node, lo: nat, mid: nat, top: nat) {
    && NodeInv(s, lo, mid, top) && s.flags.link.Reconnecting? && s.fromWriter == [Connected] && s.flags.readInFlight
    && (Reply(s.readReplies) != [] || (ReadOutbox in s.lane && mid < |s.minted|))
  }

  /** While the read is outstanding, the lane does the same on either side of Connected. */
  lemma LaneCommutes(s: Node, lo: nat, mid: nat, top: nat) returns (lo': nat, mid': nat)
    requires Stale(s, lo, mid, top) && s.lane != []
    ensures OnLane(s).Ok? && Stale(OnLane(s).value, lo', mid', top)
    ensures OnLane(Over(s)) == Ok(Over(OnLane(s).value))
  {
    lo', mid' := LaneStep(s, lo, mid, top);
    LanePop(s.lane);
    if s.lane[0].ReadOutbox? {
      var end := TableReserve(s.minted, lo, mid, READ_OUTBOX_BATCH_SIZE);
      assert s.readReplies == [] && [] + [Entries(s.minted, mid, end)] == [Entries(s.minted, mid, end)];
      assert mid < |s.minted| ==> Entries(s.minted, mid, end) != [];
    }
    var s' := OnLane(s).value;
    StaleAfterLane(s, s', lo, mid, top, lo', mid');
  }

  lemma StaleAfterLane(s: Node, s': Node, lo: nat, mid: nat, top: nat, lo': nat, mid': nat)
    requires Stale(s, lo, mid, top) && s.lane != [] && OnLane(s) == Ok(s') && NodeInv(s', lo', mid', top)
    requires s.lane[0].ReadOutbox? ==> Reply(s'.readReplies) != []
    ensures Stale(s', lo', mid', top)
  {
    LanePop(s.lane);
    if !s.lane[0].ReadOutbox? && ReadOutbox in s.lane && Reply(s.readReplies) == [] {
      MidStays(s, s', lo, mid, top, lo', mid');
    }
  }

  /** With the read still in the lane, only a trim can be ahead of it. */
  lemma MidStays(s: Node, s': Node, lo: nat, mid: nat, top: nat, lo': nat, mid': nat)
    requires Stale(s, lo, mid, top) && s.lane != [] && OnLane(s) == Ok(s') && NodeInv(s', lo', mid', top)
    requires !s.lane[0].ReadOutbox? && ReadOutbox in s.lane
    ensures ReadOutbox in s'.lane && s'.minted == s.minted && (mid < |s.minted| ==> mid' < |s.minted|)
  {
    LanePop(s.lane);
    if mid < |s.minted| { FreeTop(s, s', lo, mid, lo', mid'); }
  }

  /** The highest row is free before a trim, so it is there and free after. */
  lemma FreeTop(s: Node, s': Node, lo: nat, mid: nat, lo': nat, mid': nat)
    requires lo <= mid < |s.minted| && s.rows == Table(s.minted, lo, mid)
    requires s.lane != [] && s.lane[0].TrimOutbox? && OnLane(s) == Ok(s') && s'.minted == s.minted
    requires lo' <= mid' <= |s.minted| && s'.rows == Table(s.minted, lo', mid')
    ensures mid' < |s.minted|
  {
    var t := s.lane[0].through;
    TableTrim(s.minted, lo, mid, t);
    var kept := Kept(lo, mid, t);
    var top := |s.minted| - 1;
    assert s'.rows == Table(s.minted, kept, mid);
    assert s'.rows[|s'.rows| - 1] == Row(Entry(top, s.minted[top]), false);
    assert lo' < |s.minted| ==> s'.rows[|s'.rows| - 1] == Row(Entry(top, s.minted[top]), top < mid');
  }

  lemma OverRelease(s: Node)
    requires s.releaseReplies > 0 && s.flags.releaseInFlight && s.flags.readInFlight && s.fromWriter != []
    ensures OnReleaseReply(s).Ok? && OnReleaseReply(Over(s)) == Ok(Over(OnReleaseReply(s).value))
  {
  }

  lemma ReleaseOut(s: Node, lo: nat, mid: nat, top: nat)
    requires NodeInv(s, lo, mid, top) && s.releaseReplies > 0
    ensures s.flags.releaseInFlight
  {
  }

  lemma StaleAfterRelease(s: Node, s': Node, lo: nat, mid: nat, top: nat)
    requires Stale(s, lo, mid, top) && s.releaseReplies > 0 && OnReleaseReply(s) == Ok(s') && NodeInv(s', lo, mid, top)
    ensures Stale(s', lo, mid, top)
  {
  }

  lemma ReleaseCommutes(s: Node, lo: nat, mid: nat, top: nat)
    requires Stale(s, lo, mid, top) && s.releaseReplies > 0
    ensures OnReleaseReply(s).Ok? && Stale(OnReleaseReply(s).value, lo, mid, top)
    ensures OnReleaseReply(Over(s)) == Ok(Over(OnReleaseReply(s).value))
  {
    ReleaseOut(s, lo, mid, top);
    OverRelease(s);
    KeepReleaseReply(s, lo, mid, top);
    StaleAfterRelease(s, OnReleaseReply(s).value, lo, mid, top);
  }

  /** Work left before the session is undisturbed by releases. */
  function Ahead(s: Node): nat { 3 * |s.lane| + s.releaseReplies + 5 * One(s.flags.releaseRequested) }

  lemma {:induction false} StaleFaults(s: Node, lo: nat, mid: nat, top: nat)
    requires Stale(s, lo, mid, top)
    ensures CanFault(Over(s))
    decreases Ahead(s)
  {
    if s.lane != [] {
      var lo', mid' := LaneCommutes(s, lo, mid, top);
      var s' := OnLane(s).value;
      StaleFaults(s', lo', mid', top);
      FaultLater(Over(s), RunLane, Over(s'));
    } else if s.releaseReplies > 0 {
      ReleaseCommutes(s, lo, mid, top);
      var s' := OnReleaseReply(s).value;
      StaleFaults(s', lo, mid, top);
      FaultLater(Over(s), TakeReleaseReply, Over(s'));
    } else {
      SettledIsDoomed(s, lo, mid, top);
      DoomedFaults(Over(s), lo, Reply(s.readReplies));
    }
  }

  lemma SettledIsDoomed(s: Node, lo: nat, mid: nat, top: nat)
    requires Stale(s, lo, mid, top) && s.lane == [] && s.releaseReplies == 0
    ensures Doomed(Over(s), lo, Reply(s.readReplies))
  {
    assert multiset(s.lane)[ReadOutbox] == 0 && multiset(s.lane)[ReleaseOutbox] == 0;
  }

  /** With nothing minted but what is reserved, one more message makes the outstanding read nonempty. */
  lemma MintCommutes(s: Node, lo: nat, mid: nat, top: nat, m: Message)
    requires NodeInv(s, lo, mid, top) && s.flags.link.Reconnecting? && s.fromWriter == [Connected] && s.flags.readInFlight
    requires ReadOutbox in s.lane
    ensures Stale(Minted(s, [m]), lo, mid, top) && Minted(Over(s), [m]) == Over(Minted(s, [m]))
  {
    KeepMint(s, lo, mid, top, [m]);
  }

  /** With a read outstanding, taking Connected starts nothing. */
  lemma TakenIsOver(s: Node)
    requires s.fromWriter == [Connected] && s.flags.readInFlight
    ensures OnWriterEvent(s) == Over(s)
  {
    assert s.fromWriter[1..] == [];
  }

  lemma UntimelyFaults(s: Node, lo: nat, mid: nat, top: nat)
    requires NodeInv(s, lo, mid, top) && s.fromWriter == [Connected] && !NothingStale(s)
    ensures CanFault(OnWriterEvent(s))
  {
    assert s.flags.link.Reconnecting?;
    TakenIsOver(s);
    if ReadOutbox in s.lane {
      var m := NamespaceUpdate({});
      MintCommutes(s, lo, mid, top, m);
      StaleFaults(Minted(s, [m]), lo, mid, top);
      FaultLater(Over(s), Mint([m]), Over(Minted(s, [m])));
    } else {
      OneAnswer(s, lo, mid, top);
      StaleFaults(s, lo, mid, top);
    }
  }

  lemma OneAnswer(s: Node, lo: nat, mid: nat, top: nat)
    requires NodeInv(s, lo, mid, top) && s.flags.readInFlight && ReadOutbox !in s.lane
    ensures |s.readReplies| == 1 && s.readReplies == [Reply(s.readReplies)]
  {
    assert multiset(s.lane)[ReadOutbox] == 0;
  }

  /**
   * Exactly when Connected may be processed: no read is outstanding, or its answer is there
   * and empty, or the connection has already failed again. Then no continuation reaches an
   * assertion; otherwise some continuation does, the writer being sent ids that do not
   * follow each other.
   */
  lemma ConnectSafeExactlyWhenNothingStale(d: nat, s: Node, log: seq<Record>)
    requires Inv(d, s, log) && s.fromWriter != [] && s.fromWriter[0].Connected?
    ensures !CanFault(OnWriterEvent(s)) <==> NothingStale(s)
  {
    if NothingStale(s) {
      StepSafe(d, s, log, TakeWriterEvent);
      assert Landing(d, s, TakeWriterEvent) == [];
      if steps :| Reaches(OnWriterEvent(s), steps, Fault) {
        RunSafe(d, OnWriterEvent(s), log + [], steps, Fault);
      }
    } else {
      var lo, mid, top :| LandedBelow(log, d, top) && NodeInv(s, lo, mid, top);
      UntimelyFaults(s, lo, mid, top);
    }
  }
}
