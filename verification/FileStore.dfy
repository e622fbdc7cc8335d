/** The in-memory file system (`sim/src/in_memory_file_io.rs`): user edits and the daemon's guarded operations. */
module FileStore {
  import opened Common
  import opened Crdt
  import opened Files

  datatype Entry = Entry(bytes: Bytes, inode: nat, mtime: int)

  datatype Disk = Disk(files: map<Path, Entry>, nextInode: nat, time: int)

  datatype ExpectedBefore = Anything | Missing | Present(finger: Fingerprint) | PresentStat(stat: Stat)

  datatype ReadResult = Read(bytes: Bytes, finger: Fingerprint) | ConflictBeforeRead(observed: Option<Stat>)

  datatype WriteResult =
    | Written(finger: Fingerprint)
    | AlreadyApplied(finger: Fingerprint)
    | ConflictBeforeSwap(observed: Option<Stat>)

  datatype DeleteResult = Deleted | AlreadyDeleted | Conflict(observed: Option<Stat>)

  type Hash = Bytes -> Bytes

  // ---------------------------------------------------------------- fingerprints

  function StatOf(e: Entry): Stat { Stat(e.inode, |e.bytes|, e.mtime) }

  function FingerOf(hash: Hash, e: Entry): Fingerprint { Fingerprint(StatOf(e), hash(e.bytes)) }

  function Observed(d: Disk, p: Path): Option<Stat> {
    if p in d.files then Some(StatOf(d.files[p])) else None
  }

  /** `observed_matches_expected`. */
  predicate Matches(hash: Hash, d: Disk, p: Path, expected: ExpectedBefore) {
    match expected
    case Anything => true
    case Missing => p !in d.files
    case Present(finger) => p in d.files && FingerOf(hash, d.files[p]) == finger
    case PresentStat(stat) => p in d.files && StatOf(d.files[p]) == stat
  }

  // ---------------------------------------------------------------- state changes

  /** `insert_file`: a new inode and a new modification time. */
  function Inserted(d: Disk, p: Path, bytes: Bytes): Disk {
    Disk(d.files[p := Entry(bytes, d.nextInode, d.time + 1)], d.nextInode + 1, d.time + 1)
  }

  /** An edit in place keeps the inode; editing a missing file creates it. */
  function Edited(d: Disk, p: Path, bytes: Bytes): Disk {
    if p in d.files then d.(files := d.files[p := d.files[p].(bytes := bytes, mtime := d.time + 1)], time := d.time + 1)
    else Inserted(d, p, bytes)
  }

  function Removed(d: Disk, p: Path): Disk { d.(files := d.files - {p}, time := d.time + 1) }

  function Renamed(d: Disk, from: Path, to: Path): Disk
    requires from in d.files
  {
    d.(files := (d.files - {from})[to := d.files[from]], time := d.time + 1)
  }

  function GuardedRead(hash: Hash, d: Disk, p: Path, expected: ExpectedBefore): ReadResult
    requires expected.Present? || expected.PresentStat?
  {
    if Matches(hash, d, p, expected) then Read(d.files[p].bytes, FingerOf(hash, d.files[p]))
    else ConflictBeforeRead(Observed(d, p))
  }

  function GuardedWriteResult(hash: Hash, d: Disk, p: Path, bytes: Bytes, expected: ExpectedBefore): WriteResult {
    if p in d.files && d.files[p].bytes == bytes then AlreadyApplied(FingerOf(hash, d.files[p]))
    else if !Matches(hash, d, p, expected) then ConflictBeforeSwap(Observed(d, p))
    else Written(FingerOf(hash, Inserted(d, p, bytes).files[p]))
  }

  function AfterWrite(hash: Hash, d: Disk, p: Path, bytes: Bytes, expected: ExpectedBefore): Disk {
    if GuardedWriteResult(hash, d, p, bytes, expected).Written? then Inserted(d, p, bytes) else d
  }

  function GuardedDeleteResult(hash: Hash, d: Disk, p: Path, expected: ExpectedBefore): DeleteResult {
    if !Matches(hash, d, p, expected) then Conflict(Observed(d, p))
    else if p !in d.files then AlreadyDeleted
    else Deleted
  }

  function AfterDelete(hash: Hash, d: Disk, p: Path, expected: ExpectedBefore): Disk {
    if GuardedDeleteResult(hash, d, p, expected).Deleted? then Removed(d, p) else d
  }

  /** The file has this inode, size, modification time and content hash. */
  predicate HasFinger(hash: Hash, e: Entry, f: Fingerprint) {
    e.inode == f.stat.inode && |e.bytes| == f.stat.size && e.mtime == f.stat.mtime && hash(e.bytes) == f.hash
  }

  /** What was seen instead: the stat of whatever is there. */
  predicate SeenInstead(d: Disk, p: Path, observed: Option<Stat>) {
    if p in d.files then observed == Some(Stat(d.files[p].inode, |d.files[p].bytes|, d.files[p].mtime)) else observed == None
  }

  /** What is expected on the path holds, field by field. */
  lemma ExpectedHolds(hash: Hash, d: Disk, p: Path, expected: ExpectedBefore)
    ensures Matches(hash, d, p, expected) <==>
      match expected
      case Anything => true
      case Missing => p !in d.files
      case Present(f) => p in d.files && HasFinger(hash, d.files[p], f)
      case PresentStat(s) => p in d.files && d.files[p].inode == s.inode && |d.files[p].bytes| == s.size && d.files[p].mtime == s.mtime
  {
  }

  /**
   * A guarded operation acts only on what it expects and then leaves just what it was asked
   * for; refused, it leaves the disk alone and tells what it saw.
   */
  lemma GuardedOutcomes(hash: Hash, d: Disk, p: Path, bytes: Bytes, expected: ExpectedBefore)
    ensures expected.Present? || expected.PresentStat? ==>
      match GuardedRead(hash, d, p, expected)
      case Read(b, f) => Matches(hash, d, p, expected) && b == d.files[p].bytes && HasFinger(hash, d.files[p], f)
      case ConflictBeforeRead(o) => !Matches(hash, d, p, expected) && SeenInstead(d, p, o)
    ensures var after := AfterWrite(hash, d, p, bytes, expected);
      match GuardedWriteResult(hash, d, p, bytes, expected)
      case Written(f) =>
        && Matches(hash, d, p, expected) && (p in d.files ==> d.files[p].bytes != bytes)
        && p in after.files && after.files[p].bytes == bytes && HasFinger(hash, after.files[p], f) && after.files[p].inode == d.nextInode
      case AlreadyApplied(f) => after == d && p in d.files && d.files[p].bytes == bytes && HasFinger(hash, d.files[p], f)
      case ConflictBeforeSwap(o) => after == d && !Matches(hash, d, p, expected) && SeenInstead(d, p, o)
    ensures var after := AfterDelete(hash, d, p, expected);
      match GuardedDeleteResult(hash, d, p, expected)
      case Deleted => Matches(hash, d, p, expected) && p in d.files && after.files == d.files - {p}
      case AlreadyDeleted => after == d && p !in d.files && Matches(hash, d, p, expected)
      case Conflict(o) => after == d && !Matches(hash, d, p, expected) && SeenInstead(d, p, o)
  {
  }

  // ---------------------------------------------------------------- the object

  class InMemoryFileIO {
    var files: map<Path, Entry>
    var nextInode: nat
    var time: int

    ghost function State(): Disk reads this { Disk(files, nextInode, time) }

    constructor ()
      ensures State() == Disk(map[], 1, 0)
    {
      files, nextInode, time := map[], 1, 0;
    }

    method InsertFile(p: Path, bytes: Bytes)
      modifies this
      ensures State() == Inserted(old(State()), p, bytes)
    {
      var inode := nextInode;
      nextInode := nextInode + 1;
      time := time + 1;
      files := files[p := Entry(bytes, inode, time)];
    }

    method AppendFile(p: Path, bytes: Bytes)
      modifies this
      ensures State() == Edited(old(State()), p, (if p in old(files) then old(files)[p].bytes else []) + bytes)
    {
      time := time + 1;
      if p in files {
        files := files[p := files[p].(bytes := files[p].bytes + bytes, mtime := time)];
      } else {
        files := files[p := Entry(bytes, nextInode, time)];
        nextInode := nextInode + 1;
        assert [] + bytes == bytes;
      }
    }

    method PrependFile(p: Path, bytes: Bytes)
      modifies this
      ensures State() == Edited(old(State()), p, bytes + if p in old(files) then old(files)[p].bytes else [])
    {
      time := time + 1;
      if p in files {
        files := files[p := files[p].(bytes := bytes + files[p].bytes, mtime := time)];
      } else {
        files := files[p := Entry(bytes, nextInode, time)];
        nextInode := nextInode + 1;
        assert bytes + [] == bytes;
      }
    }

    method ReplaceFileContents(p: Path, bytes: Bytes)
      modifies this
      ensures State() == Edited(old(State()), p, bytes)
    {
      time := time + 1;
      if p in files {
        files := files[p := files[p].(bytes := bytes, mtime := time)];
      } else {
        files := files[p := Entry(bytes, nextInode, time)];
        nextInode := nextInode + 1;
      }
    }

    method DeleteFile(p: Path)
      modifies this
      ensures State() == Removed(old(State()), p)
    {
      files := files - {p};
      time := time + 1;
    }

    method RenameFile(from: Path, to: Path) returns (ok: bool)
      modifies this
      ensures ok <==> from in old(files)
      ensures State() == if ok then Renamed(old(State()), from, to) else old(State())
    {
      if from !in files { return false; }
      var entry := files[from];
      files := files - {from};
      files := files[to := entry];
      time := time + 1;
      ok := true;
    }

    method Write(hash: Hash, p: Path, bytes: Bytes, expected: ExpectedBefore) returns (r: WriteResult)
      modifies this
      ensures r == GuardedWriteResult(hash, old(State()), p, bytes, expected)
      ensures State() == AfterWrite(hash, old(State()), p, bytes, expected)
    {
      if p in files && files[p].bytes == bytes {
        return AlreadyApplied(FingerOf(hash, files[p]));
      }
      if !Matches(hash, Disk(files, nextInode, time), p, expected) {
        return ConflictBeforeSwap(Observed(Disk(files, nextInode, time), p));
      }
      InsertFile(p, bytes);
      r := Written(FingerOf(hash, files[p]));
    }

    method Delete(hash: Hash, p: Path, expected: ExpectedBefore) returns (r: DeleteResult)
      modifies this
      ensures r == GuardedDeleteResult(hash, old(State()), p, expected)
      ensures State() == AfterDelete(hash, old(State()), p, expected)
    {
      if !Matches(hash, Disk(files, nextInode, time), p, expected) {
        return Conflict(Observed(Disk(files, nextInode, time), p));
      }
      if p !in files { return AlreadyDeleted; }
      files := files - {p};
      time := time + 1;
      r := Deleted;
    }
  }

  // ---------------------------------------------------------------- versions

  datatype Version = Version(inode: nat, mtime: int)

  /** The content every (inode, mtime) pair has ever named. */
  type Versions = map<Version, Bytes>

  function VersionOf(e: Entry): Version { Version(e.inode, e.mtime) }

  /** What is on disk is recorded; recorded versions are from the past; an inode is on one path. */
  ghost predicate Recorded(h: Versions, d: Disk) {
    && (forall p :: p in d.files ==> VersionOf(d.files[p]) in h && h[VersionOf(d.files[p])] == d.files[p].bytes)
    && (forall v :: v in h ==> v.inode < d.nextInode && v.mtime <= d.time)
    && (forall p, q :: p in d.files && q in d.files && d.files[p].inode == d.files[q].inode ==> p == q)
  }

  datatype Change =
    | Create(path: Path, content: Bytes)
    | Edit(path: Path, content: Bytes)
    | Remove(path: Path)
    | Rename(from: Path, to: Path)

  function After(d: Disk, c: Change): Disk {
    match c
    case Create(p, bytes) => Inserted(d, p, bytes)
    case Edit(p, bytes) => Edited(d, p, bytes)
    case Remove(p) => Removed(d, p)
    case Rename(from, to) => if from in d.files then Renamed(d, from, to) else d
  }

  /** The versions once the change has been seen; the changed file's version is added. */
  function Seen(h: Versions, d: Disk, c: Change): Versions {
    if c.Create? || c.Edit? then h[VersionOf(After(d, c).files[c.path]) := c.content] else h
  }

  /** No change ever gives an existing (inode, mtime) pair a new content. */
  lemma VersionsNeverReused(h: Versions, d: Disk, c: Change)
    requires Recorded(h, d)
    ensures Recorded(Seen(h, d, c), After(d, c))
    ensures forall v :: v in h ==> v in Seen(h, d, c) && Seen(h, d, c)[v] == h[v]
  {
  }

  /** The paths a change may alter. */
  predicate Concerns(c: Change, p: Path) { if c.Rename? then p == c.from || p == c.to else p == c.path }

  /**
   * A file keeps its inode when it is edited, gets one that was never used when it is created,
   * and takes its entry along when it is renamed; every other file stays as it is.
   */
  lemma InodesAfter(h: Versions, d: Disk, c: Change)
    requires Recorded(h, d)
    ensures forall p :: !Concerns(c, p) ==> (p in After(d, c).files <==> p in d.files) && (p in d.files ==> After(d, c).files[p] == d.files[p])
    ensures match c
      case Edit(p, b) =>
        var f := After(d, c).files;
        && p in f && f[p].bytes == b && VersionOf(f[p]) !in h
        && if p in d.files then f[p].inode == d.files[p].inode else forall v :: v in h ==> v.inode != f[p].inode
      case Create(p, b) =>
        var f := After(d, c).files;
        p in f && f[p].bytes == b && forall v :: v in h ==> v.inode != f[p].inode
      case Remove(p) => p !in After(d, c).files
      case Rename(from, to) =>
        if from in d.files then to in After(d, c).files && After(d, c).files[to] == d.files[from] && (from != to ==> from !in After(d, c).files)
        else After(d, c) == d
  {
    assert forall v :: v in h ==> v.inode < d.nextInode && v.mtime <= d.time;
  }

  /** `finger` was taken of a file whose content is on record. */
  ghost predicate Genuine(hash: Hash, h: Versions, finger: Fingerprint) {
    var v := Version(finger.stat.inode, finger.stat.mtime);
    v in h && finger == Fingerprint(Stat(v.inode, |h[v]|, v.mtime), hash(h[v]))
  }

  lemma GenuineOnDisk(hash: Hash, h: Versions, d: Disk, p: Path)
    requires Recorded(h, d) && p in d.files
    ensures Genuine(hash, h, FingerOf(hash, d.files[p]))
  {
  }

  /** A stat names one content: a file that still has the stat still has the content. */
  lemma StatNamesContent(hash: Hash, h: Versions, d: Disk, p: Path, finger: Fingerprint)
    requires Recorded(h, d) && Genuine(hash, h, finger) && p in d.files && StatOf(d.files[p]) == finger.stat
    ensures d.files[p].bytes == h[Version(finger.stat.inode, finger.stat.mtime)]
    ensures FingerOf(hash, d.files[p]) == finger
  {
  }
}
