/** Reading files for an import: what is taken over, and what happens when a file has changed meanwhile. */
module JointReads {
  import opened Common
  import opened Scans
  import opened Files
  import opened FileStore
  import opened Delivery
  import opened Replica
  import opened Joint
  import EC = EpochScans

  /** The file is as the scan saw it. */
  predicate Unchanged(d: Disk, f: Target) { f.path in d.files && StatOf(d.files[f.path]) == f.stat }

  /**
   * A read gives the file's own content and fingerprint if its stat is the scanned one; if it
   * is not, or the file is gone, the read gives nothing and the answer calls for a rescan.
   */
  lemma ReadGives(env: Env, j: Joint, i: nat)
    requires i < |j.sys.fs.pending| && IsRead(j, j.sys.fs.pending[i])
    ensures var num := j.sys.fs.pending[i].id.num; var f := j.files[num]; var j' := Ran(env, j, i);
      && (Unchanged(j.disk, f) ==>
            var e := j.disk.files[f.path];
            num in j'.readings && j'.readings[num] == Reading(f.path, Fingerprint(Stat(e.inode, |e.bytes|, e.mtime), env.hash(e.bytes)), e.bytes))
      && (Invalidates(j', j.sys.fs.pending[i]) <==> !Unchanged(j.disk, f))
      && (num in j'.readings <==> Unchanged(j.disk, f))
      && (forall k :: k != num ==> (k in j'.readings <==> k in j.readings) && (k in j.readings ==> j'.readings[k] == j.readings[k]))
      && j'.disk == j.disk && j'.tables == j.tables && j'.done == j.done
  {
  }

  /** A file that changed after the scan is not imported; the whole workspace is scanned again. */
  lemma ChangedIsRescanned(env: Env, me: Me, j: Joint, i: nat, swapLeft: bool)
    requires i < |j.sys.fs.pending| && IsRead(j, j.sys.fs.pending[i]) && !Unchanged(j.disk, j.files[j.sys.fs.pending[i].id.num])
    requires JointEnabled(env, me, Ran(env, j, i), TakeFs(i, swapLeft)) && JointNext(env, me, Ran(env, j, i), TakeFs(i, swapLeft)).Ok?
    ensures var j' := JointNext(env, me, Ran(env, j, i), TakeFs(i, swapLeft)).value;
      j'.sys.pendingScan == Some(Full) && j.sys.fs.pending[i].id.num !in j'.readings && j'.tables == j.tables
  {
    ReadGives(env, j, i);
    EC.RefusedThenFull(j.sys, i, swapLeft);
  }

  /** A batch is announced exactly if it has a record of another daemon. */
  lemma EchoesUnannounced(me: nat, batch: seq<Record>)
    ensures (forall r :: r in batch ==> r.origin == me) <==> !Announced(me, batch)
  {
    if i :| 0 <= i < |batch| && batch[i].origin != me { assert batch[i] in batch; }
  }
}
