/** File fingerprints (`fs/types.rs`). */
module Files {
  import opened Crdt

  datatype Stat = Stat(inode: nat, size: nat, mtime: int)

  /** Stat and content hash, sampled together. */
  datatype Fingerprint = Fingerprint(stat: Stat, hash: Bytes)
}
