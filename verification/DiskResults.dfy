/** Daemons that agree on stable and have projected it hold equal disks. */
module DiskResults {
  import opened FileStore
  import opened Replica
  import opened Network
  import opened Convergence
  import opened QuietRound

  /** Once the network is settled, any two daemons whose disks are what their stable says have the same files with the same bytes. */
  lemma EqualDisks(env: Env, ws: seq<World>, i: nat, d: nat, e: nat, disk: Disk, other: Disk)
    requires IsRun(env, ws) && i < |ws| && Settled(ws[i]) && d < |ws[i].daemons| && e < |ws[i].daemons|
    requires Rendered(env, ws[i].daemons[d].local.tables, disk) && Rendered(env, ws[i].daemons[e].local.tables, other)
    ensures disk.files.Keys == other.files.Keys
    ensures forall p :: p in disk.files ==> disk.files[p].bytes == other.files[p].bytes
  {
    Converged(env, ws, i, d, e);
    var a, b := ws[i].daemons[d].local.tables, ws[i].daemons[e].local.tables;
    forall p ensures p in disk.files <==> p in other.files { assert p in disk.files <==> p in a.stableTree; }
  }
}
