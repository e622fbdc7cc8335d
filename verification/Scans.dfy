/** Scan scopes and their coalescing (`fs/types.rs`, `engine/actor.rs`). */
module Scans {
  import opened Common
  import opened Crdt

  datatype Scope = Full | Subtree(path: Path) | SingleFile(path: Path)

  predicate Under(root: Path, p: Path) { root <= p }

  /** `ScanScope::contains_path`. */
  predicate Contains(s: Scope, p: Path) {
    match s
    case Full => true
    case SingleFile(q) => p == q
    case Subtree(root) => p == root || Under(root, p)
  }

  predicate SubtreeContainsScope(root: Path, s: Scope) {
    match s
    case Full => false
    case SingleFile(p) => p == root || Under(root, p)
    case Subtree(p) => p == root || Under(root, p)
  }

  function Coalesce(l: Scope, r: Scope): Scope {
    if l.Full? || r.Full? then Full
    else if l.SingleFile? && r.SingleFile? && l.path == r.path then l
    else if l.Subtree? && SubtreeContainsScope(l.path, r) then l
    else if r.Subtree? && SubtreeContainsScope(r.path, l) then r
    else Full
  }

  /** The set of paths of one scope includes that of another. */
  ghost predicate Wider(a: Scope, b: Scope) { forall p :: Contains(b, p) ==> Contains(a, p) }

  /** The coalesced scope covers both, and widens to a full scan exactly when neither of the two covers the other. */
  lemma CoalesceExact(l: Scope, r: Scope)
    ensures Wider(Coalesce(l, r), l) && Wider(Coalesce(l, r), r)
    ensures Coalesce(l, r) in {l, r, Full}
    ensures Coalesce(l, r).Full? <==> l.Full? || r.Full? || (!Wider(l, r) && !Wider(r, l))
  {
    if !l.Full? && !r.Full? {
      NarrowerPath(l, r);
      NarrowerPath(r, l);
    }
  }

  /** A scope with a root covers another only if it holds the other's root, and a single file covers no subtree. */
  lemma NarrowerPath(a: Scope, b: Scope)
    requires !a.Full? && !b.Full?
    ensures Wider(a, b) <==> if a.SingleFile? then a == b else SubtreeContainsScope(a.path, b)
  {
    assert Contains(b, b.path);
    if a.SingleFile? && b.Subtree? {
      var below: Path := b.path + ["a"];
      assert Contains(b, below);
    }
  }

  // ---------------------------------------------------------------- sequences of requests

  /** What the engine does with scopes: remember a request, or start the pending scan. */
  datatype Event = Requested(scope: Scope) | ScanStarted

  function Remember(pending: Option<Scope>, s: Scope): Option<Scope> {
    Some(if pending.Some? then Coalesce(pending.value, s) else s)
  }

  /** The scope pending after the events. */
  function Pending(events: seq<Event>): Option<Scope> {
    if events == [] then None
    else
      var k := |events| - 1;
      match events[k]
      case Requested(s) => Remember(Pending(events[..k]), s)
      case ScanStarted => None
  }

  ghost predicate Covered(events: seq<Event>, i: nat, p: Path) {
    || (Pending(events).Some? && Contains(Pending(events).value, p))
    || exists j :: i < j < |events| && events[j].ScanStarted? && StartsWith(events, j, p)
  }

  /** The scan started at `j` covers `p`. */
  predicate StartsWith(events: seq<Event>, j: nat, p: Path)
    requires j < |events|
  {
    Pending(events[..j]).Some? && Contains(Pending(events[..j]).value, p)
  }

  /**
   * Every requested path is covered by the pending scope or by a scan started after the
   * request, through any number of coalescings.
   */
  lemma {:induction false} EveryRequestCovered(events: seq<Event>, i: nat, p: Path)
    requires i < |events| && events[i].Requested? && Contains(events[i].scope, p)
    ensures Covered(events, i, p)
  {
    var k := |events| - 1;
    var before := events[..k];
    if i < k {
      EveryRequestCovered(before, i, p);
      if j :| i < j < k && before[j].ScanStarted? && StartsWith(before, j, p) {
        assert before[..j] == events[..j];
        assert events[j].ScanStarted? && StartsWith(events, j, p);
      } else if events[k].Requested? {
        CoalesceExact(Pending(before).value, events[k].scope);
      } else {
        assert StartsWith(events, k, p);
      }
    } else if Pending(before).Some? {
      CoalesceExact(Pending(before).value, events[k].scope);
    }
  }
}
