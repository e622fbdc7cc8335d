/** The epoch ledger as the semantic actor keeps it: an object updated in place (semantic/actor.rs). */
module RuntimeState {
  import opened Common
  import opened Epochs

  function Entry(kind: Kind, active: Option<Active>): map<Kind, Active> {
    if active.Some? then map[kind := active.value] else map[]
  }

  function Counters(imports: nat, projections: nat): map<Kind, nat> {
    map k: Kind | k in {Import, Projection} :: if k.Import? then imports else projections
  }

  class SemanticRuntimeState {
    var nextImportEpoch: nat
    var nextProjectionEpoch: nat
    var activeImport: Option<Active>
    var activeProjection: Option<Active>

    ghost function State(): Ledger
      reads this
    {
      Ledger(Counters(nextImportEpoch, nextProjectionEpoch),
             Entry(Import, activeImport) + Entry(Projection, activeProjection))
    }

    constructor ()
      ensures State() == Ledger(Counters(0, 0), map[])
    {
      nextImportEpoch, nextProjectionEpoch := 0, 0;
      activeImport, activeProjection := None, None;
    }

    function ActiveOf(kind: Kind): Option<Active>
      reads this
      ensures ActiveOf(kind) == if kind in State().active then Some(State().active[kind]) else None
    {
      if kind.Import? then activeImport else activeProjection
    }

    method SetActive(kind: Kind, active: Option<Active>)
      modifies this
      ensures State() == old(State()).(active :=
        if active.Some? then old(State()).active[kind := active.value] else old(State()).active - {kind})
    {
      if kind.Import? { activeImport := active; } else { activeProjection := active; }
    }

    /** A panic leaves the actor dead; it is reported as `Fault` with nothing changed. */
    method ReserveEpoch(kind: Kind) returns (r: Outcome<nat>)
      modifies this
      ensures r.Ok? <==> Reserve(old(State()), kind).Ok?
      ensures State() == if r.Ok? then Reserve(old(State()), kind).value else old(State())
      ensures r.Ok? ==> r.value == NextEpoch(old(State()), kind) < NextEpoch(State(), kind)
    {
      if ActiveOf(kind).Some? { return Fault; }
      if kind.Import? {
        r := Ok(nextImportEpoch);
        nextImportEpoch := nextImportEpoch + 1;
      } else {
        r := Ok(nextProjectionEpoch);
        nextProjectionEpoch := nextProjectionEpoch + 1;
      }
    }

    /** Every action is checked against the epoch and against the ids seen before it. */
    method InstallEpoch(kind: Kind, st: Started) returns (ok: bool)
      modifies this
      ensures ok <==> Install(old(State()), kind, st).Ok?
      ensures State() == if ok then Install(old(State()), kind, st).value else old(State())
    {
      if ActiveOf(kind).Some? { return false; }
      var expected: set<ActionId> := {};
      for i := 0 to |st.actions|
        invariant State() == old(State()) && expected == IdSet(st.actions[..i])
        invariant forall j :: 0 <= j < i ==> st.actions[j].epoch == st.epoch
        invariant forall j, k :: 0 <= j < k < i ==> st.actions[j] != st.actions[k]
      {
        if st.actions[i].epoch != st.epoch { return false; }
        if st.actions[i] in expected {
          var j :| 0 <= j < i && st.actions[j] == st.actions[i];
          return false;
        }
        assert IdSet(st.actions[..i + 1]) == IdSet(st.actions[..i]) + {st.actions[i]};
        expected := expected + {st.actions[i]};
      }
      assert st.actions[..|st.actions|] == st.actions;
      SetActive(kind, Some(Active(st.epoch, expected, {})));
      ok := true;
    }

    method FinishAction(kind: Kind, id: ActionId) returns (ok: bool)
      modifies this
      ensures ok <==> Complete(old(State()), kind, id).Ok?
      ensures State() == if ok then Complete(old(State()), kind, id).value else old(State())
    {
      var active := ActiveOf(kind);
      if active.None? || id.epoch != active.value.epoch || id !in active.value.expected || id in active.value.completed {
        return false;
      }
      SetActive(kind, Some(active.value.(completed := active.value.completed + {id})));
      ok := true;
    }

    /** The actions handed to the commit are the completed ones, and all of them when the plan was exhausted. */
    method FinishEpoch(kind: Kind, epoch: nat, exhausted: bool) returns (r: Outcome<set<ActionId>>)
      modifies this
      ensures r.Ok? <==> Finish(old(State()), kind, epoch, exhausted).Ok?
      ensures State() == if r.Ok? then Finish(old(State()), kind, epoch, exhausted).value else old(State())
      ensures r.Ok? ==>
        && r.value == old(State()).active[kind].expected * old(State()).active[kind].completed
        && (exhausted ==> r.value == old(State()).active[kind].expected)
    {
      var taken := ActiveOf(kind);
      if taken.None? || taken.value.epoch != epoch { return Fault; }
      var active := taken.value;
      if exhausted && |active.completed| != |active.expected| { return Fault; }
      var todo, actions := active.expected, {};
      while todo != {}
        invariant State() == old(State()) && todo <= active.expected
        invariant actions == (active.expected - todo) * active.completed
        invariant exhausted ==> active.expected - todo <= active.completed
        decreases todo
      {
        var id :| id in todo;
        if id in active.completed { actions := actions + {id}; }
        else if exhausted { return Fault; }
        todo := todo - {id};
      }
      SetActive(kind, None);
      r := Ok(actions);
    }
  }
}
