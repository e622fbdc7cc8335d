/** Projection reaches a fixpoint: executing and committing a plan leaves no work. */
module ProjectionFixpoint {
  import opened Common
  import opened Crdt
  import opened Order
  import opened Files
  import opened FileStore
  import opened StableTree
  import opened Replica
  import opened ReplicaSteps
  import opened Projection

  // ---------------------------------------------------------------- what a plan holds

  predicate PlannedAt(t: Tables, plan: Plan, p: Path) {
    if p in t.stableTree then
      if UpToDate(t, p) then p !in plan
      else p in plan && plan[p] == WriteFile(t.stableTree[p], Doc(t.stableText, t.stableTree[p].oid),
             if IsLive(t.priorTree, p) then Some(t.priorTree[p].finger) else None)
    else if IsLive(t.priorTree, p) then p in plan && plan[p] == DeleteFile(t.priorTree[p].finger)
    else p !in plan
  }

  ghost predicate PlanFor(t: Tables, plan: Plan) { forall p :: PlannedAt(t, plan, p) }

  /** The plan, path by path. */
  lemma PlanByPath(t: Tables, plan: Plan)
    ensures PlanFor(t, plan) <==> plan == PlanOf(t)
  {
    if PlanFor(t, plan) {
      forall p ensures p in plan <==> p in PlanOf(t) { assert PlannedAt(t, plan, p); }
      forall p | p in plan ensures plan[p] == PlanOf(t)[p] { assert PlannedAt(t, plan, p); }
    }
  }

  // ---------------------------------------------------------------- executing a whole plan

  /** The plan's actions performed in the order `ps`, with how each one ended. */
  function Execute(env: Env, d: Disk, plan: Plan, ps: seq<Path>): (Disk, map<Path, Performed>)
    requires forall p :: p in ps ==> p in plan
  {
    if ps == [] then (d, map[])
    else
      var k := |ps| - 1;
      var (before, done) := Execute(env, d, plan, ps[..k]);
      var (after, result) := PerformOn(env, before, ps[k], plan[ps[k]]);
      (after, done[ps[k] := result])
  }

  /** The disk is what prior says, and nothing untracked is in the way of a new stable path. */
  ghost predicate Agrees(env: Env, t: Tables, d: Disk) {
    && (forall p :: IsLive(t.priorTree, p) ==>
          && p in d.files && FingerOf(env.hash, d.files[p]) == t.priorTree[p].finger
          && d.files[p].bytes == env.render(Doc(t.priorText, t.priorTree[p].oid)))
    && (forall p :: p in t.stableTree && !IsLive(t.priorTree, p) && p in d.files ==>
          d.files[p].bytes == env.render(Doc(t.stableText, t.stableTree[p].oid)))
  }

  predicate SameFile(d: Disk, d': Disk, p: Path) {
    (p in d.files <==> p in d'.files) && (p in d.files ==> d'.files[p] == d.files[p])
  }

  /** The action succeeded and left the file as planned. */
  predicate Achieved(env: Env, d: Disk, p: Path, a: Action, r: Performed) {
    match a
    case WriteFile(_, doc, _) =>
      p in d.files && d.files[p].bytes == env.render(doc) && r == Wrote(FingerOf(env.hash, d.files[p]))
    case DeleteFile(_) => p !in d.files && r == Erased
  }

  lemma PerformAchieves(env: Env, t: Tables, plan: Plan, d0: Disk, d: Disk, p: Path)
    requires Agrees(env, t, d0) && PlannedAt(t, plan, p) && p in plan && SameFile(d0, d, p)
    ensures var (d', r) := PerformOn(env, d, p, plan[p]);
      Achieved(env, d', p, plan[p], r) && forall q :: q != p ==> SameFile(d, d', q)
  {
  }

  ghost predicate Progress(env: Env, plan: Plan, d: Disk, ps: seq<Path>, d': Disk, done: map<Path, Performed>) {
    && (forall p :: p in ps ==> p in plan && p in done && Achieved(env, d', p, plan[p], done[p]))
    && (forall p :: p !in ps ==> SameFile(d, d', p))
  }

  lemma ProgressStep(env: Env, plan: Plan, d: Disk, ps: seq<Path>, p: Path, d1: Disk, done: map<Path, Performed>, d2: Disk, r: Performed)
    requires Progress(env, plan, d, ps, d1, done) && p !in ps && p in plan
    requires Achieved(env, d2, p, plan[p], r) && forall q :: q != p ==> SameFile(d1, d2, q)
    ensures Progress(env, plan, d, ps + [p], d2, done[p := r])
  {
    forall q | q in ps + [p] ensures q in plan && q in done[p := r] && Achieved(env, d2, q, plan[q], done[p := r][q]) {
      if q != p { assert q in ps && SameFile(d1, d2, q); }
    }
    forall q | q !in ps + [p] ensures SameFile(d, d2, q) {
      assert q !in ps && q != p && SameFile(d1, d2, q);
    }
  }

  lemma {:induction false} ExecuteAchieves(env: Env, t: Tables, plan: Plan, d: Disk, ps: seq<Path>)
    requires Agrees(env, t, d) && PlanFor(t, plan) && Distinct(ps) && forall p :: p in ps ==> p in plan
    ensures Progress(env, plan, d, ps, Execute(env, d, plan, ps).0, Execute(env, d, plan, ps).1)
  {
    if ps != [] {
      var k := |ps| - 1;
      ExecuteAchieves(env, t, plan, d, ps[..k]);
      var (before, done) := Execute(env, d, plan, ps[..k]);
      var (after, r) := PerformOn(env, before, ps[k], plan[ps[k]]);
      assert ps[k] !in ps[..k] && SameFile(d, before, ps[k]);
      assert PlannedAt(t, plan, ps[k]);
      PerformAchieves(env, t, plan, d, before, ps[k]);
      ProgressStep(env, plan, d, ps[..k], ps[k], before, done, after, r);
      assert ps[..k] + [ps[k]] == ps;
    }
  }

  // ---------------------------------------------------------------- committing it

  /** The prior row of a path once its action is committed. */
  predicate RowAccepted(plan: Plan, fingers: map<Path, Fingerprint>, prior: map<Path, PriorRow>, p: Path) {
    && p in plan && p in fingers && p in prior
    && match plan[p]
       case WriteFile(row, _, _) => prior[p] == PriorRow(row.claimed, row.claim, row.oid, fingers[p], None)
       case DeleteFile(_) => prior[p].deletedAt.Some?
  }

  predicate SameRow(prior: map<Path, PriorRow>, prior': map<Path, PriorRow>, p: Path) {
    (p in prior' <==> p in prior) && (p in prior ==> prior'[p] == prior[p])
  }

  ghost predicate Accepted(prior: map<Path, PriorRow>, plan: Plan, ps: seq<Path>, fingers: map<Path, Fingerprint>, prior': map<Path, PriorRow>) {
    && (forall p :: p in ps ==> RowAccepted(plan, fingers, prior', p))
    && (forall p :: p !in ps ==> SameRow(prior, prior', p))
  }

  lemma ActionRow(t: Tables, plan: Plan, p: Path, fingers: map<Path, Fingerprint>, now: int)
    requires p in plan && p in fingers && (plan[p].DeleteFile? ==> p in t.priorTree)
    ensures var prior' := CommitAction(t, p, plan[p], fingers[p], now).priorTree;
      RowAccepted(plan, fingers, prior', p) && forall q :: q != p ==> SameRow(t.priorTree, prior', q)
  {
  }

  lemma {:induction false} CommitAccepts(t: Tables, plan: Plan, ps: seq<Path>, fingers: map<Path, Fingerprint>, now: int)
    requires PlanFor(t, plan) && Distinct(ps) && forall p :: p in ps ==> p in plan && p in fingers
    ensures Accepted(t.priorTree, plan, ps, fingers, CommitActions(t, plan, ps, fingers, now).priorTree)
  {
    if ps != [] {
      var k := |ps| - 1;
      var p := ps[k];
      CommitAccepts(t, plan, ps[..k], fingers, now);
      var t1 := CommitActions(t, plan, ps[..k], fingers, now);
      assert p !in ps[..k] && SameRow(t.priorTree, t1.priorTree, p) && PlannedAt(t, plan, p);
      ActionRow(t1, plan, p, fingers, now);
      AcceptedStep(t.priorTree, plan, ps[..k], fingers, t1.priorTree, p, CommitAction(t1, p, plan[p], fingers[p], now).priorTree);
      assert ps[..k] + [p] == ps;
    }
  }

  lemma AcceptedStep(prior: map<Path, PriorRow>, plan: Plan, ps: seq<Path>, fingers: map<Path, Fingerprint>, prior1: map<Path, PriorRow>, p: Path, prior2: map<Path, PriorRow>)
    requires Accepted(prior, plan, ps, fingers, prior1) && p !in ps
    requires RowAccepted(plan, fingers, prior2, p) && forall q :: q != p ==> SameRow(prior1, prior2, q)
    ensures Accepted(prior, plan, ps + [p], fingers, prior2)
  {
    forall q | q in ps + [p] ensures RowAccepted(plan, fingers, prior2, q) {
      if q != p { assert q in ps && SameRow(prior1, prior2, q) && RowAccepted(plan, fingers, prior1, q); }
    }
    forall q | q !in ps + [p] ensures SameRow(prior, prior2, q) {
      assert q !in ps && q != p && SameRow(prior1, prior2, q) && SameRow(prior, prior1, q);
    }
  }

  /** Prior documents are the old ones or the stable ones; written objects have the stable one. */
  ghost predicate TextsAccepted(prior: Texts, stable: Texts, plan: Plan, ps: seq<Path>, prior': Texts) {
    && (forall o :: Doc(prior', o) == Doc(prior, o) || Doc(prior', o) == Doc(stable, o))
    && (forall p :: p in ps && p in plan && plan[p].WriteFile? ==> Doc(prior', plan[p].row.oid) == Doc(stable, plan[p].row.oid))
  }

  lemma {:induction false} CommitAcceptsTexts(t: Tables, plan: Plan, ps: seq<Path>, fingers: map<Path, Fingerprint>, now: int)
    requires PlanFor(t, plan) && forall p :: p in ps ==> p in plan && p in fingers
    ensures TextsAccepted(t.priorText, t.stableText, plan, ps, CommitActions(t, plan, ps, fingers, now).priorText)
  {
    if ps != [] {
      var k := |ps| - 1;
      CommitAcceptsTexts(t, plan, ps[..k], fingers, now);
      var t1, a := CommitActions(t, plan, ps[..k], fingers, now), plan[ps[k]];
      assert PlannedAt(t, plan, ps[k]);
      ActionFrame(t1, ps[k], a, fingers[ps[k]], now);
      if a.WriteFile? { AcceptTexts(t.priorText, t.stableText, plan, ps[..k], t1.priorText, a.row.oid, a.doc); }
      assert forall p :: p in ps <==> p in ps[..k] || p == ps[k];
    }
  }

  lemma AcceptTexts(prior: Texts, stable: Texts, plan: Plan, ps: seq<Path>, prior1: Texts, o: ObjectId, doc: TextDoc)
    requires TextsAccepted(prior, stable, plan, ps, prior1) && doc == Doc(stable, o)
    ensures TextsAccepted(prior, stable, plan, ps, prior1[o := doc]) && Doc(prior1[o := doc], o) == Doc(stable, o)
  {
    assert forall q :: Doc(prior1[o := doc], q) == if q == o then doc else Doc(prior1, q);
  }

  lemma {:induction false} CommitKeepsStable(t: Tables, plan: Plan, ps: seq<Path>, fingers: map<Path, Fingerprint>, now: int)
    requires forall p :: p in ps ==> p in plan && p in fingers
    ensures var t' := CommitActions(t, plan, ps, fingers, now);
      t'.stableTree == t.stableTree && t'.stableText == t.stableText
  {
    if ps != [] {
      var k := |ps| - 1;
      CommitKeepsStable(t, plan, ps[..k], fingers, now);
      ActionFrame(CommitActions(t, plan, ps[..k], fingers, now), ps[k], plan[ps[k]], fingers[ps[k]], now);
    }
  }

  /** `t'` is `t` with the actions `ps` committed. */
  ghost predicate Settles(t: Tables, plan: Plan, ps: seq<Path>, fingers: map<Path, Fingerprint>, t': Tables) {
    && PlanFor(t, plan) && (forall p :: p in plan <==> p in ps)
    && t'.stableTree == t.stableTree && t'.stableText == t.stableText
    && Accepted(t.priorTree, plan, ps, fingers, t'.priorTree)
    && TextsAccepted(t.priorText, t.stableText, plan, ps, t'.priorText)
  }

  /** After the commit every stable path is up to date and no other path is tracked. */
  lemma NothingLeftAt(t: Tables, plan: Plan, ps: seq<Path>, fingers: map<Path, Fingerprint>, t': Tables, p: Path)
    requires Settles(t, plan, ps, fingers, t')
    ensures if p in t.stableTree then UpToDate(t', p) else !IsLive(t'.priorTree, p)
  {
    assert PlannedAt(t, plan, p);
    if p in ps { assert RowAccepted(plan, fingers, t'.priorTree, p); } else { assert SameRow(t.priorTree, t'.priorTree, p); }
  }

  lemma NothingLeft(t: Tables, plan: Plan, ps: seq<Path>, fingers: map<Path, Fingerprint>, t': Tables)
    requires Settles(t, plan, ps, fingers, t')
    ensures PlanFor(t', map[])
  {
    forall p ensures PlannedAt(t', map[], p) { NothingLeftAt(t, plan, ps, fingers, t', p); }
  }

  lemma AgreesAt(env: Env, t: Tables, plan: Plan, d: Disk, ps: seq<Path>, d': Disk, done: map<Path, Performed>, fingers: map<Path, Fingerprint>, t': Tables, p: Path)
    requires Agrees(env, t, d) && Settles(t, plan, ps, fingers, t') && Progress(env, plan, d, ps, d', done)
    requires forall q :: q in ps && plan[q].WriteFile? ==> q in done && done[q] == Wrote(fingers[q])
    ensures p in t.stableTree ==> p in d'.files && d'.files[p].bytes == env.render(Doc(t.stableText, t.stableTree[p].oid))
    ensures p in t.stableTree ==> p in t'.priorTree && FingerOf(env.hash, d'.files[p]) == t'.priorTree[p].finger
    ensures p !in t.stableTree && IsLive(t.priorTree, p) ==> p !in d'.files
    ensures p !in t.stableTree && !IsLive(t.priorTree, p) ==> SameFile(d, d', p)
  {
    assert PlannedAt(t, plan, p);
    NothingLeftAt(t, plan, ps, fingers, t', p);
    if p in ps {
      assert RowAccepted(plan, fingers, t'.priorTree, p) && Achieved(env, d', p, plan[p], done[p]);
    } else {
      assert SameRow(t.priorTree, t'.priorTree, p) && SameFile(d, d', p);
    }
  }

  lemma AgreesAfter(env: Env, t: Tables, plan: Plan, d: Disk, ps: seq<Path>, d': Disk, done: map<Path, Performed>, fingers: map<Path, Fingerprint>, t': Tables)
    requires Agrees(env, t, d) && Settles(t, plan, ps, fingers, t') && Progress(env, plan, d, ps, d', done)
    requires forall q :: q in ps && plan[q].WriteFile? ==> q in done && done[q] == Wrote(fingers[q])
    ensures Agrees(env, t', d')
  {
    forall p | IsLive(t'.priorTree, p)
      ensures p in d'.files && FingerOf(env.hash, d'.files[p]) == t'.priorTree[p].finger
        && d'.files[p].bytes == env.render(Doc(t'.priorText, t'.priorTree[p].oid))
    {
      NothingLeftAt(t, plan, ps, fingers, t', p);
      AgreesAt(env, t, plan, d, ps, d', done, fingers, t', p);
    }
    forall p | p in t'.stableTree ensures IsLive(t'.priorTree, p) { NothingLeftAt(t, plan, ps, fingers, t', p); }
  }

  /** The fingerprints the writes of an executed plan reported. */
  ghost predicate Reported(plan: Plan, done: map<Path, Performed>, fingers: map<Path, Fingerprint>) {
    forall p :: p in plan ==> p in fingers && (plan[p].WriteFile? && p in done && done[p].Wrote? ==> done[p].finger == fingers[p])
  }

  /**
   * The fixpoint: on a disk that agrees with prior, executing the whole plan in any order
   * succeeds, makes every stable path hold its rendered text, removes the tracked paths
   * stable no longer has, and touches nothing else; after the commit the disk agrees with
   * prior again and there is no work left.
   */
  lemma Fixpoint(env: Env, t: Tables, d: Disk, ps: seq<Path>, fingers: map<Path, Fingerprint>, now: int)
    requires Agrees(env, t, d) && Distinct(ps) && (forall p :: p in PlanOf(t) <==> p in ps)
    requires Reported(PlanOf(t), Execute(env, d, PlanOf(t), ps).1, fingers)
    ensures var (d', done) := Execute(env, d, PlanOf(t), ps);
      var t' := CommitActions(t, PlanOf(t), ps, fingers, now);
      && Succeeded(done, PlanOf(t), fingers)
      && (forall p :: p in t.stableTree ==> p in d'.files && d'.files[p].bytes == env.render(Doc(t.stableText, t.stableTree[p].oid)))
      && (forall p :: p !in t.stableTree && IsLive(t.priorTree, p) ==> p !in d'.files)
      && (forall p :: p !in t.stableTree && !IsLive(t.priorTree, p) ==> SameFile(d, d', p))
      && PlanOf(t') == map[] && Agrees(env, t', d')
  {
    var plan := PlanOf(t);
    PlanByPath(t, plan);
    var (d', done) := Execute(env, d, plan, ps);
    var t' := CommitActions(t, plan, ps, fingers, now);
    ExecuteAchieves(env, t, plan, d, ps);
    CommitAccepts(t, plan, ps, fingers, now);
    CommitAcceptsTexts(t, plan, ps, fingers, now);
    CommitKeepsStable(t, plan, ps, fingers, now);
    Settled(env, t, plan, d, ps, d', done, fingers, t');
    PlanByPath(t', map[]);
  }

  lemma Settled(env: Env, t: Tables, plan: Plan, d: Disk, ps: seq<Path>, d': Disk, done: map<Path, Performed>, fingers: map<Path, Fingerprint>, t': Tables)
    requires Agrees(env, t, d) && Settles(t, plan, ps, fingers, t') && Progress(env, plan, d, ps, d', done)
    requires Reported(plan, done, fingers)
    ensures Succeeded(done, plan, fingers)
    ensures forall p :: p in t.stableTree ==> p in d'.files && d'.files[p].bytes == env.render(Doc(t.stableText, t.stableTree[p].oid))
    ensures forall p :: p !in t.stableTree && IsLive(t.priorTree, p) ==> p !in d'.files
    ensures forall p :: p !in t.stableTree && !IsLive(t.priorTree, p) ==> SameFile(d, d', p)
    ensures PlanFor(t', map[]) && Agrees(env, t', d')
  {
    forall p | p in ps ensures p in done && !done[p].Refused? && (plan[p].WriteFile? ==> done[p] == Wrote(fingers[p])) {
      assert Achieved(env, d', p, plan[p], done[p]);
    }
    NothingLeft(t, plan, ps, fingers, t');
    AgreesAfter(env, t, plan, d, ps, d', done, fingers, t');
    forall p
      ensures p in t.stableTree ==> p in d'.files && d'.files[p].bytes == env.render(Doc(t.stableText, t.stableTree[p].oid))
      ensures p !in t.stableTree && IsLive(t.priorTree, p) ==> p !in d'.files
      ensures p !in t.stableTree && !IsLive(t.priorTree, p) ==> SameFile(d, d', p)
    {
      AgreesAt(env, t, plan, d, ps, d', done, fingers, t', p);
    }
  }

  /** The tables a plan is made from, and the tables it is committed to: the same but for intents and the prior namespace. */
  ghost predicate SameWork(t: Tables, u: Tables) {
    && u.stableTree == t.stableTree && u.stableText == t.stableText
    && u.priorTree == t.priorTree && u.priorText == t.priorText
  }

  lemma WorkFrame(env: Env, t: Tables, u: Tables, d: Disk)
    requires SameWork(t, u)
    ensures PlanOf(u) == PlanOf(t) && (Agrees(env, t, d) ==> Agrees(env, u, d))
  {
    assert forall p :: p in t.stableTree ==> (UpToDate(t, p) <==> UpToDate(u, p));
    forall p ensures PlannedAt(u, PlanOf(t), p) {
      PlanByPath(t, PlanOf(t));
      assert PlannedAt(t, PlanOf(t), p);
    }
    PlanByPath(u, PlanOf(t));
  }

  /** A whole round from plan to commit: planning records intents, writes are recorded, then prior moves up. */
  lemma ProjectionRound(env: Env, t: Tables, u: Tables, d: Disk, ps: seq<Path>, fingers: map<Path, Fingerprint>, now: int)
    requires Agrees(env, t, d) && Distinct(ps) && (forall p :: p in PlanOf(t) <==> p in ps)
    requires SameWork(t, u) && Reported(PlanOf(t), Execute(env, d, PlanOf(t), ps).1, fingers)
    ensures var (d', done) := Execute(env, d, PlanOf(t), ps);
      var t' := CommitActions(u.(priorNs := t.stableNs), PlanOf(t), ps, fingers, now);
      && Succeeded(done, PlanOf(t), fingers)
      && (forall p :: p in t.stableTree ==> p in d'.files && d'.files[p].bytes == env.render(Doc(t.stableText, t.stableTree[p].oid)))
      && PlanOf(t') == map[] && Agrees(env, t', d')
  {
    WorkFrame(env, t, u.(priorNs := t.stableNs), d);
    Fixpoint(env, u.(priorNs := t.stableNs), d, ps, fingers, now);
  }
}
