/** Scheduled jobs and release activations exclude each other through advisory locks. Transactions take
    several steps, and the steps of different transactions interleave in any way. Paths are compared
    without case, so they are kept normalised here. */
module CronExclusion {
  import opened Collections

  type Id = string

  datatype Job = Job(project: Option<Id>, directory: string, running: bool)

  datatype Phase = Preparing | WaitingForCron | Activate | Health | Over

  datatype Deployment = Deployment(project: Id, phase: Phase)

  /** A transaction in progress. A claim read its job before it began; `wrote` is what its statement did:
      nothing yet, changed the row, or left it alone. */
  datatype Transaction =
    | Claim(job: Id, wanted: set<Id>, held: set<Id>, wrote: Option<bool>)
    | Activation(deployment: Id, project: Id, held: set<Id>, wrote: Option<bool>)

  datatype State = State(
    roots: map<Id, string>, jobs: map<Id, Job>, deployments: map<Id, Deployment>, open: map<Id, Transaction>)

  predicate Activated(d: Deployment) {
    d.phase.Activate? || d.phase.Health?
  }

  /** The job belongs to the project, or runs in its directory. */
  predicate Concerns(s: State, j: Job, project: Id) {
    j.project == Some(project) || (project in s.roots && s.roots[project] == j.directory)
  }

  /** The projects whose lock a claim takes. */
  function Owners(s: State, j: Job): set<Id> {
    if j.project.Some? then {j.project.value} else set p | p in s.roots && s.roots[p] == j.directory
  }

  predicate Clash(s: State, job: Id, deployment: Id) {
    && job in s.jobs && s.jobs[job].running
    && deployment in s.deployments && Activated(s.deployments[deployment])
    && Concerns(s, s.jobs[job], s.deployments[deployment].project)
  }

  /** No job of a project runs while a deployment of the project is being activated. */
  ghost predicate Exclusive(s: State) {
    forall job, deployment :: !Clash(s, job, deployment)
  }

  // ---- Steps ----

  datatype Event =
    | BeginClaim(id: Id, job: Id)
    | BeginActivation(id: Id, deployment: Id)
    | Lock(id: Id, project: Id)
    | Check(id: Id)
    | Commit(id: Id)
    | Rollback(id: Id)
    | Finish(job: Id)
    | Relocate(job: Id)
    | Recover
    | Deploy(deployment: Id, project: Id)
    | Proceed(deployment: Id, phase: Phase)

  predicate LockFree(s: State, project: Id) {
    forall id | id in s.open :: project !in s.open[id].held
  }

  predicate Complete(t: Transaction) {
    match t
    case Claim(_, wanted, held, _) => wanted <= held
    case Activation(_, project, held, _) => project in held
  }

  /** Another transaction has changed the row and not committed. */
  predicate RowLocked(s: State, job: Id) {
    exists id | id in s.open :: s.open[id].Claim? && s.open[id].job == job && s.open[id].wrote == Some(true)
  }

  predicate Enabled(s: State, e: Event) {
    match e
    case BeginClaim(id, job) => id !in s.open && job in s.jobs
    case BeginActivation(id, d) =>
      id !in s.open && d in s.deployments && (s.deployments[d].phase.Preparing? || s.deployments[d].phase.WaitingForCron?)
    case Lock(id, project) => id in s.open && s.open[id].wrote.None? && LockFree(s, project) && project in Wants(s.open[id])
    case Check(id) =>
      && id in s.open && s.open[id].wrote.None? && Complete(s.open[id])
      && (s.open[id].Claim? ==> !RowLocked(s, s.open[id].job))
    case Commit(id) => id in s.open && s.open[id].wrote.Some?
    case Rollback(id) => id in s.open
    case Finish(job) => job in s.jobs && s.jobs[job].running
    case Relocate(job) =>
      job in s.jobs && s.jobs[job].running && s.jobs[job].project.Some? && s.jobs[job].project.value in s.roots
    case Recover => true
    case Deploy(d, project) => d !in s.deployments && project in s.roots
    case Proceed(d, phase) =>
      d in s.deployments &&
      match phase
      case WaitingForCron => s.deployments[d].phase.Preparing?
      case Health => s.deployments[d].phase.Activate?
      case Over => true
      case _ => false
  }

  function Wants(t: Transaction): set<Id> {
    match t case Claim(_, wanted, _, _) => wanted case Activation(_, project, _, _) => {project}
  }

  /** The claim's statement: the job must not run, and no deployment that concerns it be activated. */
  predicate MayRun(s: State, job: Id) {
    Unhindered(s, job) && !s.jobs[job].running
  }

  predicate Unhindered(s: State, job: Id) {
    && job in s.jobs
    && forall d | d in s.deployments && Activated(s.deployments[d]) :: !Concerns(s, s.jobs[job], s.deployments[d].project)
  }

  /** The activation's query: no job that concerns the project may run. */
  predicate MayActivate(s: State, project: Id) {
    forall job | job in s.jobs && s.jobs[job].running :: !Concerns(s, s.jobs[job], project)
  }

  function Checked(s: State, t: Transaction): Transaction {
    match t
    case Claim(job, wanted, held, _) => Claim(job, wanted, held, Some(MayRun(s, job)))
    case Activation(d, project, held, _) => Activation(d, project, held, Some(MayActivate(s, project)))
  }

  function Committed(s: State, t: Transaction): State {
    match t
    case Claim(job, _, _, wrote) =>
      if wrote == Some(true) && job in s.jobs then s.(jobs := s.jobs[job := s.jobs[job].(running := true)]) else s
    case Activation(d, _, _, wrote) =>
      if wrote == Some(true) && d in s.deployments then
        s.(deployments := s.deployments[d := s.deployments[d].(phase := Activate)])
      else s
  }

  function Step(s: State, e: Event): State
    requires Enabled(s, e)
  {
    match e
    case BeginClaim(id, job) => s.(open := s.open[id := Claim(job, Owners(s, s.jobs[job]), {}, None)])
    case BeginActivation(id, d) => s.(open := s.open[id := Activation(d, s.deployments[d].project, {}, None)])
    case Lock(id, project) => s.(open := s.open[id := s.open[id].(held := s.open[id].held + {project})])
    case Check(id) => s.(open := s.open[id := Checked(s, s.open[id])])
    case Commit(id) => Committed(s.(open := s.open - {id}), s.open[id])
    case Rollback(id) => s.(open := s.open - {id})
    case Finish(job) => s.(jobs := s.jobs[job := s.jobs[job].(running := false)])
    case Relocate(job) =>
      s.(jobs := s.jobs[job := s.jobs[job].(directory := s.roots[s.jobs[job].project.value])])
    case Recover => s.(jobs := map job | job in s.jobs :: s.jobs[job].(running := false))
    case Deploy(d, project) => s.(deployments := s.deployments[d := Deployment(project, Preparing)])
    case Proceed(d, phase) => s.(deployments := s.deployments[d := s.deployments[d].(phase := phase)])
  }

  /** A run from `s` that ends in `t`. */
  ghost predicate Run(s: State, es: seq<Event>, t: State)
    decreases |es|
  {
    if es == [] then t == s else Enabled(s, es[0]) && Run(Step(s, es[0]), es[1..], t)
  }

  ghost predicate Reachable(s: State, t: State) {
    exists es :: Run(s, es, t)
  }

  // ---- Configurations ----

  /** Another project has the directory of the job, now or once it is moved to its project's root. */
  predicate Astray(s: State, job: Id, other: Id) {
    && job in s.jobs && s.jobs[job].project.Some? && s.jobs[job].project.value != other && other in s.roots
    && (s.roots[other] == s.jobs[job].directory ||
        (s.jobs[job].project.value in s.roots && s.roots[other] == s.roots[s.jobs[job].project.value]))
  }

  /** No job bound to a project has the root of another one as its directory. */
  ghost predicate Tidy(s: State) {
    forall job, other :: !Astray(s, job, other)
  }

  /** Nothing runs and no transaction is open. */
  ghost predicate Quiet(s: State) {
    && s.open == map[] && (forall job | job in s.jobs :: !s.jobs[job].running)
    && (forall job | job in s.jobs && s.jobs[job].project.Some? :: s.jobs[job].project.value in s.roots)
    && s.deployments == map[]
  }

  // ---- The invariant ----

  /** A claim locks every project that concerns its job. */
  ghost predicate WantsAll(s: State, t: Transaction) {
    t.Claim? ==> t.job in s.jobs && forall p | p in s.roots && Concerns(s, s.jobs[t.job], p) :: p in t.wanted
  }

  /** What a transaction that has checked and not committed can rely on. */
  ghost predicate Relies(s: State, t: Transaction) {
    t.wrote == Some(true) ==>
      && Complete(t)
      && match t
         case Claim(job, _, _, _) => Unhindered(s, job)
         case Activation(d, project, _, _) =>
           MayActivate(s, project) && d in s.deployments && s.deployments[d].project == project
  }

  ghost predicate TransactionSound(s: State, t: Transaction) {
    && WantsAll(s, t) && Relies(s, t)
    && (t.Activation? ==> t.deployment in s.deployments && s.deployments[t.deployment].project == t.project)
  }

  ghost predicate LocksExclusive(s: State) {
    forall a, b, p | a in s.open && b in s.open && p in s.open[a].held && p in s.open[b].held :: a == b
  }

  ghost predicate Inv(s: State) {
    && Tidy(s) && Exclusive(s) && LocksExclusive(s)
    && (forall id | id in s.open :: TransactionSound(s, s.open[id]))
    && (forall d | d in s.deployments :: s.deployments[d].project in s.roots)
  }

  lemma BeginningKeeps(s: State, e: Event)
    requires Inv(s) && Enabled(s, e) && (e.BeginClaim? || e.BeginActivation? || e.Rollback?)
    ensures Inv(Step(s, e))
  {
    var s' := Step(s, e);
    assert forall job, d :: Clash(s', job, d) ==> Clash(s, job, d);
    assert forall job, other :: Astray(s', job, other) ==> Astray(s, job, other);
    if e.BeginClaim? {
      forall p | p in s.roots && Concerns(s, s.jobs[e.job], p)
        ensures p in Owners(s, s.jobs[e.job])
      {
        assert !Astray(s, e.job, p);
      }
    }
    forall id | id in s'.open
      ensures TransactionSound(s', s'.open[id])
    {
      if id in s.open { SoundStays(s, s', s.open[id]); }
    }
  }

  /** Opening, closing and locking change no row. */
  lemma SoundStays(s: State, s': State, t: Transaction)
    requires TransactionSound(s, t) && s'.jobs == s.jobs && s'.roots == s.roots && s'.deployments == s.deployments
    ensures TransactionSound(s', t)
  {
  }

  lemma LockingKeeps(s: State, id: Id, project: Id)
    requires Inv(s) && Enabled(s, Lock(id, project))
    ensures Inv(Step(s, Lock(id, project)))
  {
    var s' := Step(s, Lock(id, project));
    assert forall job, d :: Clash(s', job, d) ==> Clash(s, job, d);
    assert forall job, other :: Astray(s', job, other) ==> Astray(s, job, other);
    forall x | x in s'.open
      ensures TransactionSound(s', s'.open[x])
    {
      SoundStays(s, s', s.open[x]);
    }
    forall a, b, p | a in s'.open && b in s'.open && p in s'.open[a].held && p in s'.open[b].held
      ensures a == b
    {
      if p != project {
        assert p in s.open[a].held && p in s.open[b].held;
      }
    }
  }

  lemma CheckingKeeps(s: State, id: Id)
    requires Inv(s) && Enabled(s, Check(id))
    ensures Inv(Step(s, Check(id)))
  {
    var s' := Step(s, Check(id));
    assert forall job, d :: Clash(s', job, d) ==> Clash(s, job, d);
    assert forall job, other :: Astray(s', job, other) ==> Astray(s, job, other);
    forall x | x in s'.open
      ensures TransactionSound(s', s'.open[x])
    {
      SoundStays(s, s', s.open[x]);
    }
    forall a, b, p | a in s'.open && b in s'.open && p in s'.open[a].held && p in s'.open[b].held
      ensures a == b
    {
      assert p in s.open[a].held && p in s.open[b].held;
    }
  }

  lemma NotAround(s: State, job: Id, d: Id)
    requires Unhindered(s, job) && d in s.deployments && Activated(s.deployments[d])
    ensures !Concerns(s, s.jobs[job], s.deployments[d].project)
  {
  }

  /** A job starts to run: no activation under way can have missed it, because both need the same lock. */
  lemma ClaimCommitKeeps(s: State, id: Id)
    requires Inv(s) && id in s.open && s.open[id].Claim? && s.open[id].wrote == Some(true)
    ensures Inv(Step(s, Commit(id)))
  {
    var t, s' := s.open[id], Step(s, Commit(id));
    assert TransactionSound(s, t);
    assert forall job, other :: Astray(s', job, other) ==> Astray(s, job, other);
    forall job, d | Clash(s', job, d)
      ensures Clash(s, job, d)
    {
      NotAround(s, t.job, d);
    }
    forall x | x in s'.open
      ensures TransactionSound(s', s'.open[x])
    {
      ClaimCommitRespects(s, id, x);
    }
  }

  lemma ClaimCommitRespects(s: State, id: Id, other: Id)
    requires Inv(s) && id in s.open && s.open[id].Claim? && s.open[id].wrote == Some(true)
    requires other in s.open && other != id
    ensures TransactionSound(Step(s, Commit(id)), s.open[other])
  {
    var t, u := s.open[id], s.open[other];
    assert TransactionSound(s, t) && TransactionSound(s, u);
    if u.Activation? && u.wrote == Some(true) {
      assert u.project in s.roots;
      assert u.project in u.held && u.project !in t.held;
      assert !Concerns(s, s.jobs[t.job], u.project);
    }
  }

  /** A deployment is activated: no claim under way can have missed it. */
  lemma ActivationCommitKeeps(s: State, id: Id)
    requires Inv(s) && id in s.open && s.open[id].Activation? && s.open[id].wrote == Some(true)
    ensures Inv(Step(s, Commit(id)))
  {
    var t, s' := s.open[id], Step(s, Commit(id));
    assert TransactionSound(s, t);
    assert forall job, other :: Astray(s', job, other) ==> Astray(s, job, other);
    forall job, d | Clash(s', job, d)
      ensures Clash(s, job, d)
    {
      assert d == t.deployment ==> !Concerns(s, s.jobs[job], t.project);
    }
    forall x | x in s'.open
      ensures TransactionSound(s', s'.open[x])
    {
      ActivationCommitRespects(s, id, x);
    }
  }

  lemma ActivationCommitRespects(s: State, id: Id, other: Id)
    requires Inv(s) && id in s.open && s.open[id].Activation? && s.open[id].wrote == Some(true)
    requires other in s.open && other != id
    ensures TransactionSound(Step(s, Commit(id)), s.open[other])
  {
    var t, u := s.open[id], s.open[other];
    assert TransactionSound(s, t) && TransactionSound(s, u);
    if u.Claim? && u.wrote == Some(true) {
      assert t.project in s.roots;
      assert t.project in t.held && t.project !in u.held;
      assert !Concerns(s, s.jobs[u.job], t.project);
    }
  }

  /** Rows whose changes only make fewer things run, or concern fewer projects. */
  ghost predicate Calmer(s: State, s': State) {
    && s'.roots == s.roots && s'.open == s.open && s'.jobs.Keys == s.jobs.Keys
    && s.deployments.Keys <= s'.deployments.Keys
    && (forall job | job in s.jobs :: s'.jobs[job].running ==> s.jobs[job].running)
    && (forall job | job in s.jobs :: s'.jobs[job].project == s.jobs[job].project)
    && (forall job, p | job in s.jobs && Concerns(s', s'.jobs[job], p) :: Concerns(s, s.jobs[job], p))
    && (forall d | d in s.deployments :: s'.deployments[d].project == s.deployments[d].project)
    && (forall d | d in s'.deployments && Activated(s'.deployments[d]) :: d in s.deployments && Activated(s.deployments[d]))
    && (forall d | d in s'.deployments :: s'.deployments[d].project in s.roots)
  }

  lemma CalmerKeeps(s: State, s': State)
    requires Inv(s) && Calmer(s, s')
    requires forall job, other :: Astray(s', job, other) ==> Astray(s, job, other)
    ensures Inv(s')
  {
    forall job, d | Clash(s', job, d)
      ensures Clash(s, job, d)
    {
      assert Concerns(s, s.jobs[job], s.deployments[d].project);
    }
    forall id | id in s'.open
      ensures TransactionSound(s', s'.open[id])
    {
      CalmerRespects(s, s', s.open[id]);
    }
  }

  lemma CalmerRespects(s: State, s': State, t: Transaction)
    requires Calmer(s, s') && TransactionSound(s, t)
    ensures TransactionSound(s', t)
  {
    if t.wrote == Some(true) {
      match t
      case Claim(job, _, _, _) =>
        forall d | d in s'.deployments && Activated(s'.deployments[d])
          ensures !Concerns(s', s'.jobs[job], s'.deployments[d].project)
        {
          assert !Concerns(s, s.jobs[job], s.deployments[d].project);
        }
      case Activation(_, project, _, _) =>
        forall job | job in s'.jobs && s'.jobs[job].running
          ensures !Concerns(s', s'.jobs[job], project)
        {
          assert !Concerns(s, s.jobs[job], project);
        }
    }
  }

  lemma RelocatingKeeps(s: State, job: Id)
    requires Inv(s) && Enabled(s, Relocate(job))
    ensures Inv(Step(s, Relocate(job)))
  {
    var s' := Step(s, Relocate(job));
    forall p | Concerns(s', s'.jobs[job], p)
      ensures Concerns(s, s.jobs[job], p)
    {
      assert !Astray(s, job, p);
    }
    CalmerKeeps(s, s');
  }

  lemma CalmingKeeps(s: State, e: Event)
    requires Inv(s) && Enabled(s, e) && (e.Finish? || e.Recover? || e.Deploy? || e.Proceed?)
    ensures Inv(Step(s, e))
  {
    var s' := Step(s, e);
    assert forall job, other :: Astray(s', job, other) ==> Astray(s, job, other);
    CalmerKeeps(s, s');
  }

  lemma StepKeeps(s: State, e: Event)
    requires Inv(s) && Enabled(s, e)
    ensures Inv(Step(s, e))
  {
    match e
    case BeginClaim(_, _) => BeginningKeeps(s, e);
    case BeginActivation(_, _) => BeginningKeeps(s, e);
    case Rollback(_) => BeginningKeeps(s, e);
    case Lock(id, project) => LockingKeeps(s, id, project);
    case Check(id) => CheckingKeeps(s, id);
    case Commit(id) =>
      if s.open[id].wrote == Some(true) {
        assert TransactionSound(s, s.open[id]);
        if s.open[id].Claim? { ClaimCommitKeeps(s, id); } else { ActivationCommitKeeps(s, id); }
      } else {
        BeginningKeeps(s, Rollback(id));
      }
    case Relocate(job) => RelocatingKeeps(s, job);
    case _ => CalmingKeeps(s, e);
  }

  lemma {:induction false} RunsKeep(s: State, es: seq<Event>, t: State)
    requires Inv(s) && Run(s, es, t)
    ensures Inv(t)
    decreases |es|
  {
    if es != [] {
      StepKeeps(s, es[0]);
      RunsKeep(Step(s, es[0]), es[1..], t);
    }
  }

  // ---- Exactly when it holds ----

  lemma First(s: State, e: Event, t: State)
    requires Enabled(s, e) && Reachable(Step(s, e), t)
    ensures Reachable(s, t)
  {
    var es :| Run(Step(s, e), es, t);
    assert ([e] + es)[1..] == es;
    assert Run(s, [e] + es, t);
  }

  lemma {:induction false} ReachableFrom(s: State, es: seq<Event>, m: State, t: State)
    requires Run(s, es, m) && Reachable(m, t)
    ensures Reachable(s, t)
    decreases |es|
  {
    if es != [] {
      ReachableFrom(Step(s, es[0]), es[1..], m, t);
      First(s, es[0], t);
    }
  }

  lemma Here(t: State)
    ensures Reachable(t, t)
  {
    assert Run(t, [], t);
  }

  /** The state of the race: the claim has its answer, and the other project's deployment waits. */
  function Racing(s: State, job: Id, own: Id, other: Id): State {
    State(s.roots, s.jobs, map["release" := Deployment(other, Preparing)],
          map["claim" := Claim(job, {own}, {own}, Some(true))])
  }

  lemma RaceStarts(s: State, job: Id, other: Id)
    requires Quiet(s) && Astray(s, job, other)
    ensures Reachable(s, Racing(s, job, s.jobs[job].project.value, other))
  {
    var own := s.jobs[job].project.value;
    var s1 := Step(s, Deploy("release", other));
    var s2 := Step(s1, BeginClaim("claim", job));
    var s3 := Step(s2, Lock("claim", own));
    assert s3.open["claim"] == Claim(job, {own}, {own}, None);
    var s4 := Step(s3, Check("claim"));
    assert s4 == Racing(s, job, own, other);
    Here(s4);
    First(s3, Check("claim"), s4);
    First(s2, Lock("claim", own), s4);
    First(s1, BeginClaim("claim", job), s4);
    First(s, Deploy("release", other), s4);
  }

  lemma RaceEnds(s: State, job: Id, own: Id, other: Id)
    requires job in s.jobs && own != other && other in s.roots && s.roots[other] == s.jobs[job].directory
    requires forall x | x in s.jobs :: !s.jobs[x].running
    ensures exists t :: Reachable(Racing(s, job, own, other), t) && Clash(t, job, "release")
  {
    var s0 := Racing(s, job, own, other);
    var s1 := Step(s0, BeginActivation("activation", "release"));
    var s2 := Step(s1, Lock("activation", other));
    assert s2.open["activation"] == Activation("release", other, {other}, None);
    var s3 := Step(s2, Check("activation"));
    assert s3.open["activation"].wrote == Some(true) && s3.open["claim"] == s0.open["claim"];
    var s4 := Step(s3, Commit("claim"));
    assert "activation" in s4.open && s4.open["activation"] == s3.open["activation"];
    var s5 := Step(s4, Commit("activation"));
    assert Clash(s5, job, "release");
    Here(s5);
    First(s4, Commit("activation"), s5);
    First(s3, Commit("claim"), s5);
    First(s2, Check("activation"), s5);
    First(s1, Lock("activation", other), s5);
    First(s0, BeginActivation("activation", "release"), s5);
  }

  /** A job bound to one project, in the directory of another, can start between the question and the commit
      of that one's activation: they take different locks. */
  lemma StrayJobClashes(s: State, job: Id, other: Id)
    requires Quiet(s) && Astray(s, job, other) && s.roots[other] == s.jobs[job].directory
    ensures exists t :: Reachable(s, t) && Clash(t, job, "release")
  {
    var own := s.jobs[job].project.value;
    RaceStarts(s, job, other);
    RaceEnds(s, job, own, other);
    var t :| Reachable(Racing(s, job, own, other), t) && Clash(t, job, "release");
    var es :| Run(s, es, Racing(s, job, own, other));
    ReachableFrom(s, es, Racing(s, job, own, other), t);
  }

  /** Running a job once moves it to the root of its project. */
  lemma JobGoesHome(s: State, job: Id)
    requires Quiet(s) && job in s.jobs && s.jobs[job].project.Some?
    ensures Reachable(s, s.(jobs := s.jobs[job := s.jobs[job].(directory := s.roots[s.jobs[job].project.value])]))
  {
    var own := s.jobs[job].project.value;
    var s1 := Step(s, BeginClaim("claim", job));
    var s2 := Step(s1, Lock("claim", own));
    assert s2.open["claim"] == Claim(job, {own}, {own}, None);
    var s3 := Step(s2, Check("claim"));
    assert s3.open["claim"].wrote == Some(true);
    var s4 := Step(s3, Commit("claim"));
    var s5 := Step(s4, Relocate(job));
    var s6 := Step(s5, Finish(job));
    assert s6 == s.(jobs := s.jobs[job := s.jobs[job].(directory := s.roots[own])]) by {
      assert s6.open == map[];
    }
    Here(s6);
    First(s5, Finish(job), s6);
    First(s4, Relocate(job), s6);
    First(s3, Commit("claim"), s6);
    First(s2, Check("claim"), s6);
    First(s1, Lock("claim", own), s6);
    First(s, BeginClaim("claim", job), s6);
  }

  lemma UntidyClashes(s: State, job: Id, other: Id)
    requires Quiet(s) && Astray(s, job, other)
    ensures exists t :: Reachable(s, t) && !Exclusive(t)
  {
    if s.roots[other] == s.jobs[job].directory {
      StrayJobClashes(s, job, other);
      var t :| Reachable(s, t) && Clash(t, job, "release");
      assert !Exclusive(t);
    } else {
      var home := s.(jobs := s.jobs[job := s.jobs[job].(directory := s.roots[s.jobs[job].project.value])]);
      JobGoesHome(s, job);
      assert Quiet(home) && Astray(home, job, other);
      StrayJobClashes(home, job, other);
      var t :| Reachable(home, t) && Clash(t, job, "release");
      var es :| Run(s, es, home);
      ReachableFrom(s, es, home, t);
      assert !Exclusive(t);
    }
  }

  /** Starting with nothing running, jobs and activations exclude each other in every interleaving exactly
      when no job bound to a project has another project's root as its directory. */
  lemma ExclusionHoldsExactlyWhenTidy(s: State)
    requires Quiet(s)
    ensures (forall t | Reachable(s, t) :: Exclusive(t)) <==> Tidy(s)
  {
    if Tidy(s) {
      forall t | Reachable(s, t)
        ensures Exclusive(t)
      {
        var es :| Run(s, es, t);
        RunsKeep(s, es, t);
      }
    } else {
      var job, other :| Astray(s, job, other);
      UntidyClashes(s, job, other);
    }
  }

  /** Said of the rows: no job runs while a deployment is in its last two phases whose project is the job's own or
      has the job's directory as its root. */
  lemma TidyMeansNoOverlap(s: State, t: State, job: Id, d: Id)
    requires Quiet(s) && Tidy(s) && Reachable(s, t)
    requires job in t.jobs && t.jobs[job].running && d in t.deployments && t.deployments[d].phase in {Activate, Health}
    ensures t.jobs[job].project != Some(t.deployments[d].project)
    ensures t.deployments[d].project in t.roots ==> t.roots[t.deployments[d].project] != t.jobs[job].directory
  {
    var es :| Run(s, es, t);
    RunsKeep(s, es, t);
    assert !Clash(t, job, d);
  }

  // ---- No job runs twice at a time ----

  /** The claim has marked its job as running and not committed. */
  predicate Marks(s: State, id: Id) {
    id in s.open && s.open[id].Claim? && s.open[id].wrote == Some(true)
  }

  /** A job that is about to start does not run, and no other claim is about to start it. */
  ghost predicate StartsOnce(s: State) {
    && (forall id | Marks(s, id) :: s.open[id].job in s.jobs && !s.jobs[s.open[id].job].running)
    && (forall a, b | Marks(s, a) && Marks(s, b) && s.open[a].job == s.open[b].job :: a == b)
  }

  lemma StepStartsOnce(s: State, e: Event)
    requires StartsOnce(s) && Enabled(s, e)
    ensures StartsOnce(Step(s, e))
  {
    var s' := Step(s, e);
    forall id | Marks(s', id)
      ensures Marks(s, id) || e == Check(id)
      ensures s'.open[id].job in s'.jobs && !s'.jobs[s'.open[id].job].running
    {
      if Marks(s, id) {
        assert s'.open[id].job == s.open[id].job;
        if e.Commit? && Marks(s, e.id) { assert e.id != id; }
      }
    }
    forall a, b | Marks(s', a) && Marks(s', b) && s'.open[a].job == s'.open[b].job
      ensures a == b
    {
      if e.Check? && Marks(s', e.id) && !Marks(s, e.id) { assert !RowLocked(s, s.open[e.id].job); }
    }
  }

  lemma {:induction false} RunsStartOnce(s: State, es: seq<Event>, t: State)
    requires StartsOnce(s) && Run(s, es, t)
    ensures StartsOnce(t)
    decreases |es|
  {
    if es != [] {
      StepStartsOnce(s, es[0]);
      RunsStartOnce(Step(s, es[0]), es[1..], t);
    }
  }

  /** In every interleaving, a claim that goes through starts a job that was not running. */
  lemma NoJobStartsTwice(s: State, t: State, id: Id)
    requires Quiet(s) && Reachable(s, t) && Enabled(t, Commit(id)) && t.open[id].Claim? && t.open[id].wrote == Some(true)
    ensures var job := t.open[id].job;
      && job in t.jobs && !t.jobs[job].running
      && Step(t, Commit(id)).jobs == t.jobs[job := t.jobs[job].(running := true)]
  {
    var es :| Run(s, es, t);
    RunsStartOnce(s, es, t);
    assert Marks(t, id);
  }

  // ---- And what nothing stands in the way of happens ----

  /** Takes the locks of the transaction that are still missing. */
  lemma {:induction false} LocksAreTaken(s: State, id: Id, missing: set<Id>) returns (t: State)
    requires id in s.open && s.open[id].wrote == None && missing <= Wants(s.open[id])
    requires forall x, p | x in s.open && p in missing :: p !in s.open[x].held
    ensures Reachable(s, t) && id in t.open && t == s.(open := s.open[id := t.open[id]])
    ensures t.open[id] == s.open[id].(held := s.open[id].held + missing)
    decreases missing
  {
    if missing == {} {
      t := s;
      Here(s);
      assert s.open[id].(held := s.open[id].held + missing) == s.open[id];
    } else {
      var p :| p in missing;
      var next := Step(s, Lock(id, p));
      t := LocksAreTaken(next, id, missing - {p});
      First(s, Lock(id, p), t);
      assert (s.open[id].held + {p}) + (missing - {p}) == s.open[id].held + missing;
    }
  }

  /** With nobody else at work a job that does not run, and that no activation concerns, starts. */
  lemma JobCanStart(s: State, id: Id, job: Id)
    requires s.open == map[] && job in s.jobs && !s.jobs[job].running
    requires forall d | d in s.deployments && s.deployments[d].phase in {Activate, Health} ::
               && s.jobs[job].project != Some(s.deployments[d].project)
               && (s.deployments[d].project in s.roots ==> s.roots[s.deployments[d].project] != s.jobs[job].directory)
    ensures Reachable(s, s.(jobs := s.jobs[job := s.jobs[job].(running := true)]))
  {
    var begun := Step(s, BeginClaim(id, job));
    var wanted := Owners(s, s.jobs[job]);
    var locked := LocksAreTaken(begun, id, wanted);
    var checked := Step(locked, Check(id));
    assert checked.open[id].wrote == Some(true);
    var done := Step(checked, Commit(id));
    assert done.open == s.open;
    assert done == s.(jobs := s.jobs[job := s.jobs[job].(running := true)]);
    Here(done);
    First(checked, Commit(id), done);
    First(locked, Check(id), done);
    Then(begun, locked, done);
    First(s, BeginClaim(id, job), done);
  }

  /** And a deployment that waits is activated, once no job that concerns its project runs. */
  lemma DeploymentCanActivate(s: State, id: Id, d: Id)
    requires s.open == map[] && d in s.deployments && s.deployments[d].phase in {Preparing, WaitingForCron}
    requires forall job | job in s.jobs && s.jobs[job].running ::
               && s.jobs[job].project != Some(s.deployments[d].project)
               && (s.deployments[d].project in s.roots ==> s.roots[s.deployments[d].project] != s.jobs[job].directory)
    ensures Reachable(s, s.(deployments := s.deployments[d := s.deployments[d].(phase := Activate)]))
  {
    var begun := Step(s, BeginActivation(id, d));
    var locked := LocksAreTaken(begun, id, {s.deployments[d].project});
    var checked := Step(locked, Check(id));
    assert checked.open[id].wrote == Some(true);
    var done := Step(checked, Commit(id));
    assert done.open == s.open;
    assert done == s.(deployments := s.deployments[d := s.deployments[d].(phase := Activate)]);
    Here(done);
    First(checked, Commit(id), done);
    First(locked, Check(id), done);
    Then(begun, locked, done);
    First(s, BeginActivation(id, d), done);
  }

  lemma Then(s: State, m: State, t: State)
    requires Reachable(s, m) && Reachable(m, t)
    ensures Reachable(s, t)
  {
    var es :| Run(s, es, m);
    ReachableFrom(s, es, m, t);
  }

  /** A restart of the manager frees every job that was left running, and a deployment that is over is in nobody's
      way. */
  lemma RecoveryFreesEveryJob(s: State, job: Id, d: Id)
    requires job in s.jobs && d in s.deployments
    ensures Step(s, Recover) == s.(jobs := Step(s, Recover).jobs) && Step(s, Recover).jobs.Keys == s.jobs.Keys
    ensures Step(s, Recover).jobs[job] == s.jobs[job].(running := false)
    ensures Enabled(s, Proceed(d, Over))
    ensures Step(s, Proceed(d, Over)) == s.(deployments := s.deployments[d := s.deployments[d].(phase := Over)])
  {
  }
}
