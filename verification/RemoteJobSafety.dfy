/** What every run of the remote job protocol keeps. */
module RemoteJobSafety {
  import opened Collections
  import opened RemoteJobRows

  // ---- The invariant ----

  /** A payload is present exactly while the job is queued or running, and a token once it was claimed. */
  predicate JobSound(j: Job) {
    && (j.payload.Some? <==> Active(j))
    && (j.status.Queued? ==> j.token.None? && j.sequence == 0)
    && (j.status.Running? ==> j.token.Some?)
    && j.sequence >= 0
  }

  /** The job belongs to an application of its server, and it is only active while the server is enabled. */
  predicate JobPlaced(w: World, j: Job) {
    && j.server in w.servers && j.app in w.apps && w.apps[j.app].server == j.server
    && (Active(j) ==> w.servers[j.server].enabled)
  }

  ghost predicate EachSound(w: World) {
    forall id | id in w.jobs :: JobSound(w.jobs[id]) && JobPlaced(w, w.jobs[id])
  }

  ghost predicate OneRunningPerServer(w: World) {
    forall server, a, b | RunsOn(w, server, a) && RunsOn(w, server, b) :: a == b
  }

  predicate ActiveFor(w: World, app: Id, id: Id) {
    id in w.jobs && w.jobs[id].app == app && Active(w.jobs[id])
  }

  ghost predicate OneActivePerApp(w: World) {
    forall app, a, b | ActiveFor(w, app, a) && ActiveFor(w, app, b) :: a == b
  }

  /** A revoked server has no credentials left; an enrolled one has no enrollment token. */
  predicate ServerSound(s: Server) {
    && (!s.enabled ==> s.agent.None? && s.enrollment.None?)
    && (s.enrolled ==> s.enrollment.None?)
  }

  ghost predicate ServersSound(w: World) {
    forall id | id in w.servers :: ServerSound(w.servers[id])
  }

  ghost predicate Inv(w: World) {
    EachSound(w) && OneRunningPerServer(w) && OneActivePerApp(w) && ServersSound(w)
  }

  // ---- What never goes back ----

  predicate Final(j: Job) {
    !Active(j)
  }

  /** What can become of a job: final states are never left, a token is set once, reports only go forward,
      and without an accepted report a running job stays as it is. */
  predicate JobEvolves(a: Job, b: Job) {
    && a.server == b.server && a.app == b.app && a.kind == b.kind && a.created == b.created
    && (Final(a) ==> b == a)
    && (a.token.Some? ==> b.token == a.token)
    && (b.payload.Some? ==> b.payload == a.payload)
    && (b.status.Queued? ==> a == b)
    && a.sequence <= b.sequence
    && (a.status.Running? && b.status.Running? && a.sequence == b.sequence ==> a == b)
  }

  ghost predicate JobsEvolve(w: World, w': World) {
    forall id | id in w.jobs :: id in w'.jobs && JobEvolves(w.jobs[id], w'.jobs[id])
  }

  /** A server is never enabled again, and the agent that enrolled it first keeps it. */
  predicate ServerEvolves(a: Server, b: Server) {
    && a.platform == b.platform
    && (!a.enabled ==> !b.enabled)
    && (a.enrolled ==> b.enrolled)
    && (a.enrolled && b.enabled ==> b.agent == a.agent)
  }

  ghost predicate ServersEvolve(w: World, w': World) {
    forall id | id in w.servers :: id in w'.servers && ServerEvolves(w.servers[id], w'.servers[id])
  }

  ghost predicate AppsEvolve(w: World, w': World) {
    forall id | id in w.apps :: id in w'.apps && w'.apps[id].server == w.apps[id].server
  }

  ghost predicate Evolves(w: World, w': World) {
    JobsEvolve(w, w') && ServersEvolve(w, w') && AppsEvolve(w, w')
  }

  lemma EvolvesTransitive(a: World, b: World, c: World)
    requires Evolves(a, b) && Evolves(b, c)
    ensures Evolves(a, c)
  {
    assert JobsEvolve(a, c) by {
      forall id | id in a.jobs
        ensures id in c.jobs && JobEvolves(a.jobs[id], c.jobs[id])
      {
        assert JobEvolves(a.jobs[id], b.jobs[id]) && JobEvolves(b.jobs[id], c.jobs[id]);
      }
    }
  }

  lemma Unchanged(w: World)
    ensures Evolves(w, w)
  {
  }

  // ---- One step ----

  /** Replacing one row by one that evolved from it, without making it more active than it was. */
  predicate Tamer(a: Job, b: Job) {
    && JobEvolves(a, b) && JobSound(b)
    && (Active(b) ==> Active(a)) && (b.status.Running? ==> a.status.Running?)
  }

  lemma TamerKeeps(w: World, id: Id, b: Job)
    requires Inv(w) && id in w.jobs && Tamer(w.jobs[id], b)
    ensures Inv(WithJob(w, id, b)) && Evolves(w, WithJob(w, id, b))
  {
    var w' := WithJob(w, id, b);
    forall server, x | RunsOn(w', server, x)
      ensures RunsOn(w, server, x)
    {
    }
    forall app, x | ActiveFor(w', app, x)
      ensures ActiveFor(w, app, x)
    {
    }
    assert EachSound(w') by {
      forall x | x in w'.jobs
        ensures JobSound(w'.jobs[x]) && JobPlaced(w', w'.jobs[x])
      {
        assert JobPlaced(w, w.jobs[x]);
      }
    }
  }

  lemma TakingKeeps(w: World, id: Id, token: Token)
    requires Inv(w) && id in w.jobs && w.jobs[id].status.Queued? && Idle(w, w.jobs[id].server)
    ensures var w' := WithJob(w, id, Taken(w.jobs[id], token)); Inv(w') && Evolves(w, w')
  {
    var w' := WithJob(w, id, Taken(w.jobs[id], token));
    forall server, x | RunsOn(w', server, x)
      ensures if server == w.jobs[id].server then x == id else RunsOn(w, server, x)
    {
      assert x != id ==> RunsOn(w, server, x);
    }
    forall app, x | ActiveFor(w', app, x)
      ensures ActiveFor(w, app, x)
    {
    }
    assert EachSound(w') by {
      forall x | x in w'.jobs
        ensures JobSound(w'.jobs[x]) && JobPlaced(w', w'.jobs[x])
      {
        assert JobSound(w.jobs[x]) && JobPlaced(w, w.jobs[x]);
      }
    }
  }

  lemma QueueingKeeps(w: World, id: Id, j: Job)
    requires Inv(w) && id !in w.jobs && JobSound(j) && JobPlaced(w, j) && j.status.Queued? && !Busy(w, j.app)
    ensures Inv(WithJob(w, id, j)) && Evolves(w, WithJob(w, id, j))
  {
    var w' := WithJob(w, id, j);
    forall server, x | RunsOn(w', server, x)
      ensures RunsOn(w, server, x)
    {
    }
    forall app, x | ActiveFor(w', app, x)
      ensures if app == j.app then x == id else ActiveFor(w, app, x)
    {
    }
    assert EachSound(w') by {
      forall x | x in w'.jobs
        ensures JobSound(w'.jobs[x]) && JobPlaced(w', w'.jobs[x])
      {
        if x != id { assert JobPlaced(w, w.jobs[x]); }
      }
    }
  }

  /** Applications may change, but not move to another server. */
  lemma AppsKeep(w: World, apps: map<Id, App>)
    requires Inv(w) && AppsEvolve(w, w.(apps := apps))
    ensures Inv(w.(apps := apps)) && Evolves(w, w.(apps := apps))
  {
    var w' := w.(apps := apps);
    assert forall server, x :: RunsOn(w', server, x) ==> RunsOn(w, server, x);
    assert forall app, x :: ActiveFor(w', app, x) ==> ActiveFor(w, app, x);
    forall x | x in w'.jobs
      ensures JobSound(w'.jobs[x]) && JobPlaced(w', w'.jobs[x])
    {
      assert JobPlaced(w, w.jobs[x]);
    }
  }

  /** Servers may change as long as none with an active job is disabled. */
  lemma ServersKeep(w: World, server: Id, s: Server)
    requires Inv(w) && server in w.servers && ServerEvolves(w.servers[server], s) && ServerSound(s)
    requires w.servers[server].enabled ==> s.enabled
    ensures var w' := w.(servers := w.servers[server := s]); Inv(w') && Evolves(w, w')
  {
    var w' := w.(servers := w.servers[server := s]);
    assert forall id, x :: RunsOn(w', id, x) ==> RunsOn(w, id, x);
    assert forall app, x :: ActiveFor(w', app, x) ==> ActiveFor(w, app, x);
    forall x | x in w'.jobs
      ensures JobSound(w'.jobs[x]) && JobPlaced(w', w'.jobs[x])
    {
      assert JobPlaced(w, w.jobs[x]);
    }
  }

  /** Revoking changes a job exactly when it is active on that server. */
  lemma RevokingEvolves(w: World, server: Id)
    requires Inv(w)
    ensures Evolves(w, Revoke(w, server).world)
    ensures server in w.servers ==> forall id | id in w.jobs ::
      w.jobs[id].server == server && Active(w.jobs[id]) <==> Revoke(w, server).world.jobs[id] != w.jobs[id]
  {
    Unchanged(w);
    forall x | x in w.jobs
      ensures JobEvolves(w.jobs[x], Revoke(w, server).world.jobs[x])
    {
      assert JobSound(w.jobs[x]);
    }
  }

  /** Revoking a server leaves no active job on it and touches no other. */
  lemma RevokingKeeps(w: World, server: Id)
    requires Inv(w)
    ensures var w' := Revoke(w, server).world; Inv(w') && Evolves(w, w')
  {
    RevokingEvolves(w, server);
    hide Evolves;
    if server in w.servers {
      var w' := Revoke(w, server).world;
      assert forall id, x :: RunsOn(w', id, x) ==> RunsOn(w, id, x);
      assert forall app, x :: ActiveFor(w', app, x) ==> ActiveFor(w, app, x);
      forall x | x in w'.jobs
        ensures JobSound(w'.jobs[x]) && JobPlaced(w', w'.jobs[x])
      {
        assert JobSound(w.jobs[x]) && JobPlaced(w, w.jobs[x]);
      }
    }
  }

  lemma ClaimingKeeps(w: World, server: Id, running: Option<Id>, picked: Option<Id>, raced: bool, token: Token)
    requires Inv(w) && Sees(w, server, running, picked)
    ensures var w' := Claim(w, server, running, picked, raced, token).world; Inv(w') && Evolves(w, w')
  {
    Unchanged(w);
    if server in w.servers && w.servers[server].enabled && running.None? && picked.Some? {
      assert JobSound(w.jobs[picked.value]);
      hide Inv, Evolves;
      TakingKeeps(w, picked.value, token);
      TamerKeeps(w, picked.value, CancelledJob(w.jobs[picked.value]));
    }
  }

  lemma ReportingKeeps(w: World, server: Id, r: Report)
    requires Inv(w)
    ensures var w' := ReportOn(w, server, r).world; Inv(w') && Evolves(w, w')
  {
    Unchanged(w);
    if WellFormed(r) && Owns(w, server, r) && Accepts(w.jobs[r.job], r) {
      assert JobSound(w.jobs[r.job]);
      hide Inv;
      var j := w.jobs[r.job];
      TamerKeeps(w, r.job, Reported(j, r));
      var mid := WithJob(w, r.job, Reported(j, r));
      AppsKeep(mid, w.apps[j.app := Informed(w.apps[j.app], j.kind, r)]);
      EvolvesTransitive(w, mid, ReportOn(w, server, r).world);
    }
  }

  lemma QueueKeeps(w: World, server: Id, app: Id, before: Request, id: Id, now: int)
    requires Inv(w) && id !in w.jobs
    ensures var w' := Queue(w, server, app, before, id, now).world; Inv(w') && Evolves(w, w')
  {
    Unchanged(w);
    if Queue(w, server, app, before, id, now).reply.Created? {
      assert w.apps[app].server == server && w.servers[server].enabled && !Busy(w, app);
      hide Inv, Evolves, Busy;
      QueueingKeeps(w, id, NewJob(server, app, Deploy, Payload(w.apps[app].guided, before.content), now));
    }
  }

  lemma QueueSetupKeeps(w: World, server: Id, app: Id, kind: Kind, content: string, id: Id, now: int)
    requires Inv(w) && id !in w.jobs
    ensures var w' := QueueSetup(w, server, app, kind, content, id, now).world; Inv(w') && Evolves(w, w')
  {
    Unchanged(w);
    if QueueSetup(w, server, app, kind, content, id, now).reply.Created? {
      hide Inv, Busy;
      var j := NewJob(server, app, kind, Payload(false, content), now);
      QueueingKeeps(w, id, j);
      AppsKeep(WithJob(w, id, j), w.apps[app := w.apps[app].(setupComplete := false)]);
      EvolvesTransitive(w, WithJob(w, id, j), QueueSetup(w, server, app, kind, content, id, now).world);
    }
  }

  lemma StepKeeps(w: World, e: Event)
    requires Inv(w) && Possible(w, e)
    ensures Inv(Step(w, e)) && Evolves(w, Step(w, e))
  {
    Unchanged(w);
    match e
    case RevokeE(server) => RevokingKeeps(w, server);
    case EnrollE(server, platform, enrollment, agent, now) =>
      if Enroll(w, server, platform, enrollment, agent, now).reply.Done? {
        ServersKeep(w, server, Enrolled(w.servers[server], agent));
      }
    case RotateE(server, enrollment, expires) =>
      if Rotate(w, server, enrollment, expires).reply.Done? {
        ServersKeep(w, server, w.servers[server].(enrollment := Some(enrollment), enrollmentExpires := expires));
      }
    case QueueE(server, app, before, id, now) => QueueKeeps(w, server, app, before, id, now);
    case QueueSetupE(server, app, kind, content, id, now) => QueueSetupKeeps(w, server, app, kind, content, id, now);
    case ClaimE(server, running, picked, raced, token) => ClaimingKeeps(w, server, running, picked, raced, token);
    case CancelE(server, id) =>
      if Cancel(w, server, id).reply.Done? { TamerKeeps(w, id, CancelledJob(w.jobs[id])); }
    case ReportE(server, r) => ReportingKeeps(w, server, r);
    case AgentE(server, capable, updating) =>
      ServersKeep(w, server, w.servers[server].(capable := capable, updating := updating));
    case AppE(id, app) => AppsKeep(w, w.apps[id := app]);
  }

  // ---- Every run ----

  /** In every run, each server runs at most one job, each application has at most one active job, a revoked
      server has none, payloads are kept exactly while they are needed; and between any two moments of the
      run final states were not left, tokens not changed, and servers not enabled again. */
  lemma {:induction false} EveryRunIsSafe(ws: seq<World>, es: seq<Event>, i: nat, j: nat)
    requires IsRun(ws, es) && Inv(ws[0]) && i <= j < |ws|
    ensures Inv(ws[i]) && Inv(ws[j]) && Evolves(ws[i], ws[j])
    decreases j
  {
    if j > 0 {
      if i == j {
        EveryRunIsSafe(ws, es, i - 1, j - 1);
        StepKeeps(ws[j - 1], es[j - 1]);
      } else {
        EveryRunIsSafe(ws, es, i, j - 1);
        StepKeeps(ws[j - 1], es[j - 1]);
        EvolvesTransitive(ws[i], ws[j - 1], ws[j]);
      }
    }
  }

  /** After a revocation the server never runs anything again. */
  lemma RevokedStaysQuiet(ws: seq<World>, es: seq<Event>, i: nat, j: nat, server: Id)
    requires IsRun(ws, es) && Inv(ws[0]) && i < j < |ws| && es[i] == RevokeE(server) && server in ws[i].servers
    ensures server in ws[j].servers && !ws[j].servers[server].enabled && ws[j].servers[server].agent.None?
    ensures forall id | id in ws[j].jobs :: ws[j].jobs[id].server == server ==> Final(ws[j].jobs[id])
  {
    EveryRunIsSafe(ws, es, i + 1, j);
    assert ServerEvolves(ws[i + 1].servers[server], ws[j].servers[server]);
    forall id | id in ws[j].jobs && ws[j].jobs[id].server == server
      ensures Final(ws[j].jobs[id])
    {
      assert JobPlaced(ws[j], ws[j].jobs[id]);
    }
  }

  // ---- Claims ----

  function ClaimOf(w: World, e: Event): Effect
    requires e.ClaimE? && Possible(w, e)
  {
    Claim(w, e.server, e.running, e.picked, e.raced, e.token)
  }

  /** The row of a job says what was handed out for it. */
  predicate Matches(w: World, server: Id, handed: Reply)
    requires handed.Handed?
  {
    && RunsOn(w, server, handed.id) && server in w.servers
    && w.jobs[handed.id].kind == handed.kind && w.jobs[handed.id].token == handed.token
    && w.jobs[handed.id].payload == Some(handed.payload) && handed.token.Some?
  }

  lemma HandedMatches(w: World, e: Event)
    requires Inv(w) && e.ClaimE? && Possible(w, e) && ClaimOf(w, e).reply.Handed?
    ensures Matches(ClaimOf(w, e).world, e.server, ClaimOf(w, e).reply)
    ensures w.servers[e.server].capable || Plain(ClaimOf(w, e).reply)
  {
    if e.running.Some? { assert JobSound(w.jobs[e.running.value]); }
  }

  /** What any agent may be given. */
  predicate Plain(handed: Reply)
    requires handed.Handed?
  {
    handed.kind.Deploy? && !handed.payload.needsSetup
  }

  lemma MatchingStays(w: World, w': World, server: Id, handed: Reply)
    requires Evolves(w, w') && Inv(w') && handed.Handed? && Matches(w, server, handed) && RunsOn(w', server, handed.id)
    ensures Matches(w', server, handed) && w'.servers[server].enabled
  {
    assert JobEvolves(w.jobs[handed.id], w'.jobs[handed.id]);
    assert JobSound(w'.jobs[handed.id]) && JobPlaced(w', w'.jobs[handed.id]);
  }

  /** Claiming again, at any later moment of the run while the job still runs, gives the same job with the
      same token and payload and changes nothing: a lost answer does no harm. */
  lemma ReclaimGivesTheSame(ws: seq<World>, es: seq<Event>, i: nat, j: nat, again: Event)
    requires IsRun(ws, es) && Inv(ws[0]) && i < j < |ws| && es[i].ClaimE? && again.ClaimE? && Possible(ws[j], again)
    requires ClaimOf(ws[i], es[i]).reply.Handed? && again.server == es[i].server
    requires RunsOn(ws[j], again.server, ClaimOf(ws[i], es[i]).reply.id)
    requires again.server in ws[j].servers && again.server in ws[i].servers
    requires ws[i].servers[again.server].capable ==> ws[j].servers[again.server].capable
    ensures ClaimOf(ws[j], again) == Effect(ws[j], ClaimOf(ws[i], es[i]).reply)
  {
    var first := ClaimOf(ws[i], es[i]).reply;
    EveryRunIsSafe(ws, es, i, i + 1);
    EveryRunIsSafe(ws, es, i + 1, j);
    assert ws[i + 1] == Step(ws[i], es[i]) == ClaimOf(ws[i], es[i]).world;
    HandedMatches(ws[i], es[i]);
    hide Claim;
    MatchingStays(ws[i + 1], ws[j], again.server, first);
    SameAnswer(ws[j], again, first);
  }

  lemma SameAnswer(w: World, again: Event, handed: Reply)
    requires again.ClaimE? && Possible(w, again) && OneRunningPerServer(w)
    requires handed.Handed? && Matches(w, again.server, handed)
    requires w.servers[again.server].enabled && (w.servers[again.server].capable || Plain(handed))
    ensures ClaimOf(w, again) == Effect(w, handed)
  {
    assert again.running.Some?;
    assert RunsOn(w, again.server, again.running.value);
  }

  predicate Starts(w: World, server: Id, running: Option<Id>, picked: Option<Id>)
    requires server in w.servers
  {
    running.None? && !w.servers[server].updating && picked.Some?
  }

  /** A claim fails exactly when the job it was about to start is cancelled under it, and then only the
      cancellation remains; a job that is handed out is the one the server runs from then on. */
  lemma ClaimOutcomes(w: World, server: Id, running: Option<Id>, picked: Option<Id>, raced: bool, token: Token)
    requires Inv(w) && Sees(w, server, running, picked) && server in w.servers && w.servers[server].enabled
    ensures var c := Claim(w, server, running, picked, raced, token);
      && (c.reply.Refused? <==> raced && Starts(w, server, running, picked))
      && (c.reply.Refused? ==> c.world == Cancel(w, server, picked.value).world)
      && (c.reply.Handed? ==> RunsOn(c.world, server, c.reply.id) && c.world.jobs[c.reply.id].token == c.reply.token)
  {
    if running.Some? { assert JobSound(w.jobs[running.value]); }
    if picked.Some? { assert JobSound(w.jobs[picked.value]); }
  }

  /** The job at hand that the agent is not given: the one it runs, or the one the claim just started. */
  predicate Withheld(w: World, server: Id, id: Id) {
    && RunsOn(w, server, id) && w.jobs[id].payload.Some? && server in w.servers
    && !w.servers[server].capable && (!w.jobs[id].kind.Deploy? || w.jobs[id].payload.value.needsSetup)
  }

  /** A claim that answers "no job" leaves one running exactly when the agent lacks the capability it needs,
      which happens to a deployment queued before the agent was downgraded. That job can then not be
      cancelled, and the server starts no other. */
  lemma NoJobMeansIdleOrWithheld(w: World, server: Id, running: Option<Id>, picked: Option<Id>, token: Token)
    requires Inv(w) && Sees(w, server, running, picked) && server in w.servers && w.servers[server].enabled
    requires Claim(w, server, running, picked, false, token).reply.NoJob?
    ensures var w' := Claim(w, server, running, picked, false, token).world;
      forall id | RunsOn(w', server, id) :: Withheld(w', server, id) && Cancel(w', server, id).reply.Refused?
    ensures var w' := Claim(w, server, running, picked, false, token).world;
      Idle(w', server) <==> running.None? && (w.servers[server].updating || picked.None?)
  {
    var w' := Claim(w, server, running, picked, false, token).world;
    ClaimingKeeps(w, server, running, picked, false, token);
    var at := if running.Some? then running else if w.servers[server].updating then None else picked;
    if at.Some? {
      assert JobSound(w.jobs[at.value]);
      assert RunsOn(w', server, at.value);
    }
  }

  // ---- Enrollment ----

  /** An agent that never saw the answer can enroll again: nothing changes. No other agent can, with any
      token at any time. */
  lemma EnrollmentIsUsedOnce(w: World, server: Id, platform: string, enrollment: Digest, agent: Digest, now: int,
                             enrollment': Digest, agent': Digest, now': int)
    requires Inv(w) && Enroll(w, server, platform, enrollment, agent, now).reply.Done?
    ensures var after := Enroll(w, server, platform, enrollment, agent, now).world;
      if agent' == agent then Enroll(after, server, platform, enrollment', agent', now') == Effect(after, Done)
      else Enroll(after, server, platform, enrollment', agent', now').reply == Refused(401)
  {
    var after := Enroll(w, server, platform, enrollment, agent, now).world;
    if agent' == agent {
      assert !AgentTaken(after, server, agent) by {
        assert !AgentTaken(w, server, agent);
      }
      assert after.servers[server := Enrolled(after.servers[server], agent)] == after.servers;
    }
  }

  // ---- Queueing ----

  /** A deployment is queued only while nothing else of that application is queued or running, so of two
      requests at most one is. */
  lemma SecondDeploymentIsRefused(w: World, server: Id, app: Id, before: Request, id: Id, now: int,
                                  before': Request, id': Id, now': int)
    requires Queue(w, server, app, before, id, now).reply.Created?
    ensures Queue(Queue(w, server, app, before, id, now).world, server, app, before', id', now').reply.Refused?
  {
    var after := Queue(w, server, app, before, id, now).world;
    assert ActiveFor(after, app, id);
    assert Busy(after, app);
  }
}
