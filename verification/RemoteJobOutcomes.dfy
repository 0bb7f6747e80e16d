/** What each transaction of the manager answers and which fields of which rows it changes, said of the rows
    themselves. */
module RemoteJobOutcomes {
  import opened Collections
  import opened RemoteJobRows

  // ---- Reports ----

  /** The agent that was given the job reports on it. */
  ghost predicate OwnReport(w: World, server: Id, r: Report) {
    && r.job in w.jobs && w.jobs[r.job].server == server && w.jobs[r.job].app in w.apps
    && exists t: Token :: r.token == Some(t) && w.jobs[r.job].token == Some(t)
  }

  /** The report keeps to the limits of the protocol. */
  ghost predicate WithinLimits(r: Report) {
    && r.status in {Running, Success, Failed} && |r.log| <= 131072 && 1 <= r.sequence <= 9007199254740991
    && forall c | r.commit == Some(c) :: 40 <= |c| <= 64 && forall x | x in c :: x in "0123456789abcdef"
  }

  /** A report of success brings what its kind of job is for: a commit, an inspection of that commit, or a check. */
  ghost predicate BringsResult(kind: Kind, r: Report) {
    match kind
    case Deploy => exists c: Commit :: r.commit == Some(c)
    case Inspect => exists i: Inspection :: r.inspection == Some(i) && r.commit == Some(i.commit)
    case Database => r.check
    case Validate => r.check
  }

  lemma LimitsAreChecked(r: Report)
    ensures WellFormed(r) <==> WithinLimits(r)
  {
    forall x: char
      ensures x in "0123456789abcdef" <==> 'a' <= x <= 'f' || '0' <= x <= '9'
    {
      DigitsAre(x);
    }
  }

  lemma DigitsAre(x: char)
    ensures x in "0123456789abcdef" <==> 'a' <= x <= 'f' || '0' <= x <= '9'
  {
    assert "0123456789abcdef" == "0123456789" + "abcdef";
  }

  /** The first news of a running job is stored: status, log, sequence and commit are those of the report, and
      the payload goes when the job has ended. */
  lemma NewsIsStored(w: World, server: Id, r: Report)
    requires OwnReport(w, server, r) && WithinLimits(r) && (r.status.Success? ==> BringsResult(w.jobs[r.job].kind, r))
    requires w.jobs[r.job].status == Running && w.jobs[r.job].payload.Some? && r.sequence > w.jobs[r.job].sequence
    ensures var j, e := w.jobs[r.job], ReportOn(w, server, r);
      && e.reply == Done && e.world.servers == w.servers
      && e.world.jobs == w.jobs[r.job := j.(
           status := r.status, log := r.log, sequence := r.sequence, commit := r.commit,
           payload := if r.status == Running then j.payload else None,
           result := if r.status != Success || j.kind == Deploy then NoFinding
                     else if j.kind == Inspect then Inspected(r.inspection.value) else Checked)]
  {
    LimitsAreChecked(r);
  }

  /** What the news means for the application. A deployment sets the live commit, an inspection fills in what the
      owner has not chosen, a database job settles the database, and a check completes the setup. */
  lemma NewsReachesTheApplication(w: World, server: Id, r: Report)
    requires OwnReport(w, server, r) && WithinLimits(r) && (r.status.Success? ==> BringsResult(w.jobs[r.job].kind, r))
    requires w.jobs[r.job].status == Running && w.jobs[r.job].payload.Some? && r.sequence > w.jobs[r.job].sequence
    ensures var j := w.jobs[r.job]; var a, apps := w.apps[j.app], ReportOn(w, server, r).world.apps;
      apps == w.apps[j.app :=
        match (j.kind, r.status)
        case (Deploy, Success) => a.(live := r.commit)
        case (Inspect, Success) =>
          var i := r.inspection.value;
          a.(inspection := Some(i), framework := if a.framework == None then Some(i.framework) else a.framework,
             commands := if a.inspection == None then i.commands else a.commands, step := "runtime", setupComplete := false)
        case (Database, Success) => a.(database := if a.database == None then None else Some("ready"), setupComplete := false)
        case (Database, Failed) => a.(database := if a.database == None then None else Some("failed"), setupComplete := false)
        case (Validate, Success) => a.(step := "review", setupComplete := true)
        case _ => a]
  {
    LimitsAreChecked(r);
  }

  /** Old news is answered and dropped. */
  lemma OldNewsIsDropped(w: World, server: Id, r: Report)
    requires OwnReport(w, server, r) && WithinLimits(r)
    requires w.jobs[r.job].status != Running || r.sequence <= w.jobs[r.job].sequence
    ensures ReportOn(w, server, r) == Effect(w, Done)
  {
    LimitsAreChecked(r);
  }

  /** Everything else is refused and changes nothing: a report beyond the limits, one about a job of another agent
      or under another token, and a success that brings nothing. */
  lemma AnythingElseIsRefused(w: World, server: Id, r: Report)
    ensures !WithinLimits(r) ==> ReportOn(w, server, r) == Effect(w, Refused(400))
    ensures WithinLimits(r) && !OwnReport(w, server, r) ==> ReportOn(w, server, r) == Effect(w, Refused(404))
    ensures WithinLimits(r) && OwnReport(w, server, r) && r.status == Success && !BringsResult(w.jobs[r.job].kind, r)
            && w.jobs[r.job].status == Running && r.sequence > w.jobs[r.job].sequence ==>
              ReportOn(w, server, r) == Effect(w, Refused(400))
  {
    LimitsAreChecked(r);
    if r.job in w.jobs && BringsResult(w.jobs[r.job].kind, r) { assert r.status.Success? ==> Substantiated(w.jobs[r.job].kind, r); }
  }

  // ---- Claims ----

  /** The server runs the job. */
  ghost predicate Has(w: World, server: Id, id: Id) {
    id in w.jobs && w.jobs[id].server == server && w.jobs[id].status == Running
  }

  /** The job could be started for the server. */
  ghost predicate Could(w: World, server: Id, id: Id)
    requires server in w.servers
  {
    && id in w.jobs && w.jobs[id].server == server && w.jobs[id].status == Queued
    && (w.jobs[id].kind == Deploy || w.servers[server].capable)
  }

  /** A claim goes by the job the server runs, or by one that waited longest. */
  lemma SeesMeans(w: World, server: Id, running: Option<Id>, picked: Option<Id>)
    ensures Sees(w, server, running, picked) <==>
      && (if running == None then forall id :: !Has(w, server, id) else Has(w, server, running.value))
      && (server in w.servers ==>
            if picked == None then forall id :: !Could(w, server, id)
            else Could(w, server, picked.value) &&
                 forall id | Could(w, server, id) :: w.jobs[picked.value].created <= w.jobs[id].created)
  {
    forall id
      ensures Has(w, server, id) <==> RunsOn(w, server, id)
      ensures server in w.servers ==> (Could(w, server, id) <==> Waiting(w, server, id))
    {
    }
  }

  /** The agent may be told of the job. */
  ghost predicate FitFor(s: Server, j: Job) {
    s.capable || (j.kind == Deploy && exists c :: j.payload == Some(Payload(false, c)))
  }

  /** A server without access is refused, and a server that is being updated starts nothing. */
  lemma NothingToClaim(w: World, server: Id, running: Option<Id>, picked: Option<Id>, raced: bool, token: Token)
    requires Sees(w, server, running, picked)
    ensures server !in w.servers || !w.servers[server].enabled ==>
              Claim(w, server, running, picked, raced, token) == Effect(w, Refused(401))
    ensures server in w.servers && w.servers[server].enabled && running == None && (w.servers[server].updating || picked == None) ==>
              Claim(w, server, running, picked, raced, token) == Effect(w, NoJob)
  {
  }

  /** The job the server runs is given again as it is, if the agent is fit for it. */
  lemma RunningJobIsGivenAgain(w: World, server: Id, id: Id, picked: Option<Id>, raced: bool, token: Token)
    requires Sees(w, server, Some(id), picked) && server in w.servers && w.servers[server].enabled && w.jobs[id].payload.Some?
    ensures var j := w.jobs[id];
      Claim(w, server, Some(id), picked, raced, token) ==
      Effect(w, if FitFor(w.servers[server], j) then Handed(id, j.kind, j.token, j.payload.value) else NoJob)
  {
    assert w.jobs[id].payload == Some(Payload(w.jobs[id].payload.value.needsSetup, w.jobs[id].payload.value.content));
  }

  /** Otherwise the picked job starts under the new token. */
  lemma PickedJobStarts(w: World, server: Id, id: Id, token: Token)
    requires Sees(w, server, None, Some(id)) && server in w.servers && w.servers[server].enabled && !w.servers[server].updating
    requires w.jobs[id].payload.Some?
    ensures var j := w.jobs[id]; var e := Claim(w, server, None, Some(id), false, token);
      && e.world == w.(jobs := w.jobs[id := j.(status := Running, token := Some(token))])
      && e.reply == if FitFor(w.servers[server], j) then Handed(id, j.kind, Some(token), j.payload.value) else NoJob
  {
    assert w.jobs[id].payload == Some(Payload(w.jobs[id].payload.value.needsSetup, w.jobs[id].payload.value.content));
  }

  // ---- Queueing and cancelling ----

  /** Something of the application waits or runs. */
  ghost predicate Occupied(w: World, app: Id) {
    exists id :: id in w.jobs && w.jobs[id].app == app && w.jobs[id].status in {Queued, Running}
  }

  /** What stands in the way of a deployment, in the order in which it is looked for. */
  ghost function Obstacle(w: World, server: Id, app: Id, before: Request): Option<nat> {
    if !before.known then Some(404)
    else if !(server in w.servers && w.servers[server].enabled && w.servers[server].enrolled) then Some(409)
    else if !(app in w.apps && w.apps[app].server == server) then Some(404)
    else if w.apps[app].guided && !(w.apps[app].setupComplete && w.servers[server].capable) then Some(409)
    else if Occupied(w, app) || w.apps[app].connection != before.connection then Some(409)
    else if !before.valid then Some(400)
    else None
  }

  /** A deployment is refused for its first obstacle, and otherwise waits as a new row. */
  lemma DeploymentIsQueued(w: World, server: Id, app: Id, before: Request, id: Id, now: int)
    ensures Queue(w, server, app, before, id, now) ==
      if Obstacle(w, server, app, before).Some? then Effect(w, Refused(Obstacle(w, server, app, before).value))
      else Effect(w.(jobs := w.jobs[id := Job(server, app, Deploy, Queued, Some(Payload(w.apps[app].guided, before.content)),
                                              None, 0, "", None, NoFinding, now)]), Created(id))
  {
    OccupiedMeansBusy(w, app);
  }

  lemma OccupiedMeansBusy(w: World, app: Id)
    ensures Occupied(w, app) <==> Busy(w, app)
  {
  }

  /** A setup job waits only for a guided application of a capable server with nothing else under way, and reopens
      its setup. */
  lemma SetupIsQueued(w: World, server: Id, app: Id, kind: Kind, content: string, id: Id, now: int)
    requires server in w.servers && app in w.apps && w.apps[app].server == server && kind != Deploy
    ensures var s, a := w.servers[server], w.apps[app];
      QueueSetup(w, server, app, kind, content, id, now) ==
      if !(s.enabled && s.enrolled && s.capable) then Effect(w, Refused(409))
      else if !a.guided then Effect(w, Refused(404))
      else if Occupied(w, app) then Effect(w, Refused(409))
      else Effect(w.(apps := w.apps[app := a.(setupComplete := false)],
                     jobs := w.jobs[id := Job(server, app, kind, Queued, Some(Payload(false, content)), None, 0, "", None, NoFinding, now)]),
                  Created(id))
  {
    OccupiedMeansBusy(w, app);
  }

  lemma ElsewhereNoSetupIsQueued(w: World, server: Id, app: Id, kind: Kind, content: string, id: Id, now: int)
    requires !(server in w.servers && app in w.apps && w.apps[app].server == server) || kind == Deploy
    ensures QueueSetup(w, server, app, kind, content, id, now).reply.Refused? && QueueSetup(w, server, app, kind, content, id, now).world == w
  {
  }

  /** Only a waiting job of the server can be cancelled; it loses its payload and nothing else. */
  lemma WaitingJobIsCancelled(w: World, server: Id, id: Id)
    ensures Cancel(w, server, id) ==
      if id in w.jobs && w.jobs[id].server == server && w.jobs[id].status == Queued
      then Effect(w.(jobs := w.jobs[id := w.jobs[id].(status := Cancelled, payload := None)]), Done)
      else Effect(w, Refused(409))
  {
  }

  // ---- Servers ----

  /** A revoked server keeps no credentials; what waited or ran there is cancelled with a note, and every other job
      is as it was. */
  lemma AccessIsRevoked(w: World, server: Id)
    requires server in w.servers
    ensures var e := Revoke(w, server);
      && e.reply == Done && e.world.apps == w.apps
      && e.world.servers == w.servers[server :=
           w.servers[server].(enabled := false, agent := None, enrollment := None, updating := false)]
      && e.world.jobs.Keys == w.jobs.Keys
      && forall id | id in w.jobs ::
           var j := w.jobs[id];
           if j.server == server && j.status in {Queued, Running}
           then e.world.jobs[id] == j.(status := Cancelled, payload := None, log := j.log + REVOKED_NOTE)
           else e.world.jobs[id] == j
  {
  }

  /** The token is the one issued last for this server, has not run out and was never used; or the agent is the one
      enrolled already. */
  ghost predicate MayBecomeAgent(s: Server, platform: string, enrollment: Digest, agent: Digest, now: int) {
    && s.enabled && s.platform == platform
    && (s.agent == Some(agent) || (s.enrollment == Some(enrollment) && now < s.enrollmentExpires && !s.enrolled))
  }

  lemma AgentIsEnrolled(w: World, server: Id, platform: string, enrollment: Digest, agent: Digest, now: int)
    ensures Enroll(w, server, platform, enrollment, agent, now) ==
      if !(server in w.servers && MayBecomeAgent(w.servers[server], platform, enrollment, agent, now)) then Effect(w, Refused(401))
      else if exists other :: other in w.servers && other != server && w.servers[other].agent == Some(agent) then
        Effect(w, Refused(500))
      else
        Effect(w.(servers := w.servers[server :=
                    w.servers[server].(agent := Some(agent), enrollment := None, enrolled := true)]), Done)
  {
  }

  /** A server that is still pending gets a new token, which replaces the old one. */
  lemma TokenIsReplaced(w: World, server: Id, enrollment: Digest, expires: int)
    ensures Rotate(w, server, enrollment, expires) ==
      if server in w.servers && w.servers[server].enabled && !w.servers[server].enrolled
      then Effect(w.(servers := w.servers[server :=
                       w.servers[server].(enrollment := Some(enrollment), enrollmentExpires := expires)]), Done)
      else Effect(w, Refused(409))
  {
  }
}
