/** The rows behind the remote agents and what each locked transaction does to them. Every operation
    serialises on the row of its server or of its job, so a run is a sequence of these steps. */
module RemoteJobRows {
  import opened Collections

  type Id = string
  type Token = string
  type Digest = string
  type Commit = string

  datatype Server = Server(
    enabled: bool, platform: string, enrollment: Option<Digest>, enrollmentExpires: int,
    agent: Option<Digest>, enrolled: bool, capable: bool, updating: bool)

  datatype Inspection = Inspection(commit: Commit, framework: string, commands: string)

  datatype App = App(
    server: Id, connection: Option<Id>, guided: bool, setupComplete: bool, step: string,
    inspection: Option<Inspection>, framework: Option<string>, commands: string,
    database: Option<string>, live: Option<Commit>)

  datatype Kind = Deploy | Inspect | Database | Validate

  datatype Status = Queued | Running | Success | Failed | Cancelled

  datatype Payload = Payload(needsSetup: bool, content: string)

  datatype Finding = NoFinding | Inspected(inspection: Inspection) | Checked

  datatype Job = Job(
    server: Id, app: Id, kind: Kind, status: Status, payload: Option<Payload>, token: Option<Token>,
    sequence: int, log: string, commit: Option<Commit>, result: Finding, created: int)

  datatype World = World(servers: map<Id, Server>, apps: map<Id, App>, jobs: map<Id, Job>)

  datatype Reply = Done | Created(id: Id) | Handed(id: Id, kind: Kind, token: Option<Token>, payload: Payload) | NoJob
    | Refused(status: nat)

  datatype Effect = Effect(world: World, reply: Reply)

  datatype Report = Report(
    job: Id, token: Option<Token>, status: Status, log: string, sequence: int, commit: Option<Commit>,
    inspection: Option<Inspection>, check: bool)

  const LONGEST_LOG := 131072
  const LARGEST_INTEGER := 0x1F_FFFF_FFFF_FFFF
  const REVOKED_NOTE :=
    "\n[revoked] Server access revoked. A running operation may still finish on the server; inspect it locally.\n"

  predicate Active(j: Job) {
    j.status.Queued? || j.status.Running?
  }

  function WithJob(w: World, id: Id, j: Job): World {
    w.(jobs := w.jobs[id := j])
  }

  function Refuse(w: World, status: nat): Effect {
    Effect(w, Refused(status))
  }

  // ---- Servers ----

  function Withdrawn(s: Server): Server {
    s.(enabled := false, agent := None, enrollment := None, updating := false)
  }

  function CancelledJob(j: Job): Job {
    j.(status := Cancelled, payload := None)
  }

  function Revoked(j: Job): Job {
    CancelledJob(j).(log := j.log + REVOKED_NOTE)
  }

  function Revoke(w: World, server: Id): Effect {
    if server !in w.servers then Refuse(w, 404)
    else
      Effect(World(w.servers[server := Withdrawn(w.servers[server])], w.apps,
        map id | id in w.jobs ::
          if w.jobs[id].server == server && Active(w.jobs[id]) then Revoked(w.jobs[id]) else w.jobs[id]), Done)
  }

  predicate MayEnroll(s: Server, platform: string, enrollment: Digest, agent: Digest, now: int) {
    && s.enabled && s.platform == platform
    && ((s.enrollment == Some(enrollment) && s.enrollmentExpires > now && !s.enrolled) || s.agent == Some(agent))
  }

  predicate AgentTaken(w: World, server: Id, agent: Digest) {
    exists other | other in w.servers :: other != server && w.servers[other].agent == Some(agent)
  }

  function Enrolled(s: Server, agent: Digest): Server {
    s.(agent := Some(agent), enrollment := None, enrolled := true)
  }

  /** The agent column is unique, so an agent known to another server makes the statement fail. */
  function Enroll(w: World, server: Id, platform: string, enrollment: Digest, agent: Digest, now: int): Effect {
    if server !in w.servers || !MayEnroll(w.servers[server], platform, enrollment, agent, now) then Refuse(w, 401)
    else if AgentTaken(w, server, agent) then Refuse(w, 500)
    else Effect(w.(servers := w.servers[server := Enrolled(w.servers[server], agent)]), Done)
  }

  /** A new enrollment token, for a server that is still pending. */
  function Rotate(w: World, server: Id, enrollment: Digest, expires: int): Effect {
    if server !in w.servers || w.servers[server].enrolled || !w.servers[server].enabled then Refuse(w, 409)
    else
      var s := w.servers[server].(enrollment := Some(enrollment), enrollmentExpires := expires);
      Effect(w.(servers := w.servers[server := s]), Done)
  }

  // ---- Queueing, claiming, cancelling ----

  predicate Busy(w: World, app: Id) {
    exists id | id in w.jobs :: w.jobs[id].app == app && Active(w.jobs[id])
  }

  function NewJob(server: Id, app: Id, kind: Kind, payload: Payload, created: int): Job {
    Job(server, app, kind, Queued, Some(payload), None, 0, "", None, NoFinding, created)
  }

  /** What was read of an application before the transaction, and whether its configuration is valid. */
  datatype Request = Request(known: bool, connection: Option<Id>, valid: bool, content: string)

  function Queue(w: World, server: Id, app: Id, before: Request, id: Id, now: int): Effect {
    if !before.known then Refuse(w, 404)
    else if server !in w.servers || !w.servers[server].enabled || !w.servers[server].enrolled then Refuse(w, 409)
    else if app !in w.apps || w.apps[app].server != server then Refuse(w, 404)
    else if w.apps[app].guided && !w.apps[app].setupComplete then Refuse(w, 409)
    else if w.apps[app].guided && !w.servers[server].capable then Refuse(w, 409)
    else if Busy(w, app) then Refuse(w, 409)
    else if w.apps[app].connection != before.connection then Refuse(w, 409)
    else if !before.valid then Refuse(w, 400)
    else
      Effect(WithJob(w, id, NewJob(server, app, Deploy, Payload(w.apps[app].guided, before.content), now)), Created(id))
  }

  /** Guided setup queues its own kinds of job under the same locks. */
  function QueueSetup(w: World, server: Id, app: Id, kind: Kind, content: string, id: Id, now: int): Effect {
    if server !in w.servers || !w.servers[server].enabled || !w.servers[server].enrolled || !w.servers[server].capable then
      Refuse(w, 409)
    else if app !in w.apps || w.apps[app].server != server || !w.apps[app].guided then Refuse(w, 404)
    else if Busy(w, app) || kind.Deploy? then Refuse(w, 409)
    else
      var queued := WithJob(w, id, NewJob(server, app, kind, Payload(false, content), now));
      Effect(queued.(apps := w.apps[app := w.apps[app].(setupComplete := false)]), Created(id))
  }

  predicate RunsOn(w: World, server: Id, id: Id) {
    id in w.jobs && w.jobs[id].server == server && w.jobs[id].status.Running?
  }

  predicate Waiting(w: World, server: Id, id: Id)
    requires server in w.servers
  {
    && id in w.jobs && w.jobs[id].server == server && w.jobs[id].status.Queued?
    && (w.jobs[id].kind.Deploy? || w.servers[server].capable)
  }

  predicate Idle(w: World, server: Id) {
    forall id | id in w.jobs :: !RunsOn(w, server, id)
  }

  /** The job the agent has, or else the one the claim picks: a job that waited longest. */
  predicate Picks(w: World, server: Id, picked: Option<Id>)
    requires server in w.servers
  {
    match picked
    case None => forall id | id in w.jobs :: !Waiting(w, server, id)
    case Some(p) =>
      Waiting(w, server, p) && forall id | id in w.jobs && Waiting(w, server, id) :: w.jobs[p].created <= w.jobs[id].created
  }

  function Taken(j: Job, token: Token): Job {
    j.(status := Running, token := Some(token))
  }

  /** An agent without the capability never receives a job that needs it. */
  predicate MayHand(s: Server, j: Job)
    requires j.payload.Some?
  {
    (j.kind.Deploy? && !j.payload.value.needsSetup) || s.capable
  }

  /** The answer to the agent: its job, or nothing while it lacks the capability. Reading a payload that is
      gone fails, and the transaction with it. */
  function Answer(undone: World, after: World, server: Id, id: Id): Effect
    requires server in after.servers && id in after.jobs
  {
    var j := after.jobs[id];
    if j.payload.None? then Refuse(undone, 500)
    else if MayHand(after.servers[server], j) then Effect(after, Handed(id, j.kind, j.token, j.payload.value))
    else Effect(after, NoJob)
  }

  /** What a claim sees: the job the server is running, if any, and the job it would start otherwise. */
  predicate Sees(w: World, server: Id, running: Option<Id>, picked: Option<Id>) {
    && (if running.Some? then RunsOn(w, server, running.value) else Idle(w, server))
    && (server in w.servers ==> Picks(w, server, picked))
  }

  /** A claim; `raced` says that somebody cancelled the picked job between the choice and the update, which
      finds the row by its key alone. */
  function Claim(w: World, server: Id, running: Option<Id>, picked: Option<Id>, raced: bool, token: Token): Effect
    requires Sees(w, server, running, picked)
  {
    if server !in w.servers || !w.servers[server].enabled then Refuse(w, 401)
    else if running.Some? then Answer(w, w, server, running.value)
    else if w.servers[server].updating || picked.None? then Effect(w, NoJob)
    else
      var seen := if raced then WithJob(w, picked.value, CancelledJob(w.jobs[picked.value])) else w;
      Answer(seen, WithJob(seen, picked.value, Taken(seen.jobs[picked.value], token)), server, picked.value)
  }

  function Cancel(w: World, server: Id, id: Id): Effect {
    if id !in w.jobs || w.jobs[id].server != server || !w.jobs[id].status.Queued? then Refuse(w, 409)
    else Effect(WithJob(w, id, CancelledJob(w.jobs[id])), Done)
  }

  // ---- Reports ----

  predicate CommitShaped(c: Commit) {
    40 <= |c| <= 64 && forall x | x in c :: 'a' <= x <= 'f' || '0' <= x <= '9'
  }

  predicate WellFormed(r: Report) {
    && (r.status.Running? || r.status.Success? || r.status.Failed?)
    && |r.log| <= LONGEST_LOG && 1 <= r.sequence <= LARGEST_INTEGER
    && (r.commit.Some? ==> CommitShaped(r.commit.value))
  }

  /** What a report of success has to bring along. */
  predicate Substantiated(kind: Kind, r: Report) {
    r.status.Success? ==>
      match kind
      case Deploy => r.commit.Some?
      case Inspect => r.commit.Some? && r.inspection.Some? && r.inspection.value.commit == r.commit.value
      case Database => r.check
      case Validate => r.check
  }

  predicate Fresh(j: Job, r: Report) {
    j.status.Running? && r.sequence > j.sequence
  }

  predicate Accepts(j: Job, r: Report) {
    Fresh(j, r) && j.payload.Some? && Substantiated(j.kind, r)
  }

  function FindingOf(kind: Kind, r: Report): Finding
    requires Substantiated(kind, r)
  {
    if !r.status.Success? || kind.Deploy? then NoFinding
    else if kind.Inspect? then Inspected(r.inspection.value)
    else Checked
  }

  function Reported(j: Job, r: Report): Job
    requires Substantiated(j.kind, r)
  {
    j.(status := r.status, log := r.log, commit := r.commit, sequence := r.sequence,
       payload := if r.status.Running? then j.payload else None, result := FindingOf(j.kind, r))
  }

  /** What an accepted report means for the application. Only the first inspection sets the commands. */
  function Informed(a: App, kind: Kind, r: Report): App
    requires Substantiated(kind, r)
  {
    match kind
    case Deploy => if r.status.Success? then a.(live := r.commit) else a
    case Inspect =>
      if !r.status.Success? then a
      else
        var i := r.inspection.value;
        a.(inspection := Some(i), framework := if a.framework.Some? then a.framework else Some(i.framework),
           commands := if a.inspection.None? then i.commands else a.commands, step := "runtime", setupComplete := false)
    case Database =>
      if r.status.Running? then a
      else
        var outcome := if r.status.Success? then "ready" else "failed";
        a.(database := if a.database.Some? then Some(outcome) else None, setupComplete := false)
    case Validate => if r.status.Success? then a.(setupComplete := true, step := "review") else a
  }

  predicate Owns(w: World, server: Id, r: Report) {
    && r.job in w.jobs && w.jobs[r.job].server == server && w.jobs[r.job].app in w.apps
    && r.token.Some? && w.jobs[r.job].token == r.token
  }

  function ReportOn(w: World, server: Id, r: Report): Effect {
    if !WellFormed(r) then Refuse(w, 400)
    else if !Owns(w, server, r) then Refuse(w, 404)
    else
      var j := w.jobs[r.job];
      if !Fresh(j, r) then Effect(w, Done)
      else if !Accepts(j, r) then Refuse(w, 400)
      else
        Effect(WithJob(w, r.job, Reported(j, r)).(apps := w.apps[j.app := Informed(w.apps[j.app], j.kind, r)]), Done)
  }

  // ---- Runs ----

  /** One committed transaction, or a change made elsewhere that these depend on. */
  datatype Event =
    | RevokeE(server: Id)
    | EnrollE(server: Id, platform: string, enrollment: Digest, agent: Digest, now: int)
    | RotateE(server: Id, enrollment: Digest, expires: int)
    | QueueE(server: Id, app: Id, before: Request, id: Id, now: int)
    | QueueSetupE(server: Id, app: Id, kind: Kind, content: string, id: Id, now: int)
    | ClaimE(server: Id, running: Option<Id>, picked: Option<Id>, raced: bool, token: Token)
    | CancelE(server: Id, id: Id)
    | ReportE(server: Id, report: Report)
    | AgentE(server: Id, capable: bool, updating: bool)
    | AppE(id: Id, edited: App)

  /** An application is added, or edited while it has no active job. */
  predicate Editable(w: World, id: Id, edited: App) {
    && edited.server in w.servers && (id !in w.apps ==> edited.live.None?)
    && (id in w.apps ==> edited.server == w.apps[id].server && edited.live == w.apps[id].live && !Busy(w, id))
  }

  ghost predicate Possible(w: World, e: Event) {
    match e
    case QueueE(_, _, _, id, _) => id !in w.jobs
    case QueueSetupE(_, _, _, _, id, _) => id !in w.jobs
    case ClaimE(server, running, picked, _, _) => Sees(w, server, running, picked)
    case AgentE(server, _, _) => server in w.servers && w.servers[server].enabled
    case AppE(id, app) => Editable(w, id, app)
    case _ => true
  }

  function Step(w: World, e: Event): World
    requires Possible(w, e)
  {
    match e
    case RevokeE(server) => Revoke(w, server).world
    case EnrollE(server, platform, enrollment, agent, now) => Enroll(w, server, platform, enrollment, agent, now).world
    case RotateE(server, enrollment, expires) => Rotate(w, server, enrollment, expires).world
    case QueueE(server, app, before, id, now) => Queue(w, server, app, before, id, now).world
    case QueueSetupE(server, app, kind, content, id, now) => QueueSetup(w, server, app, kind, content, id, now).world
    case ClaimE(server, running, picked, raced, token) => Claim(w, server, running, picked, raced, token).world
    case CancelE(server, id) => Cancel(w, server, id).world
    case ReportE(server, r) => ReportOn(w, server, r).world
    case AgentE(server, capable, updating) =>
      w.(servers := w.servers[server := w.servers[server].(capable := capable, updating := updating)])
    case AppE(id, app) => w.(apps := w.apps[id := app])
  }

  ghost predicate IsRun(ws: seq<World>, es: seq<Event>) {
    && |ws| == |es| + 1
    && forall n | 0 <= n < |es| :: Possible(ws[n], es[n]) && ws[n + 1] == Step(ws[n], es[n])
  }
}
