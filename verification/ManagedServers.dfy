/** The transactions of the manager on the rows of its remote servers. */
module ManagedServers {
  import opened Collections
  import R = RemoteJobRows
  import opened RemoteJobSafety

  class Manager {
    var servers: map<R.Id, R.Server>
    var apps: map<R.Id, R.App>
    var jobs: map<R.Id, R.Job>

    function Rows(): R.World
      reads this
    {
      R.World(servers, apps, jobs)
    }

    constructor ()
      ensures Inv(Rows()) && jobs == map[]
    {
      servers, apps, jobs := map[], map[], map[];
    }

    method RevokeServer(server: R.Id) returns (reply: R.Reply)
      modifies this
      ensures R.Effect(Rows(), reply) == R.Revoke(old(Rows()), server)
      ensures old(Inv(Rows())) ==> Inv(Rows()) && Evolves(old(Rows()), Rows())
    {
      ghost var before := Rows();
      if server !in servers { return R.Refused(404); }
      servers := servers[server := R.Withdrawn(servers[server])];
      jobs := map id | id in jobs ::
        if jobs[id].server == server && R.Active(jobs[id]) then R.Revoked(jobs[id]) else jobs[id];
      reply := R.Done;
      if Inv(before) { RevokingKeeps(before, server); }
    }

    method EnrollAgent(server: R.Id, platform: string, enrollment: R.Digest, agent: R.Digest, now: int)
      returns (reply: R.Reply)
      modifies this
      ensures R.Effect(Rows(), reply) == R.Enroll(old(Rows()), server, platform, enrollment, agent, now)
      ensures old(Inv(Rows())) ==> Inv(Rows()) && Evolves(old(Rows()), Rows())
    {
      ghost var before := Rows();
      if server !in servers || !R.MayEnroll(servers[server], platform, enrollment, agent, now) { return R.Refused(401); }
      if R.AgentTaken(Rows(), server, agent) { return R.Refused(500); }
      servers := servers[server := R.Enrolled(servers[server], agent)];
      reply := R.Done;
      if Inv(before) { StepKeeps(before, R.EnrollE(server, platform, enrollment, agent, now)); }
    }

    method QueueRemoteDeploy(server: R.Id, app: R.Id, before: R.Request, id: R.Id, now: int) returns (reply: R.Reply)
      requires id !in jobs
      modifies this
      ensures R.Effect(Rows(), reply) == R.Queue(old(Rows()), server, app, before, id, now)
      ensures old(Inv(Rows())) ==> Inv(Rows()) && Evolves(old(Rows()), Rows())
    {
      ghost var rows := Rows();
      if !before.known { return R.Refused(404); }
      if server !in servers || !servers[server].enabled || !servers[server].enrolled { return R.Refused(409); }
      if app !in apps || apps[app].server != server { return R.Refused(404); }
      var a := apps[app];
      if a.guided && !a.setupComplete { return R.Refused(409); }
      if a.guided && !servers[server].capable { return R.Refused(409); }
      if R.Busy(Rows(), app) { return R.Refused(409); }
      if a.connection != before.connection { return R.Refused(409); }
      if !before.valid { return R.Refused(400); }
      jobs := jobs[id := R.NewJob(server, app, R.Deploy, R.Payload(a.guided, before.content), now)];
      reply := R.Created(id);
      if Inv(rows) { QueueKeeps(rows, server, app, before, id, now); }
    }

    /** Gives the agent the job it runs, or else starts the one that waited longest. `raced` says that
        somebody cancels that one in between. */
    method ClaimJob(server: R.Id, raced: bool, token: R.Token)
      returns (reply: R.Reply, ghost running: Option<R.Id>, ghost picked: Option<R.Id>)
      modifies this
      ensures R.Sees(old(Rows()), server, running, picked)
      ensures R.Effect(Rows(), reply) == R.Claim(old(Rows()), server, running, picked, raced, token)
      ensures old(Inv(Rows())) ==> Inv(Rows()) && Evolves(old(Rows()), Rows())
    {
      ghost var before := Rows();
      var current := RunningOn(server);
      running, picked := current, None;
      if server in servers { picked := LongestWaiting(Rows(), server); }
      if server !in servers || !servers[server].enabled {
        reply := R.Refused(401);
      } else if current.Some? {
        reply := Respond(server, current.value);
      } else if servers[server].updating {
        reply := R.NoJob;
      } else {
        var waiting := set id | id in jobs && R.Waiting(Rows(), server, id);
        assert picked.Some? ==> picked.value in waiting;
        if waiting == {} {
          reply := R.NoJob;
        } else {
          assert picked.Some?;
          var next :| next in waiting && forall other | other in waiting :: jobs[next].created <= jobs[other].created;
          picked := Some(next);
          reply := StartJob(server, next, raced, token);
        }
      }
      if Inv(before) { ClaimingKeeps(before, server, running, picked, raced, token); }
    }

    method RunningOn(server: R.Id) returns (current: Option<R.Id>)
      ensures if current.Some? then R.RunsOn(Rows(), server, current.value) else R.Idle(Rows(), server)
    {
      var found := set id | id in jobs && R.RunsOn(Rows(), server, id);
      if found == {} {
        assert forall id | id in jobs :: R.RunsOn(Rows(), server, id) ==> id in found;
        return None;
      }
      var id :| id in found;
      return Some(id);
    }

    method Respond(server: R.Id, id: R.Id) returns (reply: R.Reply)
      requires server in servers && id in jobs
      ensures R.Effect(Rows(), reply) == R.Answer(Rows(), Rows(), server, id)
    {
      var job := jobs[id];
      if job.payload.None? { return R.Refused(500); }
      if !R.MayHand(servers[server], job) { return R.NoJob; }
      return R.Handed(id, job.kind, job.token, job.payload.value);
    }

    method StartJob(server: R.Id, id: R.Id, raced: bool, token: R.Token) returns (reply: R.Reply)
      requires server in servers && id in jobs
      modifies `jobs
      ensures var w := old(Rows());
        var seen := if raced then R.WithJob(w, id, R.CancelledJob(w.jobs[id])) else w;
        R.Effect(Rows(), reply) == R.Answer(seen, R.WithJob(seen, id, R.Taken(seen.jobs[id], token)), server, id)
    {
      if raced { jobs := jobs[id := R.CancelledJob(jobs[id])]; }
      var undone := jobs;
      jobs := jobs[id := R.Taken(jobs[id], token)];
      reply := Respond(server, id);
      if reply.Refused? { jobs := undone; }
    }

    method ReportJob(server: R.Id, r: R.Report) returns (reply: R.Reply)
      modifies this
      ensures R.Effect(Rows(), reply) == R.ReportOn(old(Rows()), server, r)
      ensures old(Inv(Rows())) ==> Inv(Rows()) && Evolves(old(Rows()), Rows())
    {
      ghost var before := Rows();
      if !R.WellFormed(r) { return R.Refused(400); }
      if !R.Owns(Rows(), server, r) { return R.Refused(404); }
      var job := jobs[r.job];
      if !job.status.Running? || r.sequence <= job.sequence { return R.Done; }
      if job.payload.None? || !R.Substantiated(job.kind, r) { return R.Refused(400); }
      jobs := jobs[r.job := R.Reported(job, r)];
      apps := apps[job.app := R.Informed(apps[job.app], job.kind, r)];
      reply := R.Done;
      if Inv(before) { ReportingKeeps(before, server, r); }
    }

    method CancelQueuedJob(server: R.Id, id: R.Id) returns (reply: R.Reply)
      modifies this
      ensures R.Effect(Rows(), reply) == R.Cancel(old(Rows()), server, id)
      ensures old(Inv(Rows())) ==> Inv(Rows()) && Evolves(old(Rows()), Rows())
    {
      ghost var before := Rows();
      if id !in jobs || jobs[id].server != server || !jobs[id].status.Queued? { return R.Refused(409); }
      jobs := jobs[id := R.CancelledJob(jobs[id])];
      reply := R.Done;
      if Inv(before) { StepKeeps(before, R.CancelE(server, id)); }
    }
  }

  lemma LongestWaiting(w: R.World, server: R.Id) returns (picked: Option<R.Id>)
    requires server in w.servers
    ensures R.Picks(w, server, picked)
  {
    var waiting := set id | id in w.jobs && R.Waiting(w, server, id);
    if waiting == {} {
      assert forall id | id in w.jobs :: R.Waiting(w, server, id) ==> id in waiting;
      picked := None;
    } else {
      var first := Earliest(w, waiting);
      picked := Some(first);
      assert forall id | id in w.jobs && R.Waiting(w, server, id) :: id in waiting;
    }
  }

  lemma {:induction false} Earliest(w: R.World, ids: set<R.Id>) returns (first: R.Id)
    requires ids != {} && ids <= w.jobs.Keys
    ensures first in ids && forall id | id in ids :: w.jobs[first].created <= w.jobs[id].created
    decreases |ids|
  {
    var one :| one in ids;
    var others := ids - {one};
    assert forall id | id in ids :: id == one || id in others;
    first := one;
    if others != {} {
      var second := Earliest(w, others);
      if w.jobs[second].created < w.jobs[one].created { first := second; }
    }
  }
}
