/** Reports over a network that loses, repeats and reorders them. */
module RemoteJobReports {
  import opened Collections
  import opened RemoteJobRows

  // ---- One job ----

  /** What a delivered report does to its job. */
  function Deliver(j: Job, r: Report): Job {
    if Accepts(j, r) then Reported(j, r) else j
  }

  function DeliverAll(j: Job, rs: seq<Report>): Job {
    if rs == [] then j else Deliver(DeliverAll(j, rs[..|rs| - 1]), rs[|rs| - 1])
  }

  /** The reports that were accepted, in the order of their delivery. */
  function Accepted(j: Job, rs: seq<Report>): (accepted: seq<Report>)
    ensures forall r | r in accepted :: r in rs && Substantiated(j.kind, r)
  {
    if rs == [] then []
    else
      var before, r := DeliverAll(j, rs[..|rs| - 1]), rs[|rs| - 1];
      SameKind(j, rs[..|rs| - 1]);
      Accepted(j, rs[..|rs| - 1]) + (if Accepts(before, r) then [r] else [])
  }

  lemma {:induction false} SameKind(j: Job, rs: seq<Report>)
    ensures DeliverAll(j, rs).kind == j.kind
  {
    if rs != [] { SameKind(j, rs[..|rs| - 1]); }
  }

  /** Fields a report never touches. */
  predicate SameClaim(a: Job, b: Job) {
    a.server == b.server && a.app == b.app && a.kind == b.kind && a.token == b.token && a.created == b.created
  }

  ghost predicate Increasing(rs: seq<Report>) {
    forall i, k | 0 <= i < k < |rs| :: rs[i].sequence < rs[k].sequence
  }

  /** The job shows what the report said, and has a payload only while the report leaves it running. */
  predicate Shows(j: Job, r: Report) {
    && j.status == r.status && j.log == r.log && j.commit == r.commit && j.sequence == r.sequence
    && (j.payload.Some? ==> r.status.Running?)
  }

  /** However the reports arrive, the accepted ones are numbered upwards, and the job shows the last of
      them, which is the highest. */
  lemma {:induction false} LastAcceptedIsStored(j: Job, rs: seq<Report>)
    ensures var a := Accepted(j, rs);
      && Increasing(a) && (forall r | r in a :: r.sequence > j.sequence)
      && SameClaim(j, DeliverAll(j, rs))
      && DeliverAll(j, rs) == (if a == [] then j else Reported(j, a[|a| - 1]))
      && (a != [] ==> Shows(DeliverAll(j, rs), a[|a| - 1]))
  {
    if rs != [] {
      var front, r := rs[..|rs| - 1], rs[|rs| - 1];
      LastAcceptedIsStored(j, front);
      var before := DeliverAll(j, front);
      if Accepts(before, r) {
        var a := Accepted(j, front);
        assert Accepted(j, rs) == a + [r];
        if a != [] {
          assert before.sequence == a[|a| - 1].sequence;
          forall i | 0 <= i < |a|
            ensures a[i].sequence < r.sequence
          {
            assert i == |a| - 1 || a[i].sequence < a[|a| - 1].sequence;
          }
        }
      }
    }
  }

  /** A report that arrives again, or late, changes nothing. */
  lemma RepeatsChangeNothing(j: Job, rs: seq<Report>, r: Report, later: seq<Report>)
    requires r in Accepted(j, rs)
    ensures var now := DeliverAll(DeliverAll(j, rs), later); Deliver(now, r) == now
  {
    LastAcceptedIsStored(j, rs);
    LastAcceptedIsStored(DeliverAll(j, rs), later);
    var a := Accepted(j, rs);
    var i :| 0 <= i < |a| && a[i] == r;
    assert r.sequence <= DeliverAll(j, rs).sequence;
  }

  /** The agent sends reports of progress, and one that is numbered last. */
  ghost predicate SentUpTo(j: Job, rs: seq<Report>, last: Report) {
    && last in rs && last.sequence > j.sequence && Substantiated(j.kind, last)
    && forall r | r in rs :: r == last || (r.status.Running? && r.sequence < last.sequence)
  }

  /** Whatever else was lost, repeated or reordered, once the last report was delivered the job is what that
      report alone would have made it; if it ends the job, the job has ended. */
  lemma {:induction false} LastReportDecides(j: Job, rs: seq<Report>, last: Report)
    requires j.status.Running? && j.payload.Some? && SentUpTo(j, rs, last)
    ensures DeliverAll(j, rs) == Reported(j, last) && Shows(DeliverAll(j, rs), last)
  {
    var front, r := rs[..|rs| - 1], rs[|rs| - 1];
    assert rs == front + [r];
    if last in front {
      LastReportDecides(j, front, last);
    } else {
      ProgressKeepsRunning(j, front, last);
    }
  }

  lemma {:induction false} ProgressKeepsRunning(j: Job, rs: seq<Report>, last: Report)
    requires j.status.Running? && j.payload.Some? && last.sequence > j.sequence && last !in rs
    requires forall r | r in rs :: r.status.Running? && r.sequence < last.sequence
    ensures var k := DeliverAll(j, rs);
      && SameClaim(j, k) && k.status.Running? && k.payload == j.payload && k.sequence < last.sequence
  {
    if rs != [] { ProgressKeepsRunning(j, rs[..|rs| - 1], last); }
  }

  /** Two networks that deliver the same set of reports, each in its own way, leave the same job. */
  lemma OrderDoesNotMatter(j: Job, rs: seq<Report>, rs': seq<Report>, last: Report)
    requires j.status.Running? && j.payload.Some? && SentUpTo(j, rs, last)
    requires forall r :: r in rs <==> r in rs'
    ensures DeliverAll(j, rs) == DeliverAll(j, rs')
  {
    LastReportDecides(j, rs, last);
    LastReportDecides(j, rs', last);
  }

  // ---- The rows ----

  /** Reporting to the manager is delivering to that one job; every other job stays as it is. */
  lemma ReportTouchesOneJob(w: World, server: Id, r: Report, id: Id)
    requires id in w.jobs
    ensures id in ReportOn(w, server, r).world.jobs
    ensures ReportOn(w, server, r).world.jobs[id] ==
      if id == r.job && WellFormed(r) && Owns(w, server, r) then Deliver(w.jobs[id], r) else w.jobs[id]
  {
  }

  /** The event is an accepted report of a successful deployment of the application. */
  predicate Deploys(w: World, e: Event, app: Id) {
    && e.ReportE? && WellFormed(e.report) && Owns(w, e.server, e.report)
    && Accepts(w.jobs[e.report.job], e.report)
    && w.jobs[e.report.job].kind.Deploy? && e.report.status.Success? && w.jobs[e.report.job].app == app
  }

  /** The commits deployed in a run, as they were accepted. */
  function Deployed(ws: seq<World>, es: seq<Event>, app: Id): seq<Option<Commit>>
    requires |ws| == |es| + 1
  {
    if es == [] then []
    else
      var n := |es| - 1;
      Deployed(ws[..n + 1], es[..n], app) + (if Deploys(ws[n], es[n], app) then [es[n].report.commit] else [])
  }

  lemma QueueKeepsLive(w: World, server: Id, app: Id, before: Request, id: Id, now: int)
    ensures Queue(w, server, app, before, id, now).world.apps == w.apps
  {
  }

  lemma QueueSetupKeepsLive(w: World, server: Id, app: Id, kind: Kind, content: string, id: Id, now: int)
    ensures QueueSetup(w, server, app, kind, content, id, now).world.apps.Keys == w.apps.Keys
    ensures forall a | a in w.apps :: QueueSetup(w, server, app, kind, content, id, now).world.apps[a].live == w.apps[a].live
  {
  }

  lemma ClaimKeepsLive(w: World, server: Id, running: Option<Id>, picked: Option<Id>, raced: bool, token: Token)
    requires Sees(w, server, running, picked)
    ensures Claim(w, server, running, picked, raced, token).world.apps == w.apps
  {
  }

  lemma ReportSetsLive(w: World, server: Id, r: Report, app: Id)
    requires app in w.apps
    ensures app in ReportOn(w, server, r).world.apps
    ensures ReportOn(w, server, r).world.apps[app].live ==
            if Deploys(w, ReportE(server, r), app) then r.commit else w.apps[app].live
  {
    hide CommitShaped, Reported;
  }

  lemma OnlyReportsDeploy(w: World, e: Event, app: Id)
    ensures Deploys(w, e, app) ==> e.ReportE?
  {
  }

  /** No transaction sets a live commit, other than an accepted report of a deployment. */
  lemma StepSetsLive(w: World, e: Event, app: Id)
    requires Possible(w, e) && app in w.apps
    ensures app in Step(w, e).apps
    ensures Step(w, e).apps[app].live == if Deploys(w, e, app) then e.report.commit else w.apps[app].live
  {
    hide ReportOn, Claim, Queue, QueueSetup, Deploys;
    OnlyReportsDeploy(w, e, app);
    match e
    case ReportE(server, r) => ReportSetsLive(w, server, r, app);
    case ClaimE(server, running, picked, raced, token) => ClaimKeepsLive(w, server, running, picked, raced, token);
    case QueueE(server, app, before, id, now) => QueueKeepsLive(w, server, app, before, id, now);
    case QueueSetupE(server, app, kind, content, id, now) => QueueSetupKeepsLive(w, server, app, kind, content, id, now);
    case _ =>
  }

  lemma RunFront(ws: seq<World>, es: seq<Event>)
    requires IsRun(ws, es) && es != []
    ensures IsRun(ws[..|es|], es[..|es| - 1])
  {
    forall k | 0 <= k < |es| - 1
      ensures Possible(ws[..|es|][k], es[..|es| - 1][k])
      ensures ws[..|es|][k + 1] == Step(ws[..|es|][k], es[..|es| - 1][k])
    {
      assert Possible(ws[k], es[k]);
    }
  }

  /** After any run, the commit shown as live is that of the deployment accepted last, if there was one. */
  lemma {:induction false} LiveIsTheLatestDeployment(ws: seq<World>, es: seq<Event>, app: Id)
    requires IsRun(ws, es) && app in ws[0].apps
    ensures app in ws[|es|].apps
    ensures var d := Deployed(ws, es, app);
      ws[|es|].apps[app].live == if d == [] then ws[0].apps[app].live else d[|d| - 1]
  {
    if es != [] {
      var n := |es| - 1;
      var ws', es' := ws[..n + 1], es[..n];
      RunFront(ws, es);
      LiveIsTheLatestDeployment(ws', es', app);
      StepSetsLive(ws[n], es[n], app);
    }
  }
}
