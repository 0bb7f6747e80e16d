/** What can be read from the history of a deployment: that it ends, what its failures lead to, which workers run
    again and which preview is left behind. */
module DeployRunHistory {
  import opened DeployRun

  // ---- Every deployment ends ----

  /** The statements that ended; the events of workers are steps within one statement. */
  function Ended(es: seq<Event>): nat {
    if es == [] then 0 else Ended(es[..|es| - 1]) + if es[|es| - 1].Worker? then 0 else 1
  }

  lemma StepAdvances(c: Config, s: State, e: Event)
    ensures Rank(Next(c, s, e).at) >= Rank(s.at)
    ensures !e.Worker? && !s.at.End? ==> Rank(Next(c, s, e).at) > Rank(s.at)
  {
    if Preparing(s.at) {
      hide Activated, Accepted, Recovered;
    } else if Switching(s.at) {
      hide Prepared, Accepted, Recovered;
    } else if Accepting(s.at) {
      hide Prepared, Activated, Recovered;
    } else {
      hide Prepared, Activated, Accepted;
    }
  }

  lemma {:induction false} RunAdvances(c: Config, es: seq<Event>)
    ensures Rank(Run(c, es).at) >= if Ended(es) < 20 then Ended(es) else 20
    decreases |es|
  {
    hide Next, Rank;
    if es == [] {
      StartIsSmooth();
    } else {
      var n := |es| - 1;
      RunAdvances(c, es[..n]);
      StepAdvances(c, Run(c, es[..n]), es[n]);
      EndIsLast(c, Run(c, es[..n]), es[n]);
    }
  }

  /** A deployment ends, however its statements do: after twenty of them at the latest. */
  lemma EveryDeploymentEnds(c: Config, es: seq<Event>)
    requires Ended(es) >= 20
    ensures Run(c, es).at.End?
  {
    RunAdvances(c, es);
    EndIsLast(c, Run(c, es), Fine(true));
  }

  // ---- A failure before the acceptance ----

  /** Whether there is anything to do at this place. */
  predicate Runs(c: Config, s: State) {
    match s.at
    case Preflight => c.preflight
    case Handoff => s.flags.previewRunning && s.flags.domains
    case ReturnDomains => s.flags.caddyOnPreview
    case DropPreview => s.flags.previewRunning
    case _ => true
  }

  predicate Fails(s: State, e: Event) {
    e.Broken? || (e.Worker? && ((s.at.Pause? && !e.stopped) || s.at.CheckPreview?))
  }

  /** A statement before the acceptance fails at this event. */
  predicate FailsAt(c: Config, s: State, e: Event) {
    Forward(s.at) && Runs(c, s) && Fails(s, e)
  }

  predicate GoesOn(s: State) {
    Forward(s.at) || s.at.Finish? || s.flags.accepted
  }

  lemma StepGoesOn(c: Config, s: State, e: Event)
    requires Inv(s)
    ensures GoesOn(Next(c, s, e)) <==> GoesOn(s) && !FailsAt(c, s, e)
  {
    if Preparing(s.at) {
      hide Activated, Accepted, Recovered;
    } else if Switching(s.at) {
      hide Prepared, Accepted, Recovered;
    } else if Accepting(s.at) {
      hide Prepared, Activated, Recovered;
    } else {
      hide Prepared, Activated, Accepted;
    }
  }

  ghost predicate NothingFailed(c: Config, es: seq<Event>) {
    forall n | 0 <= n < |es| :: !FailsAt(c, Run(c, es[..n]), es[n])
  }

  lemma {:induction false} NothingFailedLater(c: Config, es: seq<Event>)
    requires es != []
    ensures var m := |es| - 1; NothingFailed(c, es) <==> NothingFailed(c, es[..m]) && !FailsAt(c, Run(c, es[..m]), es[m])
  {
    hide FailsAt, Run;
    var m := |es| - 1;
    forall n | 0 <= n < m
      ensures FailsAt(c, Run(c, es[..n]), es[n]) <==> FailsAt(c, Run(c, es[..m][..n]), es[..m][n])
    {
      assert es[..m][..n] == es[..n];
    }
  }

  lemma {:induction false} GoesOnWithoutFailure(c: Config, es: seq<Event>)
    ensures GoesOn(Run(c, es)) <==> NothingFailed(c, es)
    decreases |es|
  {
    if es != [] {
      var m := |es| - 1;
      GoesOnWithoutFailure(c, es[..m]);
      RunsKeep(c, es[..m], false);
      hide Next, FailsAt, GoesOn, NothingFailed, Inv;
      NothingFailedLater(c, es);
      StepGoesOn(c, Run(c, es[..m]), es[m]);
    }
  }

  /** A deployment that has ended has its release accepted exactly when no statement before the acceptance failed,
      and is recorded as a failure exactly when one did. */
  lemma AcceptedExactlyWithoutFailure(c: Config, es: seq<Event>)
    requires Run(c, es).at.End?
    ensures Run(c, es).flags.accepted <==> NothingFailed(c, es)
    ensures KeepsOutcome(c, es) ==> (Run(c, es).status.Failed? <==> !NothingFailed(c, es))
  {
    hide NothingFailed, KeepsOutcome;
    GoesOnWithoutFailure(c, es);
    if KeepsOutcome(c, es) { EveryEndIsRecorded(c, es); }
  }

  // ---- What a failing statement leaves ----

  /** What has not happened yet on the way forward, and what happens only on the way. */
  predicate Unspoilt(c: Config, s: State) {
    && (Forward(s.at) ==> !s.app.recorded)
    && (s.at.Preflight? ==> s.preview.Absent?)
    && (Forward(s.at) || (!s.flags.accepted && (s.at.Caught? || s.at.RollBack? || s.at.Resume?)) ==> s.workers.resumed == {})
    && s.workers.resumed <= s.workers.paused
    && (s.flags.previewRunning && !s.at.CheckPreview? && !s.at.StopPreview? && !Recovering(s.at) && !s.at.End? ==>
          s.flags.domains && !c.windows)
    && (!c.preflight ==> s.preview.Absent? && !s.flags.previewRunning && !s.at.CheckPreview? && !s.at.StopPreview?)
  }

  lemma PreparingLeavesUnspoilt(c: Config, s: State, e: Event)
    requires Unspoilt(c, s) && Preparing(s.at) && !s.flags.accepted
    ensures Unspoilt(c, Prepared(c, s, e))
  {
  }

  lemma SwitchingLeavesUnspoilt(c: Config, s: State, e: Event)
    requires Unspoilt(c, s) && Switching(s.at) && !s.flags.accepted
    ensures Unspoilt(c, Activated(s, e))
  {
  }

  lemma AcceptingLeavesUnspoilt(c: Config, s: State, e: Event)
    requires Unspoilt(c, s) && Accepting(s.at) && (s.at.Finish? <==> s.flags.accepted)
    ensures Unspoilt(c, Accepted(s, e))
  {
  }

  lemma RecoveringLeavesUnspoilt(c: Config, s: State, e: Event)
    requires Unspoilt(c, s) && Recovering(s.at)
    ensures Unspoilt(c, Recovered(s, e))
  {
  }

  lemma StepLeavesUnspoilt(c: Config, s: State, e: Event)
    requires Inv(s) && Unspoilt(c, s)
    ensures Unspoilt(c, Next(c, s, e))
  {
    hide Prepared, Activated, Accepted, Recovered, Unspoilt;
    if Preparing(s.at) {
      PreparingLeavesUnspoilt(c, s, e);
    } else if Switching(s.at) {
      SwitchingLeavesUnspoilt(c, s, e);
    } else if Accepting(s.at) {
      AcceptingLeavesUnspoilt(c, s, e);
    } else if !s.at.End? {
      RecoveringLeavesUnspoilt(c, s, e);
    }
  }

  lemma {:induction false} RunLeavesUnspoilt(c: Config, es: seq<Event>)
    ensures Inv(Run(c, es)) && Unspoilt(c, Run(c, es))
    decreases |es|
  {
    RunsKeep(c, es, false);
    if es != [] {
      var n := |es| - 1;
      RunLeavesUnspoilt(c, es[..n]);
      StepLeavesUnspoilt(c, Run(c, es[..n]), es[n]);
    }
  }

  /** A candidate that was tried is kept running only to serve the domains meanwhile; without a trial there is none. */
  lemma PreviewIsKeptForTheDomains(c: Config, es: seq<Event>)
    ensures var s := Run(c, es);
      && (s.at in {Capture, WaitForCron, Pause, Handoff, StopService} && s.flags.previewRunning ==> s.flags.domains && !c.windows)
      && (!c.preflight ==> s.preview.Absent?)
  {
    RunLeavesUnspoilt(c, es);
  }

  /** What the outside sees of a state. */
  datatype Sight = Sight(preview: Preview, served: Target, written: Target, app: App, status: Status)

  function Seen(s: State): Sight {
    Sight(s.preview, s.proxy.served, s.proxy.written, s.app, s.status)
  }

  /** A statement that fails has had its whole effect, or none, except that an update of the proxy may have written
      its file alone. */
  lemma FailureActsOrNot(c: Config, es: seq<Event>, early: bool, flag: bool)
    requires var s := Run(c, es); Runs(c, s) && !s.at.Activating? && !s.at.RollBack?
    ensures var s := Run(c, es);
      && Seen(Next(c, s, Broken(early, true))) == Seen(Next(c, s, Fine(flag)))
      && Seen(Next(c, s, Broken(early, false))) ==
         Seen(s).(written := if early then Seen(Next(c, s, Fine(flag))).written else s.proxy.written)
  {
    RunLeavesUnspoilt(c, es);
    var s := Run(c, es);
    hide Run, Inv, Unspoilt, Prepared, Activated, Accepted, Recovered;
    if Preparing(s.at) {
      PreparingActsOrNot(c, s, early, flag);
    } else if Switching(s.at) {
      SwitchingActsOrNot(c, s, early, flag);
    } else if Accepting(s.at) {
      AcceptingActsOrNot(c, s, early, flag);
    } else if !s.at.End? {
      RecoveringActsOrNot(c, s, early, flag);
    }
  }

  /** What a failing statement did, against what it does when it succeeds: all of it, or at most the file of the
      proxy. */
  predicate ActsOrNot(s: State, done: State, tookEffect: State, failed: State, early: bool) {
    && Seen(tookEffect) == Seen(done)
    && Seen(failed) == Seen(s).(written := if early then done.proxy.written else s.proxy.written)
  }

  lemma PreparingActsOrNot(c: Config, s: State, early: bool, flag: bool)
    requires Inv(s) && Unspoilt(c, s) && Runs(c, s) && Preparing(s.at)
    ensures ActsOrNot(s, Prepared(c, s, Fine(flag)), Prepared(c, s, Broken(early, true)), Prepared(c, s, Broken(early, false)), early)
  {
  }

  lemma SwitchingActsOrNot(c: Config, s: State, early: bool, flag: bool)
    requires Inv(s) && Unspoilt(c, s) && Runs(c, s) && Switching(s.at) && !s.at.Activating?
    ensures ActsOrNot(s, Activated(s, Fine(flag)), Activated(s, Broken(early, true)), Activated(s, Broken(early, false)), early)
  {
  }

  lemma AcceptingActsOrNot(c: Config, s: State, early: bool, flag: bool)
    requires Inv(s) && Unspoilt(c, s) && Runs(c, s) && Accepting(s.at)
    ensures ActsOrNot(s, Accepted(s, Fine(flag)), Accepted(s, Broken(early, true)), Accepted(s, Broken(early, false)), early)
  {
  }

  lemma RecoveringActsOrNot(c: Config, s: State, early: bool, flag: bool)
    requires Inv(s) && Unspoilt(c, s) && Runs(c, s) && Recovering(s.at) && !s.at.RollBack?
    ensures ActsOrNot(s, Recovered(s, Fine(flag)), Recovered(s, Broken(early, true)), Recovered(s, Broken(early, false)), early)
  {
  }

  /** An activation goes through states in between, and may stop there; a failed rollback leaves the service down;
      the workers start one after the other. */
  lemma SwitchesCanStopHalfWay(c: Config, s: State, name: Id, stopped: bool, early: bool, late: bool)
    requires Inv(s)
    ensures s.at.Finish? && name in s.workers.paused ==>
              Next(c, s, Worker(name, stopped)) == s.(workers := s.workers.(resumed := s.workers.resumed + {name}))
    ensures s.at.Activating? ==> Next(c, s, Worker(name, stopped)) == s.(app := s.app.(live := Changing))
    ensures s.at.Activating? ==>
              Next(c, s, Broken(early, late)) == s.(at := Caught, app := s.app.(live := if late then Changing else s.app.live))
    ensures s.at.RollBack? ==>
              var t := Next(c, s, Broken(early, late));
              t.app.service == Down && t.app.live == (if late then Original else Changing) && !t.flags.recoverable
  {
  }

  // ---- The workers ----

  /** The worker was online when the deployment paused the workers. */
  ghost predicate WasPaused(c: Config, es: seq<Event>, name: Id) {
    exists n :: 0 <= n < |es| && Run(c, es[..n]).at.Pause? && es[n].Worker? && es[n].name == name
  }

  lemma {:induction false} PausedIsRemembered(c: Config, es: seq<Event>, name: Id)
    ensures name in Run(c, es).workers.paused <==> WasPaused(c, es, name)
    decreases |es|
  {
    if es != [] {
      var m := |es| - 1;
      PausedIsRemembered(c, es[..m], name);
      PausedLater(c, es, name);
      hide Next, WasPaused;
      PausedByStep(c, Run(c, es[..m]), es[m]);
    }
  }

  lemma {:induction false} PausedLater(c: Config, es: seq<Event>, name: Id)
    requires es != []
    ensures var m := |es| - 1;
      WasPaused(c, es, name) <==>
        WasPaused(c, es[..m], name) || (Run(c, es[..m]).at.Pause? && es[m].Worker? && es[m].name == name)
  {
    hide Run;
    var m := |es| - 1;
    if WasPaused(c, es[..m], name) {
      var n :| 0 <= n < m && Run(c, es[..m][..n]).at.Pause? && es[n].Worker? && es[n].name == name;
      assert es[..m][..n] == es[..n];
    }
    if WasPaused(c, es, name) {
      var n :| 0 <= n < |es| && Run(c, es[..n]).at.Pause? && es[n].Worker? && es[n].name == name;
      if n < m { assert es[..m][..n] == es[..n] && es[..m][n] == es[n]; }
    }
  }

  lemma PausedByStep(c: Config, s: State, e: Event)
    ensures Next(c, s, e).workers.paused == s.workers.paused + if s.at.Pause? && e.Worker? then {e.name} else {}
  {
  }

  /** At the end, unless the deployment is flagged, exactly the workers that it paused have been started again. */
  lemma PausedWorkersRunAgain(c: Config, es: seq<Event>, name: Id)
    requires Run(c, es).at.End? && Run(c, es).flags.recoverable
    ensures name in Run(c, es).workers.resumed <==> WasPaused(c, es, name)
  {
    PausedIsRemembered(c, es, name);
    RunLeavesUnspoilt(c, es);
    Outcome(c, es);
  }

  // ---- A failed rollback ----

  /** After a rollback that failed nothing is started or switched any more. */
  ghost predicate LeftAlone(s: State, t: State) {
    && (t.at.Resume? || t.at.ReturnBack? || t.at.Cleanup? || t.at.Close? || t.at.End?)
    && t.workers.resumed == {} && t.proxy == s.proxy && t.app.service == Down
    && t.flags.caddyOnPreview == s.flags.caddyOnPreview && (s.flags.caddyOnPreview ==> t.preview.Alive?)
    && !t.flags.recoverable && !t.flags.accepted
  }

  lemma StepLeavesAlone(c: Config, s: State, t: State, e: Event)
    requires LeftAlone(s, t)
    ensures LeftAlone(s, Next(c, t, e))
  {
  }

  lemma FailedRollbackIsLeft(c: Config, s: State, e: Event)
    requires Inv(s) && Unspoilt(c, s) && s.at.RollBack? && e.Broken?
    ensures LeftAlone(s, Next(c, s, e))
  {
  }

  /** When the rollback fails, the workers stay stopped and domains that were handed to the candidate stay with it,
      which is kept alive. */
  lemma {:induction false} FailedRollbackKeepsTheCandidate(c: Config, es: seq<Event>, n: nat)
    requires n < |es| && Run(c, es[..n]).at.RollBack? && es[n].Broken?
    ensures LeftAlone(Run(c, es[..n]), Run(c, es))
    decreases |es|
  {
    hide Next, LeftAlone, Inv, Unspoilt;
    var m := |es| - 1;
    if n < m {
      assert es[..m][..n] == es[..n];
      FailedRollbackKeepsTheCandidate(c, es[..m], n);
      StepLeavesAlone(c, Run(c, es[..n]), Run(c, es[..m]), es[m]);
    } else {
      RunLeavesUnspoilt(c, es[..n]);
      FailedRollbackIsLeft(c, Run(c, es[..n]), es[n]);
    }
  }

  // ---- The preview left behind ----

  /** The preview was started but its start reported as failed, or its last deletion failed: nobody deletes it. */
  predicate Orphans(c: Config, s: State, e: Event) {
    || (s.at.Preflight? && c.preflight && e.Broken? && e.late)
    || (s.at.Cleanup? && s.flags.previewRunning && !s.flags.caddyOnPreview && s.preview.Alive? && e.Broken? && !e.late)
  }

  ghost predicate Orphaned(c: Config, es: seq<Event>) {
    exists n :: 0 <= n < |es| && Orphans(c, Run(c, es[..n]), es[n])
  }

  lemma {:induction false} OrphanedLater(c: Config, es: seq<Event>)
    requires es != []
    ensures var m := |es| - 1;
      Orphaned(c, es) <==> Orphaned(c, es[..m]) || Orphans(c, Run(c, es[..m]), es[m])
  {
    hide Orphans, Run;
    var m := |es| - 1;
    if Orphaned(c, es[..m]) {
      var n :| 0 <= n < m && Orphans(c, Run(c, es[..m][..n]), es[n]);
      assert es[..m][..n] == es[..n];
    }
    if Orphaned(c, es) {
      var n :| 0 <= n < |es| && Orphans(c, Run(c, es[..n]), es[n]);
      if n < m { assert es[..m][..n] == es[..n] && es[..m][n] == es[n]; }
    }
  }

  /** Whether the preview is one that nobody deletes any more. */
  predicate OrphanInv(s: State, orphaned: bool) {
    && (orphaned ==>
          s.preview.Alive? && !s.flags.previewRunning && !s.flags.caddyOnPreview && (Recovering(s.at) || s.at.End?))
    && (!orphaned && s.preview.Alive? ==> s.flags.previewRunning)
  }

  lemma StepKeepsOrphans(c: Config, s: State, e: Event, orphaned: bool)
    requires Inv(s) && Unspoilt(c, s) && OrphanInv(s, orphaned)
    ensures OrphanInv(Next(c, s, e), orphaned || Orphans(c, s, e))
  {
  }

  lemma {:induction false} RunKeepsOrphans(c: Config, es: seq<Event>)
    ensures OrphanInv(Run(c, es), Orphaned(c, es))
    decreases |es|
  {
    if es != [] {
      var m := |es| - 1;
      RunKeepsOrphans(c, es[..m]);
      RunLeavesUnspoilt(c, es[..m]);
      hide Next, Orphans, OrphanInv, Unspoilt, Inv;
      OrphanedLater(c, es);
      StepKeepsOrphans(c, Run(c, es[..m]), es[m], Orphaned(c, es[..m]));
    }
  }

  /** A deployment leaves its preview running exactly when the domains are still with it, which is flagged, or when
      its start or its last deletion was reported wrongly or failed. */
  lemma PreviewIsLeftBehindExactly(c: Config, es: seq<Event>)
    requires Run(c, es).at.End?
    ensures Run(c, es).preview.Alive? <==> Run(c, es).flags.caddyOnPreview || Orphaned(c, es)
    ensures Run(c, es).flags.caddyOnPreview ==> !Run(c, es).flags.recoverable
  {
    RunKeepsOrphans(c, es);
    RunsKeep(c, es, false);
    Outcome(c, es);
  }
}
