/** One deployment, from the preflight of its candidate to the end of its recovery, as steps that can each
    fail: flags, the preview process, the proxy, the live directory and the recorded outcome. */
module DeployRun {
  type Id = string

  /** Whether a candidate is tried first, and whether the proxy cannot be switched to it. */
  datatype Config = Config(preflight: bool, windows: bool)

  datatype Place =
    | Preflight | CheckPreview | StopPreview | Capture | WaitForCron | Pause | Handoff | StopService | Activating
    | StartService | ReturnDomains | DropPreview | Record | Finish | Caught | RollBack | Resume | ReturnBack | Cleanup
    | Close | End

  datatype Preview = Absent | Alive | Deleted

  datatype Target = Stable | ToPreview

  /** The live directory: as before the deployment, in the middle of a change, or the candidate's. */
  datatype Live = Original | Changing | Candidate

  datatype Service = Old | Down | New | Restored

  datatype Status = Ongoing | Success | Failed

  /** The flags of the procedure, and whether the project has domains. */
  datatype Flags = Flags(
    activating: bool, accepted: bool, recoverable: bool, previewRunning: bool, caddyOnPreview: bool, domains: bool)

  /** Where the running proxy sends the domains, and where its file does; and whether a handoff stopped half way. */
  datatype Proxy = Proxy(served: Target, written: Target, halfHandoff: bool)

  /** The application: its directory, its process, and whether the release is recorded as the active one. */
  datatype App = App(live: Live, service: Service, recorded: bool)

  datatype Workers = Workers(paused: set<Id>, resumed: set<Id>)

  datatype State = State(
    at: Place, flags: Flags, preview: Preview, proxy: Proxy, app: App, status: Status, workers: Workers)

  /** How a statement ends. `early` and `late` say which of its effects a failing one has all the same. */
  datatype Event = Fine(flag: bool) | Broken(early: bool, late: bool) | Worker(name: Id, stopped: bool)

  const START := State(Preflight, Flags(false, false, true, false, false, false), Absent, Proxy(Stable, Stable, false),
                       App(Original, Old, false), Ongoing, Workers({}, {}))

  predicate Preparing(p: Place) {
    p.Preflight? || p.CheckPreview? || p.StopPreview? || p.Capture? || p.WaitForCron? || p.Pause?
  }

  predicate Switching(p: Place) {
    p.Handoff? || p.StopService? || p.Activating? || p.StartService?
  }

  predicate Accepting(p: Place) {
    p.ReturnDomains? || p.DropPreview? || p.Record? || p.Finish?
  }

  predicate Recovering(p: Place) {
    p.Caught? || p.RollBack? || p.Resume? || p.ReturnBack? || p.Cleanup? || p.Close?
  }

  predicate UpdatesProxy(p: Place) {
    p.Handoff? || p.ReturnDomains? || p.ReturnBack?
  }

  // ---- The proxy ----

  /** Updating the proxy writes its file, checks it and reloads it. A failing update may have written the
      file, and a reload reported as failed may have happened. */
  function Routed(p: Proxy, to: Target, e: Event): Proxy {
    match e
    case Broken(wrote, took) =>
      p.(written := if wrote || took then to else p.written, served := if took then to else p.served)
    case _ => p.(written := to, served := to)
  }

  /** A reload that is reported as failed did not happen. */
  predicate Honest(s: State, e: Event) {
    UpdatesProxy(s.at) && e.Broken? ==> !e.late
  }

  // ---- Up to the activation ----

  function Fail(s: State): State {
    s.(at := Caught)
  }

  function Prepared(c: Config, s: State, e: Event): State
    requires Preparing(s.at)
  {
    match s.at
    case Preflight =>
      if !c.preflight then s.(at := Capture)
      else if e.Broken? then Fail(s.(preview := if e.late then Alive else Absent))
      else s.(at := CheckPreview, preview := Alive, flags := s.flags.(previewRunning := true))
    case CheckPreview =>
      if !e.Fine? then Fail(s)
      else
        s.(at := if !e.flag || c.windows then StopPreview else Capture, flags := s.flags.(domains := e.flag))
    case StopPreview =>
      if e.Broken? then Fail(s.(preview := if e.late then Deleted else s.preview))
      else s.(at := Capture, preview := Deleted, flags := s.flags.(previewRunning := false))
    case Capture => if e.Broken? then Fail(s) else s.(at := WaitForCron)
    case WaitForCron => if e.Broken? then Fail(s) else s.(at := Pause)
    case Pause =>
      match e
      case Worker(name, stopped) =>
        var noted := s.(workers := s.workers.(paused := s.workers.paused + {name}));
        if stopped then noted else Fail(noted)
      case Broken(_, _) => Fail(s)
      case Fine(_) => s.(at := Handoff)
  }

  // ---- Activation and acceptance ----

  function Activated(s: State, e: Event): State
    requires Switching(s.at)
  {
    match s.at
    case Handoff =>
      if !(s.flags.previewRunning && s.flags.domains) then s.(at := StopService, flags := s.flags.(activating := true))
      else if e.Broken? then Fail(s.(proxy := Routed(s.proxy, ToPreview, e).(halfHandoff := e.early || e.late)))
      else
        s.(at := StopService, flags := s.flags.(activating := true, caddyOnPreview := true),
           proxy := Routed(s.proxy, ToPreview, e))
    case StopService =>
      if e.Broken? then Fail(s.(app := s.app.(service := if e.late then Down else s.app.service)))
      else s.(at := Activating, app := s.app.(service := Down))
    case Activating =>
      if e.Broken? then Fail(s.(app := s.app.(live := if e.late then Changing else s.app.live)))
      else if e.Worker? then s.(app := s.app.(live := Changing))
      else s.(at := StartService, app := s.app.(live := Candidate))
    case StartService =>
      if e.Broken? then Fail(s.(app := s.app.(service := if e.late then New else s.app.service)))
      else s.(at := ReturnDomains, app := s.app.(service := New))
  }

  function Accepted(s: State, e: Event): State
    requires Accepting(s.at)
  {
    match s.at
    case ReturnDomains =>
      if !s.flags.caddyOnPreview then s.(at := DropPreview)
      else if e.Broken? then Fail(s.(proxy := Routed(s.proxy, Stable, e)))
      else s.(at := DropPreview, flags := s.flags.(caddyOnPreview := false), proxy := Routed(s.proxy, Stable, e))
    case DropPreview =>
      if !s.flags.previewRunning then s.(at := Record)
      else if e.Broken? then Fail(s.(preview := if e.late then Deleted else s.preview))
      else s.(at := Record, preview := Deleted, flags := s.flags.(previewRunning := false))
    case Record =>
      if e.Broken? then Fail(s.(app := s.app.(recorded := e.late)))
      else s.(at := Finish, app := s.app.(recorded := true), flags := s.flags.(accepted := true))
    case Finish =>
      match e
      case Worker(name, _) =>
        if name in s.workers.paused then s.(workers := s.workers.(resumed := s.workers.resumed + {name})) else s
      case Broken(_, late) => Fail(s.(status := if late then Success else s.status))
      case Fine(_) => s.(at := End, status := Success, workers := s.workers.(resumed := s.workers.paused))
  }

  // ---- Recovery ----

  function Recovered(s: State, e: Event): State
    requires Recovering(s.at)
  {
    match s.at
    case Caught => s.(at := if s.flags.activating && !s.flags.accepted then RollBack else Resume)
    case RollBack =>
      if e.Broken? then
        s.(at := Resume, flags := s.flags.(recoverable := false),
           app := s.app.(live := if e.late then Original else Changing, service := Down))
      else s.(at := Resume, app := s.app.(live := Original, service := Restored))
    case Resume =>
      s.(at := ReturnBack, workers := s.workers.(resumed := if s.flags.recoverable then s.workers.paused else s.workers.resumed))
    case ReturnBack =>
      if !(s.flags.caddyOnPreview && s.flags.recoverable) then s.(at := Cleanup)
      else
        s.(at := Cleanup, proxy := Routed(s.proxy, Stable, e),
           flags := if e.Broken? then s.flags.(recoverable := false) else s.flags.(caddyOnPreview := false))
    case Cleanup =>
      if s.flags.previewRunning && !s.flags.caddyOnPreview then
        s.(at := Close, flags := s.flags.(previewRunning := false),
           preview := if e.Broken? && !e.late then s.preview else Deleted)
      else s.(at := Close)
    case Close =>
      if e.Broken? then s.(at := End, status := if e.late then (if s.flags.accepted then Success else Failed) else s.status)
      else s.(at := End, status := if s.flags.accepted then Success else Failed)
  }

  function Next(c: Config, s: State, e: Event): State {
    if Preparing(s.at) then Prepared(c, s, e)
    else if Switching(s.at) then Activated(s, e)
    else if Accepting(s.at) then Accepted(s, e)
    else if s.at.End? then s
    else Recovered(s, e)
  }

  /** The state after the events, one statement each. */
  function Run(c: Config, es: seq<Event>): State {
    if es == [] then START else Next(c, Run(c, es[..|es| - 1]), es[|es| - 1])
  }

  ghost predicate HonestRun(c: Config, es: seq<Event>) {
    forall n | 0 <= n < |es| :: Honest(Run(c, es[..n]), es[n])
  }

  // ---- The invariant ----

  predicate BeforeActivation(p: Place) {
    Preparing(p) || p.Handoff?
  }

  predicate Forward(p: Place) {
    Preparing(p) || Switching(p) || (Accepting(p) && !p.Finish?)
  }

  predicate AfterRollBack(p: Place) {
    p.Resume? || p.ReturnBack? || p.Cleanup? || p.Close? || p.End?
  }

  /** The live directory and the service. */
  predicate LiveInv(s: State) {
    && (s.app.live != Original || s.app.service != Old ==> s.flags.activating)
    && (BeforeActivation(s.at) ==> !s.flags.activating)
    && (Forward(s.at) && !BeforeActivation(s.at) ==> s.flags.activating)
    && ((s.at.StartService? || s.at.ReturnDomains? || s.at.DropPreview? || s.at.Record?) ==> s.app.live == Candidate)
    && (AfterRollBack(s.at) && !s.flags.accepted && s.flags.recoverable ==> s.app.live == Original)
    && (AfterRollBack(s.at) && !s.flags.accepted && s.flags.recoverable && s.flags.activating ==> s.app.service == Restored)
    && (!AfterRollBack(s.at) ==> s.flags.recoverable)
    && (s.at.RollBack? ==> s.flags.activating && !s.flags.accepted)
  }

  /** Acceptance and the recorded outcome. */
  predicate AcceptInv(s: State) {
    && (s.flags.accepted ==> s.app.live == Candidate && s.app.recorded && s.flags.activating && s.app.service == New)
    && (Forward(s.at) ==> !s.flags.accepted && s.status.Ongoing?)
    && (s.at.Finish? ==> s.flags.accepted)
    && (s.status.Success? ==> s.flags.accepted) && (s.status.Failed? ==> !s.flags.accepted)
    && ((s.at.ReturnDomains? || s.at.DropPreview? || s.at.Record?) ==> s.app.service == New)
    && (AfterRollBack(s.at) && s.at != Resume && s.flags.recoverable ==> s.workers.paused <= s.workers.resumed)
  }

  /** The preview and the flags about it. */
  predicate PreviewInv(s: State) {
    && (s.flags.caddyOnPreview ==> s.flags.previewRunning && s.preview.Alive?)
    && (Forward(s.at) && s.flags.previewRunning ==> s.preview.Alive?)
    && (BeforeActivation(s.at) ==> !s.flags.caddyOnPreview && !s.proxy.halfHandoff)
    && ((s.at.DropPreview? || s.at.Record? || s.at.Finish?) ==> !s.flags.caddyOnPreview)
    && (s.at.Record? || s.at.Finish? ==> !s.flags.previewRunning)
    && (s.flags.caddyOnPreview && (s.at.Cleanup? || s.at.Close? || s.at.End?) ==> !s.flags.recoverable)
    && (s.proxy.halfHandoff ==> !s.flags.caddyOnPreview && !s.flags.activating && !Forward(s.at) && s.at != Finish)
    && (s.proxy.halfHandoff && !s.at.Close? && !s.at.End? ==> s.flags.previewRunning && s.preview.Alive?)
    && ((s.at.Close? || s.at.End?) && !s.flags.caddyOnPreview ==> !s.flags.previewRunning)
  }

  /** The proxy, when reloads are reported as they are. */
  predicate ProxyInv(s: State) {
    && (s.proxy.served == ToPreview <==> s.flags.caddyOnPreview)
    && (s.proxy.written == ToPreview ==> s.flags.caddyOnPreview || s.proxy.halfHandoff)
    && (s.proxy.halfHandoff ==> s.proxy.written == ToPreview)
  }

  predicate Inv(s: State) {
    LiveInv(s) && AcceptInv(s) && PreviewInv(s)
  }

  predicate Full(s: State, honest: bool) {
    Inv(s) && (honest ==> ProxyInv(s))
  }

  lemma TryingKeeps(c: Config, s: State, e: Event, honest: bool)
    requires Full(s, honest) && (s.at.Preflight? || s.at.CheckPreview? || s.at.StopPreview?)
    ensures Full(Prepared(c, s, e), honest)
  {
  }

  lemma WaitingKeeps(c: Config, s: State, e: Event, honest: bool)
    requires Full(s, honest) && (s.at.Capture? || s.at.WaitForCron? || s.at.Pause?)
    ensures Full(Prepared(c, s, e), honest)
  {
  }

  lemma SwitchingKeeps(s: State, e: Event, honest: bool)
    requires Full(s, honest) && Switching(s.at) && (honest ==> Honest(s, e))
    ensures Full(Activated(s, e), honest)
  {
  }

  lemma AcceptingKeeps(s: State, e: Event, honest: bool)
    requires Full(s, honest) && Accepting(s.at) && (honest ==> Honest(s, e))
    ensures Full(Accepted(s, e), honest)
  {
  }

  lemma RollingBackKeeps(s: State, e: Event, honest: bool)
    requires Full(s, honest) && (s.at.Caught? || s.at.RollBack? || s.at.Resume?)
    ensures Full(Recovered(s, e), honest)
  {
  }

  lemma CleaningKeeps(s: State, e: Event, honest: bool)
    requires Full(s, honest) && (s.at.ReturnBack? || s.at.Cleanup? || s.at.Close?) && (honest ==> Honest(s, e))
    ensures Full(Recovered(s, e), honest)
  {
  }

  lemma StepKeeps(c: Config, s: State, e: Event, honest: bool)
    requires Full(s, honest) && (honest ==> Honest(s, e))
    ensures Full(Next(c, s, e), honest)
  {
    hide Full, Honest, Prepared, Activated, Accepted, Recovered;
    match s.at
    case Preflight => TryingKeeps(c, s, e, honest);
    case CheckPreview => TryingKeeps(c, s, e, honest);
    case StopPreview => TryingKeeps(c, s, e, honest);
    case Capture => WaitingKeeps(c, s, e, honest);
    case WaitForCron => WaitingKeeps(c, s, e, honest);
    case Pause => WaitingKeeps(c, s, e, honest);
    case Caught => RollingBackKeeps(s, e, honest);
    case RollBack => RollingBackKeeps(s, e, honest);
    case Resume => RollingBackKeeps(s, e, honest);
    case ReturnBack => CleaningKeeps(s, e, honest);
    case Cleanup => CleaningKeeps(s, e, honest);
    case Close => CleaningKeeps(s, e, honest);
    case End =>
    case _ => if Switching(s.at) { SwitchingKeeps(s, e, honest); } else { AcceptingKeeps(s, e, honest); }
  }

  lemma {:induction false} RunsKeep(c: Config, es: seq<Event>, honest: bool)
    requires honest ==> HonestRun(c, es)
    ensures Full(Run(c, es), honest)
    decreases |es|
  {
    if es != [] {
      var n := |es| - 1;
      if honest {
        forall k | 0 <= k < n
          ensures Honest(Run(c, es[..n][..k]), es[..n][k])
        {
          assert es[..n][..k] == es[..k];
        }
      }
      RunsKeep(c, es[..n], honest);
      StepKeeps(c, Run(c, es[..n]), es[n], honest);
    }
  }

  // ---- What every run keeps ----

  /** Nothing live changes before the activation starts, and a release that was accepted stays. */
  lemma AcceptedIsNeverRolledBack(c: Config, es: seq<Event>, n: nat)
    requires n <= |es|
    ensures var s, t := Run(c, es[..n]), Run(c, es);
      && (s.app.live != Original || s.app.service != Old ==> s.flags.activating)
      && (s.flags.accepted ==> t.flags.accepted && t.app.live == Candidate && t.app.service == New && t.app.recorded)
  {
    RunsKeep(c, es[..n], false);
    RunsKeep(c, es, false);
    hide Next, Run;
    AcceptedRemains(c, es, n);
  }

  lemma {:induction false} AcceptedRemains(c: Config, es: seq<Event>, n: nat)
    requires n <= |es|
    ensures Run(c, es[..n]).flags.accepted ==> Run(c, es).flags.accepted
    decreases |es|
  {
    hide Next;
    if n < |es| {
      var last := |es| - 1;
      assert es[..last][..n] == es[..n];
      AcceptedRemains(c, es[..last], n);
      if Run(c, es[..last]).flags.accepted { AcceptedStays(c, Run(c, es[..last]), es[last]); }
    } else {
      assert es[..n] == es;
    }
  }

  lemma AcceptedStays(c: Config, s: State, e: Event)
    requires s.flags.accepted
    ensures Next(c, s, e).flags.accepted
  {
    hide Prepared, Activated, Accepted, Recovered;
    if Preparing(s.at) {
      PreparingStays(c, s, e);
    } else if Switching(s.at) {
      SwitchingStays(s, e);
    } else if Accepting(s.at) {
      AcceptingStays(s, e);
    } else if !s.at.End? {
      RecoveringStays(s, e);
    }
  }

  lemma PreparingStays(c: Config, s: State, e: Event)
    requires Preparing(s.at) && s.flags.accepted
    ensures Prepared(c, s, e).flags.accepted
  {
  }

  lemma SwitchingStays(s: State, e: Event)
    requires Switching(s.at) && s.flags.accepted
    ensures Activated(s, e).flags.accepted
  {
  }

  lemma AcceptingStays(s: State, e: Event)
    requires Accepting(s.at) && s.flags.accepted
    ensures Accepted(s, e).flags.accepted
  {
  }

  lemma RecoveringStays(s: State, e: Event)
    requires Recovering(s.at) && s.flags.accepted
    ensures Recovered(s, e).flags.accepted
  {
  }

  /** How a deployment ends: success is recorded only for an accepted release and failure only for one that
      was not; a release that was not accepted leaves the old one untouched or rolled back, with its service
      and its workers, or is flagged. */
  lemma Outcome(c: Config, es: seq<Event>)
    requires Run(c, es).at.End?
    ensures var s := Run(c, es);
      && (s.status.Success? ==> s.flags.accepted) && (s.status.Failed? ==> !s.flags.accepted)
      && (!s.flags.accepted && !s.flags.activating ==> s.app.live == Original && s.app.service == Old)
      && (!s.flags.accepted && s.flags.activating && s.flags.recoverable ==>
            s.app.live == Original && s.app.service == Restored)
      && (s.flags.recoverable ==>
            s.workers.paused <= s.workers.resumed && !s.flags.caddyOnPreview && !s.flags.previewRunning)
  {
    RunsKeep(c, es, false);
  }

  /** The last statement writes the outcome; this is the one way to lose it. */
  predicate LosesOutcome(s: State, e: Event) {
    s.at.Close? && e.Broken? && !e.late
  }

  ghost predicate KeepsOutcome(c: Config, es: seq<Event>) {
    forall n | 0 <= n < |es| :: !LosesOutcome(Run(c, es[..n]), es[n])
  }

  lemma StepRecords(c: Config, s: State, e: Event)
    requires Inv(s) && !LosesOutcome(s, e) && (s.at.End? ==> !s.status.Ongoing?)
    ensures Next(c, s, e).at.End? ==> !Next(c, s, e).status.Ongoing?
  {
  }

  lemma {:induction false} EndIsRecorded(c: Config, es: seq<Event>)
    requires KeepsOutcome(c, es)
    ensures Run(c, es).at.End? ==> !Run(c, es).status.Ongoing?
    decreases |es|
  {
    if es != [] {
      var n := |es| - 1;
      forall k | 0 <= k < n
        ensures !LosesOutcome(Run(c, es[..n][..k]), es[..n][k])
      {
        assert es[..n][..k] == es[..k];
      }
      EndIsRecorded(c, es[..n]);
      RunsKeep(c, es[..n], false);
      StepRecords(c, Run(c, es[..n]), es[n]);
    }
  }

  /** Unless the last statement fails to write it, every deployment that ends is recorded as a success exactly when
      its release was accepted, and as a failure exactly when it was not. */
  lemma EveryEndIsRecorded(c: Config, es: seq<Event>)
    requires Run(c, es).at.End? && KeepsOutcome(c, es)
    ensures Run(c, es).status.Success? <==> Run(c, es).flags.accepted
    ensures Run(c, es).status.Failed? <==> !Run(c, es).flags.accepted
  {
    EndIsRecorded(c, es);
    RunsKeep(c, es, false);
  }

  /** How far a place is on the way. */
  function Rank(p: Place): nat {
    match p
    case Preflight => 0 case CheckPreview => 1 case StopPreview => 2 case Capture => 3 case WaitForCron => 4
    case Pause => 5 case Handoff => 6 case StopService => 7 case Activating => 8 case StartService => 9
    case ReturnDomains => 10 case DropPreview => 11 case Record => 12 case Finish => 13 case Caught => 14
    case RollBack => 15 case Resume => 16 case ReturnBack => 17 case Cleanup => 18 case Close => 19 case End => 20
  }

  /** What holds in a deployment in which nothing has failed. */
  predicate Smooth(s: State) {
    && !Recovering(s.at)
    && (!s.flags.previewRunning ==> !s.preview.Alive?)
    && s.proxy == (if s.flags.caddyOnPreview then Proxy(ToPreview, ToPreview, false) else Proxy(Stable, Stable, false))
    && (Preparing(s.at) || s.at.Handoff? || s.at.DropPreview? || s.at.Record? || s.at.Finish? || s.at.End? ==> !s.flags.caddyOnPreview)
    && (s.at.Record? || s.at.Finish? || s.at.End? ==> !s.flags.previewRunning)
    && (s.at.StartService? || Accepting(s.at) || s.at.End? ==> s.app.live == Candidate)
    && (Accepting(s.at) || s.at.End? ==> s.app.service == New)
    && (s.at.Finish? || s.at.End? ==> s.app.recorded && s.flags.accepted)
    && (s.at.End? ==> s.status.Success? && s.workers.resumed == s.workers.paused)
  }

  lemma SmoothStep(c: Config, s: State, flag: bool)
    requires Smooth(s)
    ensures Smooth(Next(c, s, Fine(flag))) && (s.at.End? || Rank(Next(c, s, Fine(flag)).at) > Rank(s.at))
  {
    hide Prepared, Activated, Accepted, Recovered;
    if Preparing(s.at) {
      SmoothPreparation(c, s, flag);
    } else if Switching(s.at) {
      SmoothSwitch(s, flag);
    } else if Accepting(s.at) {
      SmoothAcceptance(s, flag);
    }
  }

  lemma SmoothPreparation(c: Config, s: State, flag: bool)
    requires Smooth(s) && Preparing(s.at)
    ensures Smooth(Prepared(c, s, Fine(flag))) && Rank(Prepared(c, s, Fine(flag)).at) > Rank(s.at)
  {
  }

  lemma SmoothSwitch(s: State, flag: bool)
    requires Smooth(s) && Switching(s.at)
    ensures Smooth(Activated(s, Fine(flag))) && Rank(Activated(s, Fine(flag)).at) > Rank(s.at)
  {
  }

  lemma SmoothAcceptance(s: State, flag: bool)
    requires Smooth(s) && Accepting(s.at)
    ensures Smooth(Accepted(s, Fine(flag))) && Rank(Accepted(s, Fine(flag)).at) > Rank(s.at)
  {
  }

  lemma {:induction false} SmoothRun(c: Config, es: seq<Event>)
    requires forall e | e in es :: e.Fine?
    ensures Smooth(Run(c, es)) && Rank(Run(c, es).at) >= if |es| < 14 then |es| else 14
    decreases |es|
  {
    hide Next, Smooth, Rank;
    if es == [] {
      StartIsSmooth();
    } else {
      var n := |es| - 1;
      assert forall e | e in es[..n] :: e in es;
      SmoothRun(c, es[..n]);
      SmoothStep(c, Run(c, es[..n]), es[n].flag);
      EndIsLast(c, Run(c, es[..n]), es[n]);
    }
  }

  lemma StartIsSmooth()
    ensures Smooth(START) && Rank(START.at) == 0
  {
  }

  lemma EndIsLast(c: Config, s: State, e: Event)
    ensures s.at.End? ==> Next(c, s, e) == s
    ensures s.at.End? <==> Rank(s.at) >= 20
    ensures Rank(s.at) >= 14 ==> Recovering(s.at) || s.at.End?
  {
  }

  /** A deployment in which nothing fails ends, and as a success: the candidate is live, its service runs, the
      release is recorded as the active one, the workers run again, the preview is gone and so are the domains'
      routes to it. */
  lemma NothingFailsMeansSuccess(c: Config, es: seq<Event>)
    requires |es| >= 14 && forall e | e in es :: e.Fine?
    ensures var s := Run(c, es);
      && s.at.End? && s.status.Success? && s.flags.accepted
      && s.app == App(Candidate, New, true) && s.workers.resumed == s.workers.paused
      && !s.preview.Alive? && s.proxy == Proxy(Stable, Stable, false)
  {
    SmoothRun(c, es);
    EndIsLast(c, Run(c, es), Fine(true));
  }

  /** With a proxy that reports its reloads as they are, domains are served by the preview only while it has
      not been deleted, and at the end only if the deployment is flagged. */
  lemma ServedPreviewIsAlive(c: Config, es: seq<Event>, n: nat)
    requires HonestRun(c, es) && n <= |es|
    ensures var s := Run(c, es[..n]);
      && (s.proxy.served == ToPreview ==> s.preview.Alive?)
      && (s.at.End? && s.proxy.served == ToPreview ==> !s.flags.recoverable)
  {
    forall k | 0 <= k < n
      ensures Honest(Run(c, es[..n][..k]), es[..n][k])
    {
      assert es[..n][..k] == es[..k];
    }
    RunsKeep(c, es[..n], true);
  }

  /** The file of the proxy can outlive the preview it names, but only after the handoff wrote it and failed. */
  lemma FileNamesDeletedPreviewOnlyAfterHalfHandoff(c: Config, es: seq<Event>)
    requires HonestRun(c, es)
    ensures var s := Run(c, es);
      && (s.proxy.written == ToPreview && !s.preview.Alive? ==> s.proxy.halfHandoff)
      && (s.proxy.halfHandoff ==> s.proxy.written == ToPreview && s.proxy.served == Stable)
  {
    RunsKeep(c, es, true);
  }

  // ---- When there is no handoff ----

  predicate HandsOff(c: Config) {
    c.preflight && !c.windows
  }

  /** Without a handoff the proxy is never touched. */
  predicate NoHandoffInv(c: Config, s: State) {
    && s.proxy.served == Stable && s.proxy.written == Stable && !s.flags.caddyOnPreview
    && (!c.preflight ==> !s.flags.previewRunning)
    && (s.at.Capture? || s.at.WaitForCron? || s.at.Pause? || s.at.Handoff? ==> !s.flags.previewRunning)
  }

  lemma StepKeepsNoHandoff(c: Config, s: State, e: Event)
    requires !HandsOff(c) && NoHandoffInv(c, s)
    ensures NoHandoffInv(c, Next(c, s, e))
  {
    hide Prepared, Activated, Accepted, Recovered, NoHandoffInv;
    if Preparing(s.at) {
      PreparingKeepsOff(c, s, e);
    } else if Switching(s.at) {
      SwitchingKeepsOff(c, s, e);
    } else if Accepting(s.at) {
      AcceptingKeepsOff(c, s, e);
    } else if !s.at.End? {
      RecoveringKeepsOff(c, s, e);
    }
  }

  lemma PreparingKeepsOff(c: Config, s: State, e: Event)
    requires Preparing(s.at) && !HandsOff(c) && NoHandoffInv(c, s)
    ensures NoHandoffInv(c, Prepared(c, s, e))
  {
  }

  lemma SwitchingKeepsOff(c: Config, s: State, e: Event)
    requires Switching(s.at) && !HandsOff(c) && NoHandoffInv(c, s)
    ensures NoHandoffInv(c, Activated(s, e))
  {
  }

  lemma AcceptingKeepsOff(c: Config, s: State, e: Event)
    requires Accepting(s.at) && !HandsOff(c) && NoHandoffInv(c, s)
    ensures NoHandoffInv(c, Accepted(s, e))
  {
  }

  lemma RecoveringKeepsOff(c: Config, s: State, e: Event)
    requires Recovering(s.at) && !HandsOff(c) && NoHandoffInv(c, s)
    ensures NoHandoffInv(c, Recovered(s, e))
  {
  }

  lemma {:induction false} NoHandoff(c: Config, es: seq<Event>)
    requires !HandsOff(c)
    ensures NoHandoffInv(c, Run(c, es))
    decreases |es|
  {
    if es != [] {
      NoHandoff(c, es[..|es| - 1]);
      StepKeepsNoHandoff(c, Run(c, es[..|es| - 1]), es[|es| - 1]);
    }
  }

  lemma Extend(c: Config, es: seq<Event>, e: Event)
    ensures Run(c, es + [e]) == Next(c, Run(c, es), e)
  {
    assert (es + [e])[..|es|] == es;
  }

  const TO_HANDOFF := [Fine(true)] + [Fine(true)] + [Fine(true)] + [Fine(true)] + [Fine(true)]

  /** A preview that is up, with domains to hand over. */
  const READY := START.(at := Handoff, preview := Alive, flags := START.flags.(previewRunning := true, domains := true))

  /** On the way there, once the preview is up. */
  function Up(at: Place, domains: bool): State {
    START.(at := at, preview := Alive, flags := START.flags.(previewRunning := true, domains := domains))
  }

  lemma PreparationPasses(c: Config)
    requires HandsOff(c)
    ensures Next(c, START, Fine(true)) == Up(CheckPreview, false)
    ensures Next(c, Up(CheckPreview, false), Fine(true)) == Up(Capture, true)
    ensures Next(c, Up(Capture, true), Fine(true)) == Up(WaitForCron, true)
    ensures Next(c, Up(WaitForCron, true), Fine(true)) == Up(Pause, true)
    ensures Next(c, Up(Pause, true), Fine(true)) == READY
  {
    hide Activated, Accepted, Recovered;
  }

  lemma ReadyIsReached(c: Config)
    requires HandsOff(c)
    ensures Run(c, TO_HANDOFF) == READY
  {
    var f := Fine(true);
    assert Run(c, []) == START && [] + [f] == [f];
    PreparationPasses(c);
    hide Run, Next, Up;
    Extend(c, [], f);
    Extend(c, [f], f);
    Extend(c, [f] + [f], f);
    Extend(c, [f] + [f] + [f], f);
    Extend(c, [f] + [f] + [f] + [f], f);
  }

  /** What is left when the handoff fails: the candidate is cleaned up while the file, and the proxy too if its
      reload happened, still name it. */
  function Stranded(took: bool): State {
    Left(took, End).(status := Failed, preview := Deleted, flags := READY.flags.(previewRunning := false))
  }

  function FailedHandoff(took: bool): seq<Event> {
    TO_HANDOFF + [Broken(true, took)] + [Fine(true)] + [Fine(true)] + [Fine(true)] + [Fine(true)] + [Fine(true)]
  }

  /** After the failed handoff, at a place of the recovery. */
  function Left(took: bool, at: Place): State {
    READY.(at := at, proxy := Proxy(if took then ToPreview else Stable, ToPreview, true))
  }

  lemma HandoffFails(c: Config, took: bool)
    ensures Next(c, READY, Broken(true, took)) == Left(took, Caught)
  {
    hide Prepared, Accepted, Recovered;
  }

  lemma RecoveryFindsNothingToUndo(c: Config, took: bool)
    ensures Next(c, Left(took, Caught), Fine(true)) == Left(took, Resume)
    ensures Next(c, Left(took, Resume), Fine(true)) == Left(took, ReturnBack)
    ensures Next(c, Left(took, ReturnBack), Fine(true)) == Left(took, Cleanup)
  {
    hide Prepared, Accepted, Activated;
  }

  lemma CleanupDeletesThePreview(c: Config, took: bool)
    ensures Next(c, Next(c, Left(took, Cleanup), Fine(true)), Fine(true)) == Stranded(took)
  {
    hide Prepared, Accepted, Activated;
  }

  lemma FailedHandoffStrands(c: Config, took: bool)
    requires HandsOff(c)
    ensures Run(c, FailedHandoff(took)) == Stranded(took)
  {
    var f := Fine(true);
    ReadyIsReached(c);
    hide Run, Next, Left, Stranded;
    HandoffFails(c, took);
    RecoveryFindsNothingToUndo(c, took);
    CleanupDeletesThePreview(c, took);
    var r1 := TO_HANDOFF + [Broken(true, took)];
    Extend(c, TO_HANDOFF, Broken(true, took));
    Extend(c, r1, f);
    Extend(c, r1 + [f], f);
    Extend(c, r1 + [f] + [f], f);
    Extend(c, r1 + [f] + [f] + [f], f);
    Extend(c, r1 + [f] + [f] + [f] + [f], f);
  }

  /** Whatever the proxy reports, domains are never served by a deleted preview exactly when there is no
      handoff: otherwise a reload that happened and was reported as failed leaves them there. */
  lemma ServingIsSafeExactlyWithoutHandoff(c: Config)
    ensures (forall es :: Run(c, es).proxy.served == ToPreview ==> Run(c, es).preview.Alive?) <==> !HandsOff(c)
  {
    if HandsOff(c) {
      FailedHandoffStrands(c, true);
      hide Run;
      assert Run(c, FailedHandoff(true)).proxy.served == ToPreview && !Run(c, FailedHandoff(true)).preview.Alive?;
    } else {
      forall es
        ensures Run(c, es).proxy.served == ToPreview ==> Run(c, es).preview.Alive?
      {
        NoHandoff(c, es);
      }
    }
  }

  lemma FailedHandoffIsHonest(c: Config)
    requires HandsOff(c)
    ensures HonestRun(c, FailedHandoff(false))
  {
    var es := FailedHandoff(false);
    forall n | 0 <= n < |es|
      ensures Honest(Run(c, es[..n]), es[n])
    {
      assert !es[n].Broken? || !es[n].late;
    }
  }

  /** The file is another matter: even with honest reloads, it never names a deleted preview exactly when
      there is no handoff. A handoff whose reload fails leaves it there, and the preview is then deleted. */
  lemma FileIsSafeExactlyWithoutHandoff(c: Config)
    ensures (forall es | HonestRun(c, es) :: Run(c, es).proxy.written == ToPreview ==> Run(c, es).preview.Alive?) <==> !HandsOff(c)
  {
    if HandsOff(c) {
      FailedHandoffStrands(c, false);
      FailedHandoffIsHonest(c);
      hide Run, HonestRun;
      assert Run(c, FailedHandoff(false)).proxy.written == ToPreview && !Run(c, FailedHandoff(false)).preview.Alive?;
    } else {
      forall es | HonestRun(c, es)
        ensures Run(c, es).proxy.written == ToPreview ==> Run(c, es).preview.Alive?
      {
        NoHandoff(c, es);
      }
    }
  }
}
