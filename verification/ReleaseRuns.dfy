/** Whole runs of a release: an activation that may fail anywhere, an application that may write in
    between, and a rollback that may be interrupted any number of times before it is left alone. */
module ReleaseRuns {
  import opened Collections
  import opened Trees
  import opened ReleaseTheory
  import opened ReleasePlan
  import opened ReleaseVolume
  import opened ReleasePlanning
  import opened ReleaseSteps
  import opened DirectoryTheory
  import opened DirectoryRecords
  import opened DirectoryDoubts
  import opened DeploymentReleases

  /** The retained data is what other processes wrote last, and everything else is as it was. */
  ghost predicate Undone(before: Disk, after: Disk, retained: Tree, kept: set<Path>) {
    && (forall q :: At(after.root, q) == At(if Under(q, kept) then retained else before.root, q))
    && after.candidate == before.candidate
  }

  /** The retained data as other processes have left it, when `found` was live at the given moment. */
  function Left(found: Tree, moment: nat, volume: Volume): Tree
    requires moment <= volume.now <= |volume.others|
    reads volume`now
  {
    RetainedAfter(found, moment, volume.others, volume.now)
  }

  /** What a crash leaves is enough to put everything but the retained data back: the journal, corrected by
      looking at the trees, says which moves to undo. */
  ghost predicate Recoverable(before: Disk, s: Snapshot, kept: set<Path>) {
    var moves := Settled(s.journal, s.disk);
    var back := Recovered(s.disk, DisplacedBy(moves), InstalledBy(moves));
    && (forall q :: q != [] && !Under(q, kept) ==> At(back.root, q) == At(before.root, q))
    && back.candidate == before.candidate
  }

  ghost predicate LogRecoverable(before: Disk, history: seq<Snapshot>, n: nat, kept: set<Path>) {
    forall i | n <= i < |history| :: Recoverable(before, history[i], kept)
  }

  lemma SafeIsRecoverable(o: Origin, before: Disk, history: seq<Snapshot>, n: nat)
    requires LogSafe(o, history, n) && o.live == before.root && o.work == before.candidate
    ensures LogRecoverable(before, history, n, o.kept)
  {
    forall i | n <= i < |history|
      ensures Recoverable(before, history[i], o.kept)
    {
      var s := history[i];
      var moves := Settled(s.journal, s.disk);
      assert CrashSafe(o, s);
      OriginalIsRecoverable(o, s.disk, DisplacedBy(moves), InstalledBy(moves), s.journal.created != []);
      SameAtSameTree(Recovered(s.disk, DisplacedBy(moves), InstalledBy(moves)).candidate, before.candidate);
    }
  }

  /** In contents mode an interrupted rollback can be rerun until it completes: it does as soon as the
      faults stop, unless someone touched what was moved. */
  method RetryContents(release: DeploymentRelease, interruptions: nat) returns (ok: bool)
    requires release.mode == Contents && release.Explained()
    modifies release, release.volume`disk, release.volume`now, release.volume`journal, release.volume`history, release.volume`faulty
    ensures release.Explained() && release.origin == old(release.origin)
    ensures old(release.volume.now) <= release.volume.now
    ensures Extends(old(release.volume.history), release.volume.history)
    ensures LogSafe(release.origin, release.volume.history, |old(release.volume.history)|)
    ensures ok <==> old(Unblocked(release.volume.disk, release.contentMoves))
    ensures ok ==> forall q :: At(release.volume.disk.root, q) ==
                               At(if Under(q, release.origin.kept) then release.volume.Retained() else release.origin.live, q)
    ensures ok ==> release.volume.disk.candidate == release.origin.work
    ensures ok ==> release.phase == RolledBack && release.volume.journal == release.Record()
  {
    hide CrashSafe, Placed, IsPlan, Unblocked, LogRemembers, Agrees, Contained;
    ghost var n, clear := |release.volume.history|, Unblocked(release.volume.disk, release.contentMoves);
    LogNothing(release.origin, release.volume.history);
    for i := 0 to interruptions
      invariant release.Explained() && release.origin == old(release.origin) && old(release.volume.now) <= release.volume.now
      invariant Unblocked(release.volume.disk, release.contentMoves) == clear
      invariant Extends(old(release.volume.history), release.volume.history)
      invariant LogSafe(release.origin, release.volume.history, n)
    {
      ghost var h := release.volume.history;
      release.volume.faulty := *;
      var undone := release.Rollback();
      LogJoins(release.origin, h, release.volume.history, n);
    }
    ghost var h := release.volume.history;
    release.volume.faulty := false;
    ok := release.Rollback();
    LogJoins(release.origin, h, release.volume.history, n);
    forall q | ok && Under(q, release.origin.kept)
      ensures At(release.volume.disk.root, q) == At(release.volume.Retained(), q)
    {
      SameInsideAt(release.volume.disk.root, release.volume.Retained(), release.origin.kept, q);
    }
  }

  /** The same in directory mode: it completes unless someone removed what was carried over. A record that
      told what to put back still does, after every step. */
  method RetryDirectory(release: DeploymentRelease, interruptions: nat) returns (ok: bool)
    requires release.mode == Directory && release.Located()
    modifies release, release.volume`disk, release.volume`now, release.volume`journal, release.volume`history, release.volume`faulty
    ensures release.Located()
    ensures ok <==> old(release.Returnable())
    ensures ok ==> release.volume.disk.root == old(release.Home())
    ensures ok ==> release.phase == RolledBack && release.volume.journal == release.Record()
    ensures Extends(old(release.volume.history), release.volume.history)
    ensures old(release.Told()) ==> LogTells(old(release.Home()), release.volume.history, |old(release.volume.history)|)
  {
    hide Restored, Whereabouts, Telling, LogTells, HomeOf;
    ghost var home, clear, told, n := release.Home(), release.Returnable(), release.Told(), |release.volume.history|;
    TellsNothing(home, release.volume.history);
    for i := 0 to interruptions
      invariant release.Located() && release.Home() == home && release.Returnable() == clear
      invariant Extends(old(release.volume.history), release.volume.history)
      invariant told ==> release.Told() && LogTells(home, release.volume.history, n)
    {
      ghost var h := release.volume.history;
      release.volume.faulty := *;
      var undone := release.Rollback();
      TellsJoin(home, h, release.volume.history, n);
    }
    ghost var h := release.volume.history;
    release.volume.faulty := false;
    ok := release.Rollback();
    TellsJoin(home, h, release.volume.history, n);
  }

  /** However far an activation in contents mode came, and however often its rollback was interrupted,
      in the end root and candidate are as before, but for what other processes wrote as retained data. */
  method ContentsActivationIsUndone(release: DeploymentRelease, interruptions: nat) returns (activated: bool)
    requires release.mode == Contents && release.Prepared()
    modifies release, release.volume
    ensures old(release.volume.now) <= release.volume.now <= |release.volume.others|
    ensures Undone(old(release.volume.disk), release.volume.disk,
                   Left(old(release.volume.disk).root, old(release.volume.now), release.volume), release.origin.kept)
    ensures release.volume.now == old(release.volume.now) ==> release.volume.disk.root == old(release.volume.disk).root
    ensures activated ==> release.origin.kept == RetainedIn(old(release.volume.disk).root, old(release.persistent))
    ensures LogRecoverable(old(release.volume.disk), release.volume.history, |old(release.volume.history)|, release.origin.kept)
    ensures release.phase == RolledBack && release.volume.journal == release.Record()
  {
    hide CrashSafe, Placed, IsPlan, Unblocked, LogRemembers, Agrees, Contained, Overlaid, Covers, Supplied, Activatable, LogRecoverable;
    ghost var n, d := |release.volume.history|, release.volume.disk;
    activated := release.Activate();
    ghost var h := release.volume.history;
    var ok := RetryContents(release, interruptions);
    LogJoins(release.origin, h, release.volume.history, n);
    SafeIsRecoverable(release.origin, d, release.volume.history, n);
    if release.volume.now == old(release.volume.now) {
      SameAtSameTree(release.volume.disk.root, d.root);
    }
  }

  /** However far an activation in directory mode came, and however often its rollback was interrupted,
      in the end the root is the tree that was live before. */
  method DirectoryActivationIsUndone(release: DeploymentRelease, interruptions: nat) returns (activated: bool)
    requires release.mode == Directory && release.Prepared()
    modifies release, release.volume
    ensures release.volume.disk.root == old(release.volume.disk).root
    ensures release.phase == RolledBack && release.volume.journal == release.Record()
    ensures Undoubted(old(release.volume.disk).root, old(release.volume.disk), old(release.persistent)) ==>
              LogTells(old(release.volume.disk).root, release.volume.history, |old(release.volume.history)|)
  {
    hide Restored, Whereabouts, Telling, LogTells, HomeOf, Undoubted, Assembled;
    ghost var n, home := |release.volume.history|, release.volume.disk.root;
    activated := release.Activate();
    ghost var h := release.volume.history;
    var ok := RetryDirectory(release, interruptions);
    TellsJoin(home, h, release.volume.history, n);
  }

  /** What a running application may leave: the root and the containers of retained data stay directories. */
  ghost predicate KeepsContainers(next: Tree, kept: set<Path>) {
    WellFormed(next) && forall q :: Spine(q, kept) ==> IsDir(next, q)
  }

  /** The application removed nothing that a release had brought in, and put nothing in place of what the
      release had only taken away. */
  ghost predicate LeavesMoved(before: Disk, next: Tree, kept: set<Path>) {
    forall p :: Frontier(p, kept) ==>
      (p in before.candidate ==> p in next) && (p in before.root && p !in before.candidate ==> p !in next)
  }

  /** At and below one moved path: what was live is back, and the candidate has what the application made
      of its content; what the release never moved is as the application left it. */
  ghost predicate PutBackAt(before: Disk, after: Disk, next: Tree, p: Path, q: Path) {
    && At(after.root, q) == At(if p in before.root || p in before.candidate then before.root else next, q)
    && At(after.candidate, q) == At(if p in before.candidate then next else before.candidate, q)
  }

  /** Everything back in its place after an application has run. */
  ghost predicate PutBack(before: Disk, after: Disk, next: Tree, kept: set<Path>) {
    && (forall p, q :: Frontier(p, kept) && p <= q ==> PutBackAt(before, after, next, p, q))
    && (forall q :: Spine(q, kept) && q != [] ==> IsDir(after.root, q))
  }

  lemma RunLeavesMoved(o: Origin, before: Disk, d: Disk, moves: seq<ContentMove>, next: Tree)
    requires IsPlan(o, moves) && Covers(o, moves) && Supplied(o, moves) && forall m | m in moves :: m.state == Done
    requires o.live == before.root && o.work == before.candidate && d.root == next
    ensures Unblocked(d, moves) <==> LeavesMoved(before, next, o.kept)
  {
    EverythingMoved(o, moves);
    if LeavesMoved(before, next, o.kept) {
      assert forall p | p in InstalledBy(moves) + DisplacedBy(moves) :: Frontier(p, o.kept);
    }
  }

  lemma MovedIsNotKept(p: Path, q: Path, kept: set<Path>)
    requires Frontier(p, kept) && p <= q
    ensures !Under(q, kept)
  {
    forall r | r in kept
      ensures !(r <= q)
    {
      if r <= q {
        PrefixesCompare(p, r, q);
        FrontierAvoidsRetained(p, kept, r);
      }
    }
  }

  /** What the application wrote is absorbed into the trees a rollback puts back. */
  lemma AbsorbedIsPutBack(o: Origin, displaced: set<Path>, installed: set<Path>, next: Tree, p: Path, q: Path)
    requires WellFormed(o.live) && WellFormed(o.work) && Frontier(p, o.kept) && p <= q
    requires forall f :: f in displaced <==> f in o.live && Frontier(f, o.kept)
    requires forall f :: f in installed <==> f in o.work && Frontier(f, o.kept)
    ensures !Under(q, o.kept)
    ensures At(Absorbed(o, displaced, installed, next).live, q) == At(if p in o.live || p in o.work then o.live else next, q)
    ensures At(Absorbed(o, displaced, installed, next).work, q) == At(if p in o.work then next else o.work, q)
  {
    MovedIsNotKept(p, q, o.kept);
    if p !in displaced { FrontierIsNotUnder(p, q, displaced, o.kept); }
    if p !in installed { FrontierIsNotUnder(p, q, installed, o.kept); }
    assert Under(q, displaced) <==> p in o.live;
    assert Under(q, installed) <==> p in o.work;
    if q in o.live { AncestorsPresent(o.live, p, q); }
    if q in o.work { AncestorsPresent(o.work, p, q); }
  }

  lemma AbsorbedContainers(o: Origin, moves: seq<ContentMove>, next: Tree, q: Path)
    requires (forall p | p in DisplacedBy(moves) + InstalledBy(moves) :: Frontier(p, o.kept)) && Spine(q, o.kept) && q != []
    requires IsDir(next, q) && Antichain(o.kept)
    ensures IsDir(Absorbed(o, DisplacedBy(moves), InstalledBy(moves), next).live, q)
  {
    SpineIsNotUnder(q, DisplacedBy(moves), o.kept);
    SpineIsNotUnder(q, InstalledBy(moves), o.kept);
    SpineIsNotKept(q, o.kept);
  }

  /** What the rollback restores after an application has run. */
  lemma AbsorbedMeansPutBack(o: Origin, before: Disk, after: Disk, moves: seq<ContentMove>, next: Tree)
    requires IsPlan(o, moves) && Covers(o, moves) && Supplied(o, moves) && forall m | m in moves :: m.state == Done
    requires o.live == before.root && o.work == before.candidate && before.Sound() && o.Sound() && KeepsContainers(next, o.kept)
    requires var o' := Absorbed(o, DisplacedBy(moves), InstalledBy(moves), next);
             (forall q :: !Under(q, o.kept) ==> At(after.root, q) == At(o'.live, q)) && after.candidate == o'.work
    ensures PutBack(before, after, next, o.kept)
  {
    EverythingMoved(o, moves);
    forall p, q | Frontier(p, o.kept) && p <= q
      ensures PutBackAt(before, after, next, p, q)
    {
      AbsorbedIsPutBack(o, DisplacedBy(moves), InstalledBy(moves), next, p, q);
    }
    forall q | Spine(q, o.kept) && q != []
      ensures IsDir(after.root, q)
    {
      AbsorbedContainers(o, moves, next, q);
      SpineIsNotKept(q, o.kept);
    }
  }

  lemma RunMayStart(o: Origin, d: Disk, moves: seq<ContentMove>, made: bool, next: Tree)
    requires Placed(o, d, DisplacedBy(moves), InstalledBy(moves), made) && [] in d.root && KeepsContainers(next, o.kept)
    requires !o.existed ==> [] !in o.live
    ensures (o.existed || made) && LeavesContainers(o, d.root, next)
  {
  }

  /** The application runs in the activated root. */
  method Run(release: DeploymentRelease, ghost before: Disk, next: Tree)
    requires release.Explained() && release.Activated() && [] in release.volume.disk.root
    requires before.Sound() && release.origin == Untouched(before).(kept := release.origin.kept)
    requires Covers(release.origin, release.contentMoves) && Supplied(release.origin, release.contentMoves)
    requires KeepsContainers(next, release.origin.kept)
    modifies release`origin, release.volume`disk, release.volume`shared, release.volume`since, release.volume`logged
    ensures release.Explained() && old(release.origin).Sound()
    ensures release.volume.shared == next && release.volume.since == release.volume.now
    ensures release.origin ==
            Absorbed(old(release.origin), DisplacedBy(release.contentMoves), InstalledBy(release.contentMoves), next)
    ensures Unblocked(release.volume.disk, release.contentMoves) <==> LeavesMoved(before, next, release.origin.kept)
  {
    hide CrashSafe, Placed, IsPlan, Unblocked, LogRemembers, Covers, Supplied, KeepsContainers, LeavesMoved, Absorbed;
    ghost var o := release.origin;
    release.ExplainedIsSound();
    RunMayStart(o, release.volume.disk, release.contentMoves, release.created != [], next);
    release.ApplicationRuns(next);
    AbsorbedKeeps(o, DisplacedBy(release.contentMoves), InstalledBy(release.contentMoves), next);
    RunLeavesMoved(o, before, release.volume.disk, release.contentMoves, next);
  }

  lemma AbsorbedKeeps(o: Origin, displaced: set<Path>, installed: set<Path>, next: Tree)
    ensures Absorbed(o, displaced, installed, next).kept == o.kept
  {
  }

  /** The application runs in the activated root, then the release is rolled back. */
  method RunAndRetry(release: DeploymentRelease, ghost before: Disk, next: Tree, interruptions: nat) returns (ok: bool)
    requires release.mode == Contents && release.Explained() && release.Activated() && [] in release.volume.disk.root
    requires before.Sound() && release.origin == Untouched(before).(kept := release.origin.kept)
    requires Covers(release.origin, release.contentMoves) && Supplied(release.origin, release.contentMoves)
    requires KeepsContainers(next, release.origin.kept)
    modifies release, release.volume
    ensures release.Explained() && release.origin.kept == old(release.origin.kept)
    ensures ok <==> LeavesMoved(before, next, release.origin.kept)
    ensures ok ==> PutBack(before, release.volume.disk, next, release.origin.kept)
    ensures old(release.volume.now) <= release.volume.now <= |release.volume.others|
    ensures ok ==> SameInside(release.volume.disk.root, Left(next, old(release.volume.now), release.volume), release.origin.kept)
  {
    hide CrashSafe, LogSafe, LogRemembers, Agrees, Placed, IsPlan, Covers, Supplied, Unblocked, Contained;
    hide Absorbed, KeepsContainers, PutBack, LeavesMoved;
    ghost var o, moves := release.origin, release.contentMoves;
    Run(release, before, next);
    AbsorbedKeeps(o, DisplacedBy(moves), InstalledBy(moves), next);
    ok := RetryContents(release, interruptions);
    if ok { AbsorbedMeansPutBack(o, before, release.volume.disk, moves, next); }
  }

  /** When an application has run after the activation, the rollback completes exactly when it left what
      was moved in place. Then all displaced content is back as it was, what the application made of the new
      content is in the candidate, and its other files stay. */
  method ContentsRunIsUndone(release: DeploymentRelease, next: Tree, interruptions: nat)
    returns (ran: bool, ok: bool, ghost moment: nat)
    requires release.mode == Contents && release.Prepared()
    requires KeepsContainers(next, RetainedIn(release.volume.disk.root, release.persistent))
    modifies release, release.volume
    ensures old(release.volume.now) <= moment <= release.volume.now <= |release.volume.others|
    ensures !ran ==> ok && moment == old(release.volume.now)
    ensures !ran ==> Undone(old(release.volume.disk), release.volume.disk,
                            Left(old(release.volume.disk).root, moment, release.volume), release.origin.kept)
    ensures ran ==> release.origin.kept == RetainedIn(old(release.volume.disk).root, old(release.persistent))
    ensures var d := old(release.volume.disk);
      !old(release.volume.faulty) && [] in d.root && Activatable(d, old(release.persistent)) ==> ran
    ensures ran ==> (ok <==> LeavesMoved(old(release.volume.disk), next, release.origin.kept))
    ensures ran && ok ==> PutBack(old(release.volume.disk), release.volume.disk, next, release.origin.kept)
    ensures ran && ok ==> SameInside(release.volume.disk.root, Left(next, moment, release.volume), release.origin.kept)
  {
    hide CrashSafe, Placed, IsPlan, Unblocked, LogRemembers, Agrees, Contained, Covers, Supplied, Activatable;
    hide KeepsContainers, PutBack, LeavesMoved;
    ghost var before := release.volume.disk;
    var activated := release.Activate();
    ran := activated && [] in release.volume.disk.root;
    moment := if ran then release.volume.now else old(release.volume.now);
    if ran {
      ok := RunAndRetry(release, before, next, interruptions);
    } else {
      ok := RetryContents(release, interruptions);
    }
  }

  /** When an application has run in between, the tree that comes back holds what the application left
      below the carried paths; it comes back exactly when the application left the carried paths. */
  method DirectoryRunIsUndone(release: DeploymentRelease, next: Tree, interruptions: nat)
    returns (activated: bool, ok: bool, ghost cut: nat)
    requires release.mode == Directory && release.Prepared() && WellFormed(next)
    modifies release, release.volume
    ensures !activated ==> ok && release.volume.disk.root == old(release.volume.disk).root
    ensures !old(release.volume.faulty) && Replaceable(old(release.volume.disk), old(release.persistent)) ==> activated
    ensures var kept := RetainedIn(old(release.volume.disk).root, old(release.persistent));
      && (activated ==> (ok <==> [] in next && kept <= next.Keys))
      && (activated && ok ==> release.volume.disk.root == Restored(old(release.volume.disk).root, next, kept))
    ensures |old(release.volume.history)| <= cut <= |release.volume.history|
    ensures Undoubted(old(release.volume.disk).root, old(release.volume.disk), old(release.persistent)) ==>
              LogTells(old(release.volume.disk).root, release.volume.history[..cut], |old(release.volume.history)|)
    ensures var live, kept := old(release.volume.disk).root, RetainedIn(old(release.volume.disk).root, old(release.persistent));
      Undoubted(live, old(release.volume.disk), old(release.persistent)) ==>
        LogTells(if activated then Restored(live, next, kept) else live, release.volume.history, cut)
  {
    hide Restored, Whereabouts, Telling, LogTells, HomeOf, Undoubted, Assembled, Replaceable;
    activated := release.Activate();
    cut := |release.volume.history|;
    if activated { release.ApplicationRunsInDirectory(next); }
    ok := RetryDirectory(release, interruptions);
  }

  /** Where the start is not free of doubt, no reader of the journal and the trees can tell what to put back: there
      is another start, of another live tree, and a crash that leaves the same journal and the same trees. */
  method CrashesLookAlike(one: DeploymentRelease, other: DeploymentRelease) returns (ghost crash: Snapshot)
    requires one.mode == Directory && one.Prepared() && other.mode == Directory && other.Prepared()
    requires one != other && one.volume != other.volume && one.persistent == other.persistent
    requires !one.volume.faulty && !other.volume.faulty && Replaceable(one.volume.disk, one.persistent)
    requires LookAlike(one.volume.disk, other.volume.disk, one.persistent)
    modifies one, one.volume, other, other.volume
    ensures Logged(one.volume.history, |old(one.volume.history)|, crash)
    ensures Logged(other.volume.history, |old(other.volume.history)|, crash)
    ensures old(one.volume.disk).root != old(other.volume.disk).root
  {
    hide Logged, Whereabouts, Restored, Telling, HomeOf, LogTells, Undoubted, Assembled, Turn, HadBeenLive;
    ghost var d, d', persistent := one.volume.disk, other.volume.disk, one.persistent;
    ghost var j := one.Record().(phase := Activating);
    crash := CommonCrash(d, d', persistent, j);
    var first := one.Activate();
    var second := other.Activate();
    CommonCrashIsLogged(one.volume.history, |old(one.volume.history)|, other.volume.history, |old(other.volume.history)|,
                        d, d', persistent, j, crash, first, second);
  }

  /** Two releases of the same trees, one in each mode: where both succeed they install the same tree, up to
      the directories that contain retained data. */
  method BothModesAgree(inPlace: DeploymentRelease, whole: DeploymentRelease) returns (both: bool)
    requires inPlace.mode == Contents && inPlace.Prepared() && whole.mode == Directory && whole.Prepared()
    requires inPlace != whole && inPlace.volume != whole.volume
    requires inPlace.volume.disk == whole.volume.disk && inPlace.persistent == whole.persistent
    modifies inPlace, inPlace.volume, whole, whole.volume
    ensures both && inPlace.volume.now == old(inPlace.volume.now) ==>
              forall q :: !Spine(q, RetainedIn(old(whole.volume.disk).root, old(whole.persistent))) ==>
                            At(inPlace.volume.disk.root, q) == At(whole.volume.disk.root, q)
    ensures var d, persistent := old(whole.volume.disk), old(whole.persistent);
      !inPlace.volume.faulty && !whole.volume.faulty && Activatable(d, persistent) && Replaceable(d, persistent) ==> both
  {
    hide CrashSafe, Placed, IsPlan, Unblocked, LogRemembers, Agrees, Contained, Covers, Supplied;
    hide Assembled, Whereabouts, Restored, Activatable, Replaceable;
    ghost var d := whole.volume.disk;
    both := inPlace.Activate();
    ghost var o, contents := inPlace.origin, inPlace.volume.disk;
    ghost var alone := inPlace.volume.now == old(inPlace.volume.now);
    assert both && alone && o.kept != {} ==> inPlace.volume.Retained() == d.root;
    assert both && alone ==> Overlaid(o, contents, d.root);
    var ok := whole.Activate();
    both := both && ok;
    if both && alone { ModesInstallTheSame(o, contents, whole.volume.disk.root); }
  }
}
