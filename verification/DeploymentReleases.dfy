/** Activation and rollback of a release: the planned single moves of the contents mode and the
    whole-directory renames of the directory mode. */
module DeploymentReleases {
  import opened Trees
  import opened ReleaseTheory
  import opened ReleasePlan
  import opened ReleaseVolume
  import opened ReleasePlanning
  import opened ReleaseSteps
  import opened DirectoryTheory
  import opened DirectoryRecords
  import RetainedPaths

  class DeploymentRelease {
    const volume: Volume
    const mode: Mode
    var persistent: seq<Path>
    var moved: seq<Path>
    var originalMoved: bool
    var candidateMoved: bool
    var phase: Phase
    var contentMoves: seq<ContentMove>
    var created: seq<Path>
    /** The trees this activation started from. */
    ghost var origin: Origin

    constructor (volume: Volume, mode: Mode)
      ensures this.volume == volume && this.mode == mode
      ensures Record() == Journal(Building, [], [], false, false, mode, [], [])
    {
      this.volume, this.mode := volume, mode;
      persistent, moved, contentMoves, created := [], [], [], [];
      originalMoved, candidateMoved := false, false;
      phase := Building;
      origin := Origin(map[], map[], map[], {}, false);
    }

    function Record(): Journal
      reads this
    {
      Journal(phase, persistent, moved, originalMoved, candidateMoved, mode, contentMoves, created)
    }

    /** The remembered moves account for everything on disk, and so does what a crash would leave. */
    ghost predicate Explained()
      reads this, volume
    {
      && volume.Valid() && volume.kept == origin.kept && Contained(origin)
      && IsPlan(origin, contentMoves) && created in {[], [[]]}
      && Placed(origin, volume.disk, DisplacedBy(contentMoves), InstalledBy(contentMoves), created != [])
      && CrashSafe(origin, Snapshot(volume.journal, volume.disk))
      && Agrees(volume.journal, volume.disk, contentMoves)
    }

    /** A record of the present state may be written. */
    ghost predicate Recordable()
      reads this
    {
      && (phase == Activating ==> NextIsPending(contentMoves))
      && (phase in {Building, RolledBack} ==> created == [] && forall m | m in contentMoves :: m.state != Done)
    }

    method WriteRecord() returns (ok: bool)
      requires Explained() && Recordable()
      modifies volume`disk, volume`now, volume`journal, volume`history
      ensures old(volume.now) <= volume.now
      ensures Explained() && Drifted(old(volume.disk), volume.disk, origin.kept)
      ensures volume.journal == if ok then Record() else old(volume.journal)
      ensures Extends(old(volume.history), volume.history) && LogSafe(origin, volume.history, |old(volume.history)|)
      ensures old(Tidy(volume.disk, contentMoves)) ==>
                Tidy(volume.disk, contentMoves) && LogTidy(origin, volume.history, |old(volume.history)|)
      ensures !volume.faulty ==> ok
    {
      ghost var j, d := volume.journal, volume.disk;
      ok := volume.WriteJournal(Record());
      RetainedDataIsFree(origin, d, DisplacedBy(contentMoves), InstalledBy(contentMoves), created != [], volume.disk.root);
      DriftKeepsSafety(origin, j, d, volume.disk);
      ExactJournalIsSafe(origin, Record(), volume.disk);
      LogOne(origin, old(volume.history), Snapshot(volume.journal, volume.disk), contentMoves);
    }

    /** Creates the missing live directories on the way to `relative`, recording each one first. */
    method EnsureLiveDirectory(relative: Path) returns (ok: bool)
      requires volume.Valid() && !Under(relative, volume.kept) && volume.journal == Record()
      requires !ThroughLink(volume.disk.root, relative)
      modifies this`created, volume`disk, volume`now, volume`journal, volume`history
      ensures old(volume.now) <= volume.now
      ensures volume.Valid() && MissingOnWay(old(created), created, relative, old(volume.disk).root)
      ensures |created| <= |old(created)| + |relative| + 1
      ensures Creating(old(Record()), old(volume.disk), created, relative, volume.kept, Snapshot(volume.journal, volume.disk))
      ensures Extends(old(volume.history), volume.history)
      ensures LogCreating(old(Record()), old(volume.disk), created, relative, volume.kept, volume.history, |old(volume.history)|)
      ensures ok ==> IsDir(volume.disk.root, relative) && volume.journal == Record()
      ensures !volume.faulty && ClearWay(old(volume.disk).root, relative) ==> ok
      decreases |relative|, 2
    {
      hide LogRemembers;
      StartCreating(Record(), volume.disk, relative, volume.kept);
      var found;
      ok, found := volume.Lookup(Root, relative);
      if !ok { return; }
      if found.Some? {
        assert relative[..|relative|] == relative;
        ok := found.value == Dir;
      } else {
        ok := CreateMissing(relative);
      }
    }

    /** The directory does not exist: create what is missing above it, then it. */
    method CreateMissing(relative: Path) returns (ok: bool)
      requires volume.Valid() && !Under(relative, volume.kept) && volume.journal == Record()
      requires !ThroughLink(volume.disk.root, relative) && relative !in volume.disk.root
      modifies this`created, volume`disk, volume`now, volume`journal, volume`history
      ensures old(volume.now) <= volume.now
      ensures volume.Valid() && MissingOnWay(old(created), created, relative, old(volume.disk).root)
      ensures |created| <= |old(created)| + |relative| + 1
      ensures Creating(old(Record()), old(volume.disk), created, relative, volume.kept, Snapshot(volume.journal, volume.disk))
      ensures Extends(old(volume.history), volume.history)
      ensures LogCreating(old(Record()), old(volume.disk), created, relative, volume.kept, volume.history, |old(volume.history)|)
      ensures ok ==> IsDir(volume.disk.root, relative) && volume.journal == Record()
      ensures !volume.faulty && ClearWay(old(volume.disk).root, relative) ==> ok
      decreases |relative|, 1
    {
      hide Creating, LogCreating;
      ghost var start, d, n := Record(), volume.disk, |volume.history|;
      StartCreating(start, d, relative, volume.kept);
      if relative != [] {
        ok := EnsureParent(relative);
        if !ok { return; }
      }
      ghost var c, h := created, volume.history;
      ok := CreateLiveDirectory(relative, start, d);
      LogGrows(start, d, c, created, relative, volume.kept, h, volume.history, n);
    }

    /** The recursive step of EnsureLiveDirectory. */
    method EnsureParent(relative: Path) returns (ok: bool)
      requires volume.Valid() && !Under(relative, volume.kept) && volume.journal == Record() && relative != []
      requires !ThroughLink(volume.disk.root, relative) && relative !in volume.disk.root
      modifies this`created, volume`disk, volume`now, volume`journal, volume`history
      ensures old(volume.now) <= volume.now
      ensures volume.Valid() && MissingOnWay(old(created), created, relative, old(volume.disk).root)
      ensures |created| <= |old(created)| + |relative|
      ensures Creating(old(Record()), old(volume.disk), created, relative, volume.kept, Snapshot(volume.journal, volume.disk))
      ensures Extends(old(volume.history), volume.history)
      ensures LogCreating(old(Record()), old(volume.disk), created, relative, volume.kept, volume.history, |old(volume.history)|)
      ensures ok ==> relative !in volume.disk.root && IsDir(volume.disk.root, Parent(relative)) && volume.journal == Record()
      ensures !volume.faulty && ClearWay(old(volume.disk).root, relative) ==> ok
      decreases |relative|, 0
    {
      hide LogRemembers;
      ghost var start, d, n := Record(), volume.disk, |volume.history|;
      ParentOfWay(d.root, relative);
      UnderParent(relative, volume.kept);
      ok := EnsureLiveDirectory(Parent(relative));
      LogTowards(start, d, created, Parent(relative), relative, volume.kept, volume.history, n);
      assert GrownAt(d, volume.disk, Root, relative, Root, Parent(relative), volume.kept);
      CreatingTowards(start, d, created, Parent(relative), relative, volume.kept, Snapshot(volume.journal, volume.disk));
      PrefixOfParent(relative);
    }

    /** Records the intent to create `relative`. */
    method AnnounceDirectory(relative: Path, ghost start: Journal, ghost d: Disk) returns (ok: bool)
      requires volume.Valid() && volume.journal == Record()
      requires Creating(start, d, created, relative, volume.kept, Snapshot(volume.journal, volume.disk))
      modifies this`created, volume`disk, volume`now, volume`journal, volume`history
      ensures old(volume.now) <= volume.now
      ensures volume.Valid() && created == old(created) + [relative] && Drifted(old(volume.disk), volume.disk, volume.kept)
      ensures Creating(start, d, created, relative, volume.kept, Snapshot(volume.journal, volume.disk))
      ensures volume.history == old(volume.history) + [Snapshot(volume.journal, volume.disk)]
      ensures volume.journal == if ok then Record() else old(volume.journal)
      ensures !volume.faulty ==> ok
    {
      hide LogRemembers, GrownOn;
      ghost var before := volume.disk;
      created := created + [relative];
      ok := volume.WriteJournal(Record());
      StillCreating(start, d, created, relative, volume.kept, before, volume.disk, volume.journal);
    }

    /** Records the intent to create `relative`, then creates it. */
    method CreateLiveDirectory(relative: Path, ghost start: Journal, ghost d: Disk) returns (ok: bool)
      requires volume.Valid() && !Under(relative, volume.kept) && volume.journal == Record()
      requires relative !in volume.disk.root && relative !in d.root
      requires Creating(start, d, created, relative, volume.kept, Snapshot(volume.journal, volume.disk))
      modifies this`created, volume`disk, volume`now, volume`journal, volume`history
      ensures old(volume.now) <= volume.now
      ensures volume.Valid() && created == old(created) + [relative]
      ensures Creating(start, d, created, relative, volume.kept, Snapshot(volume.journal, volume.disk))
      ensures Extends(old(volume.history), volume.history)
      ensures LogCreating(start, d, created, relative, volume.kept, volume.history, |old(volume.history)|)
      ensures ok ==> IsDir(volume.disk.root, relative) && volume.journal == Record()
      ensures !volume.faulty && Vacant(old(volume.disk).root, relative) ==> ok
    {
      hide LogRemembers, SameInside, GrownOn;
      ghost var before := volume.disk;
      ok := AnnounceDirectory(relative, start, d);
      if !ok { return; }
      DriftKeepsRoom(before, volume.disk, volume.kept, relative);
      ghost var recorded := volume.disk;
      ok := volume.MakeDirectory(Root, relative);
      NowCreating(start, d, created, relative, volume.kept, recorded, volume.disk, volume.journal);
    }

    /** The first `k` moves are done, the journal says so, and the rest is still planned. */
    ghost predicate AtStep(k: nat)
      reads this, volume
    {
      && Explained() && Tidy(volume.disk, contentMoves)
      && phase == Activating && volume.journal == Record() && origin.aside == map[] && k <= |contentMoves|
      && (created != [] ==> [] in volume.disk.root)
      && (forall i | 0 <= i < |contentMoves| :: contentMoves[i].state == if i < k then Done else Planned)
    }

    /** What every part of an activation step leaves true, whether it succeeds or not. */
    twostate predicate StepKeeps()
      reads this, volume
    {
      && Explained() && Tidy(volume.disk, contentMoves)
      && origin == old(origin) && SamePlaces(contentMoves, old(contentMoves)) && phase == old(phase)
      && Extends(old(volume.history), volume.history) && old(volume.now) <= volume.now
      && LogSafe(origin, volume.history, |old(volume.history)|) && LogTidy(origin, volume.history, |old(volume.history)|)
    }

    /** Makes the live directory that will hold what a move brings in. */
    method PrepareLive(k: nat) returns (ok: bool)
      requires AtStep(k) && k < |contentMoves| && contentMoves[k].from == Candidate
      modifies this`created, volume`disk, volume`now, volume`journal, volume`history
      ensures StepKeeps() && contentMoves == old(contentMoves)
      ensures ok ==> AtStep(k) && contentMoves[k].path != [] && IsDir(volume.disk.root, Parent(contentMoves[k].path))
      ensures !volume.faulty ==> ok
    {
      hide CrashSafe, LogRemembers, SameInside, Agrees;
      ghost var start, d, n := Record(), volume.disk, |volume.history|;
      ghost var displaced, installed := DisplacedBy(contentMoves), InstalledBy(contentMoves);
      assert IsMove(origin, contentMoves[k]);
      var parent := Parent(contentMoves[k].path);
      WayToFrontier(origin, d, displaced, installed, created != [], contentMoves[k].path);
      ParentOfWay(d.root, contentMoves[k].path);
      SpineIsNotKept(parent, origin.kept);
      ok := EnsureLiveDirectory(parent);
      CreatesOnlyTheRoot(origin, d, displaced, installed, start.created, created, parent);
      SettleCreating(origin, d, start, created, parent, Snapshot(volume.journal, volume.disk));
      forall i | n <= i < |volume.history|
        ensures CrashSafe(origin, volume.history[i])
        ensures Tidy(volume.history[i].disk, Settled(volume.history[i].journal, volume.history[i].disk))
      {
        SettleCreating(origin, d, start, created, parent, volume.history[i]);
      }
      if created != [] && volume.journal.created == [] {
        CreatedAnyway(origin, volume.disk, displaced, installed);
      }
    }

    /** Makes the directory of the previous release that will hold what a move takes away. */
    method PreparePrevious(k: nat) returns (ok: bool)
      requires AtStep(k) && k < |contentMoves| && contentMoves[k].from == Root
      modifies volume`disk, volume`now, volume`history
      ensures StepKeeps() && contentMoves == old(contentMoves)
      ensures ok ==> AtStep(k) && contentMoves[k].path != [] && IsDir(volume.disk.previous, Parent(contentMoves[k].path))
      ensures !volume.faulty ==> ok
    {
      ghost var d, n := volume.disk, |volume.history|;
      ghost var displaced, installed := DisplacedBy(contentMoves), InstalledBy(contentMoves);
      assert IsMove(origin, contentMoves[k]);
      var parent := Parent(contentMoves[k].path);
      WayToFrontier(origin, d, displaced, installed, created != [], contentMoves[k].path);
      SpineIsNotKept(parent, origin.kept);
      ok := volume.MakeDirectories(Previous, parent);
      GrowthIsPlaced(origin, d, volume.disk, displaced, installed, created != [], parent);
      ExactJournalIsSafe(origin, volume.journal, volume.disk);
      forall i | n <= i < |volume.history|
        ensures CrashSafe(origin, volume.history[i])
        ensures Tidy(volume.history[i].disk, Settled(volume.history[i].journal, volume.history[i].disk))
      {
        GrowthIsPlaced(origin, d, volume.history[i].disk, displaced, installed, created != [], parent);
        ExactJournalIsSafe(origin, volume.history[i].journal, volume.history[i].disk);
      }
    }

    /** The next move is announced in the journal. */
    ghost predicate Announced(k: nat)
      reads this, volume
    {
      && Explained() && Tidy(volume.disk, contentMoves)
      && phase == Activating && volume.journal == Record() && origin.aside == map[] && k < |contentMoves|
      && (created != [] ==> [] in volume.disk.root)
      && (forall i | 0 <= i < |contentMoves| :: contentMoves[i].state == if i < k then Done else if i == k then Pending else Planned)
      && Vacant(volume.disk.On(contentMoves[k].to), contentMoves[k].path)
    }

    method AnnounceMove(k: nat) returns (ok: bool)
      requires AtStep(k) && k < |contentMoves| && Vacant(volume.disk.On(contentMoves[k].to), contentMoves[k].path)
      modifies this`contentMoves, volume`disk, volume`now, volume`journal, volume`history
      ensures StepKeeps()
      ensures ok ==> Announced(k)
      ensures !volume.faulty ==> ok
    {
      ghost var d := volume.disk;
      var move := contentMoves[k];
      assert IsMove(origin, move);
      MarkPending(origin, contentMoves, k);
      contentMoves := contentMoves[k := move.(state := Pending)];
      ok := WriteRecord();
      DriftKeepsVacancy(d, volume.disk, origin.kept, move.to, move.path);
    }

    /** The announced move has been performed; the journal still calls it pending. */
    ghost predicate Performed(k: nat)
      reads this, volume
    {
      && Explained() && Tidy(volume.disk, contentMoves)
      && phase == Activating && origin.aside == map[] && k < |contentMoves|
      && (created != [] ==> [] in volume.disk.root)
      && (forall i | 0 <= i < |contentMoves| :: contentMoves[i].state == if i <= k then Done else Planned)
    }

    method RenameAnnounced(k: nat) returns (ok: bool)
      requires Announced(k)
      modifies volume`disk, volume`now, volume`history
      ensures old(volume.now) <= volume.now
      ensures volume.Valid() && volume.history == old(volume.history) + [Snapshot(volume.journal, volume.disk)]
      ensures AfterRename(origin, volume.journal, volume.disk, if ok then contentMoves[k := contentMoves[k].(state := Done)] else contentMoves)
      ensures [] in volume.disk.root <==> [] in old(volume.disk).root
      ensures !volume.faulty ==> ok
    {
      ghost var d := volume.disk;
      var move := contentMoves[k];
      assert IsMove(origin, move);
      MovesNeverCollide(origin, d, contentMoves, created != [], k);
      FrontierIsNotAbove(move.path, origin.kept);
      ghost var mid;
      ok, mid := volume.Rename(move.from, move.to, move.path);
      DriftIsExplained(origin, volume.journal, d, mid);
      if ok { AnnouncedMoveDone(origin, mid, volume.journal, k); }
    }

    method PerformAnnounced(k: nat) returns (ok: bool)
      requires Announced(k)
      modifies this`contentMoves, volume`disk, volume`now, volume`history
      ensures StepKeeps()
      ensures ok ==> Performed(k)
      ensures !volume.faulty ==> ok
    {
      hide Placed, CrashSafe, IsPlan;
      var move := contentMoves[k];
      ok := RenameAnnounced(k);
      if ok { contentMoves := contentMoves[k := move.(state := Done)]; }
      LogOne(origin, old(volume.history), Snapshot(volume.journal, volume.disk), contentMoves);
    }

    /** The announced move is performed and recorded. */
    method CommitMove(k: nat) returns (ok: bool)
      requires Announced(k)
      modifies this`contentMoves, volume`disk, volume`now, volume`journal, volume`history
      ensures StepKeeps()
      ensures ok ==> AtStep(k + 1)
      ensures !volume.faulty ==> ok
    {
      hide CrashSafe, IsPlan;
      ghost var n := |volume.history|;
      ok := PerformAnnounced(k);
      if !ok { return; }
      ghost var h, d := volume.history, volume.disk;
      ok := WriteRecord();
      DriftKeepsRoot(d, volume.disk, origin.kept);
      LogJoins(origin, h, volume.history, n);
    }

    /** Refuses to overwrite what stands at a move's destination; there never is anything. */
    method DestinationIsFree(k: nat) returns (ok: bool)
      requires AtStep(k) && k < |contentMoves|
      ensures !volume.faulty ==> ok
    {
      var move := contentMoves[k];
      assert IsMove(origin, move);
      WayToFrontier(origin, volume.disk, DisplacedBy(contentMoves), InstalledBy(contentMoves), created != [], move.path);
      MovesNeverCollide(origin, volume.disk, contentMoves, created != [], k);
      var found;
      ok, found := volume.Lookup(move.to, move.path);
      ok := ok && found.None?;
    }

    method PrepareDestination(k: nat) returns (ok: bool)
      requires AtStep(k) && k < |contentMoves|
      modifies this`created, volume`disk, volume`now, volume`journal, volume`history
      ensures StepKeeps() && contentMoves == old(contentMoves)
      ensures ok ==> AtStep(k) && Vacant(volume.disk.On(contentMoves[k].to), contentMoves[k].path)
      ensures !volume.faulty ==> ok
    {
      assert IsMove(origin, contentMoves[k]);
      if contentMoves[k].to == Root { ok := PrepareLive(k); } else { ok := PreparePrevious(k); }
      if ok { MovesNeverCollide(origin, volume.disk, contentMoves, created != [], k); }
    }

    method AnnounceAndCommit(k: nat) returns (ok: bool)
      requires AtStep(k) && k < |contentMoves| && Vacant(volume.disk.On(contentMoves[k].to), contentMoves[k].path)
      modifies this`contentMoves, volume`disk, volume`now, volume`journal, volume`history
      ensures StepKeeps()
      ensures ok ==> AtStep(k + 1)
      ensures !volume.faulty ==> ok
    {
      hide Placed, CrashSafe, IsPlan;
      ok := AnnounceMove(k);
      if ok {
        ghost var n, h := |old(volume.history)|, volume.history;
        ok := CommitMove(k);
        LogJoins(origin, h, volume.history, n);
      }
    }

    /** One planned move: refuse to overwrite, make room, announce, rename, record. */
    method PerformMove(k: nat) returns (ok: bool)
      requires AtStep(k) && k < |contentMoves|
      modifies this`contentMoves, this`created, volume`disk, volume`now, volume`journal, volume`history
      ensures StepKeeps()
      ensures ok ==> AtStep(k + 1)
      ensures !volume.faulty ==> ok
    {
      hide CrashSafe, Placed, IsPlan;
      ok := DestinationIsFree(k);
      if !ok { LogNothing(origin, volume.history); return; }
      ok := PrepareDestination(k);
      if ok {
        ghost var n, h := |old(volume.history)|, volume.history;
        ok := AnnounceAndCommit(k);
        LogJoins(origin, h, volume.history, n);
      }
    }

    /** The plan is recorded and the first move is next. */
    method StartMoves() returns (ok: bool)
      requires Explained() && Tidy(volume.disk, contentMoves) && phase == Activating && origin.aside == map[] && created == []
      requires forall m | m in contentMoves :: m.state == Planned
      requires [] !in volume.disk.previous
      modifies volume`disk, volume`now, volume`journal, volume`history
      ensures StepKeeps() && contentMoves == old(contentMoves)
      ensures ok ==> AtStep(0)
      ensures !volume.faulty ==> ok
    {
      ghost var n := |volume.history|;
      ok := WriteRecord();
      if !ok { return; }
      ghost var h, d := volume.history, volume.disk;
      assert forall r | r in origin.kept && r <= [] :: r == [];
      ok := volume.MakeDirectory(Previous, []);
      GrowthIsPlaced(origin, d, volume.disk, DisplacedBy(contentMoves), InstalledBy(contentMoves), false, []);
      ExactJournalIsSafe(origin, volume.journal, volume.disk);
      LogOne(origin, h, Snapshot(volume.journal, volume.disk), contentMoves);
      LogJoins(origin, h, volume.history, n);
    }

    /** The phase is recorded; nothing has been planned or moved. */
    ghost predicate Starting()
      reads this, volume
    {
      && volume.Valid() && volume.kept == {} && Independent(persistent)
      && phase == Activating && volume.journal == Record() && contentMoves == [] && created == []
      && ([] in volume.disk.root ==> IsDir(volume.disk.root, []))
    }

    /** Plans the moves; until the plan is remembered nothing changes. */
    method RememberPlan() returns (ok: bool)
      requires Starting() && origin == Untouched(volume.disk)
      modifies this`contentMoves, this`origin, volume`kept, volume`shared, volume`since, volume`logged
      ensures Explained() && Tidy(volume.disk, contentMoves)
      ensures origin.kept == {} || (volume.shared == volume.disk.root && volume.since == volume.now)
      ensures Supplied(origin, contentMoves)
      ensures !ok ==> contentMoves == [] && origin == old(origin)
      ensures ok ==> origin == old(origin).(kept := RetainedIn(volume.disk.root, persistent)) && Covers(origin, contentMoves)
      ensures ok ==> forall m | m in contentMoves :: m.state == Planned
      ensures ok ==> old(origin).aside == map[]
      ensures ok ==> [] !in volume.disk.previous && Walkable(volume.disk, RetainedIn(volume.disk.root, persistent), [])
      ensures !volume.faulty && [] !in volume.disk.previous && Plannable(volume.disk, persistent) ==> ok
    {
      hide CrashSafe, Placed, IsPlan, Walked, Plannable;
      ghost var d := volume.disk;
      UntouchedIsExplained(volume.journal, d);
      var found, kept, plan;
      ok, found := volume.Lookup(Previous, []);
      if !ok { return; }
      if found.Some? { ok := false; return; }
      ok, kept, plan := PlanContentMoves(volume, persistent);
      if !ok { return; }
      contentMoves := plan;
      origin := origin.(kept := kept);
      volume.Share(kept);
      AbsentIsEmpty(d.previous);
      PlannedIsExplained(volume.journal, d, persistent, plan);
    }

    /** The retained data is what other processes left last, from the moment on at which `live` was live. */
    ghost predicate Keeps(live: Tree, moment: nat)
      reads this, volume
    {
      && volume.Valid()
      && SameInside(volume.disk.root, volume.Retained(), origin.kept)
      && (origin.kept == {} || (volume.shared == live && volume.since == moment))
    }

    method ActivateContents() returns (ok: bool)
      requires Starting()
      modifies this`contentMoves, this`created, this`origin
      modifies volume`disk, volume`now, volume`journal, volume`history, volume`kept, volume`shared, volume`since, volume`logged
      ensures old(volume.now) <= volume.now
      ensures Keeps(old(volume.disk).root, old(volume.now))
      ensures Explained() && Tidy(volume.disk, contentMoves)
      ensures Unblocked(volume.disk, contentMoves)
      ensures origin == Untouched(old(volume.disk)).(kept := origin.kept)
      ensures Extends(old(volume.history), volume.history)
      ensures LogSafe(origin, volume.history, |old(volume.history)|) && LogTidy(origin, volume.history, |old(volume.history)|)
      ensures ok ==> origin.kept == RetainedIn(old(volume.disk).root, persistent)
      ensures ok ==> Overlaid(origin, volume.disk, volume.Retained()) && Activated()
      ensures ok ==> phase == Activating && volume.journal == Record()
      ensures ok ==> Covers(origin, contentMoves) && Supplied(origin, contentMoves)
      ensures ok ==> [] !in old(volume.disk).previous && Walkable(old(volume.disk), RetainedIn(old(volume.disk).root, persistent), [])
      ensures !volume.faulty && [] !in old(volume.disk).previous && Plannable(old(volume.disk), persistent) ==> ok
    {
      hide LogSafe, LogTidy, CrashSafe, Covers, Supplied, Placed, IsPlan;
      ghost var d, h := volume.disk, volume.history;
      origin := Untouched(d);
      ok := RememberPlan();
      assert volume.disk == d && volume.history == h;
      LogNothing(origin, h);
      if !ok {
        UntouchedMovesAreUnblocked(origin, d, contentMoves, created != []);
        return;
      }
      assert Walkable(d, RetainedIn(d.root, persistent), []);
      assert origin == Untouched(d).(kept := RetainedIn(d.root, persistent));
      ghost var plan := contentMoves;
      ok := PerformPlan();
      SamePlacesSupplied(origin, plan, contentMoves);
      SamePlacesCover(origin, plan, contentMoves);
      UntouchedMovesAreUnblocked(origin, volume.disk, contentMoves, created != []);
    }

    /** Every move is done and recorded. */
    ghost predicate Activated()
      reads this, volume
    {
      volume.journal == Record() && phase in {Activating, Phase.Complete} && forall m | m in contentMoves :: m.state == Done
    }

    method PerformMoves() returns (ok: bool)
      requires AtStep(0)
      modifies this`contentMoves, this`created, volume`disk, volume`now, volume`journal, volume`history
      ensures StepKeeps()
      ensures ok ==> AtStep(|contentMoves|)
      ensures !volume.faulty ==> ok
    {
      hide Placed, CrashSafe, IsPlan;
      ghost var n := |volume.history|;
      LogNothing(origin, volume.history);
      ok := true;
      var k := 0;
      while k < |contentMoves| && ok
        invariant k <= |contentMoves|
        invariant StepKeeps()
        invariant ok ==> AtStep(k)
        invariant !volume.faulty ==> ok
        decreases |contentMoves| - k, ok
      {
        ghost var h := volume.history;
        ok := PerformMove(k);
        LogJoins(origin, h, volume.history, n);
        k := k + 1;
      }
    }

    method PerformPlan() returns (ok: bool)
      requires Explained() && Tidy(volume.disk, contentMoves) && phase == Activating && origin.aside == map[] && created == []
      requires (forall m | m in contentMoves :: m.state == Planned) && [] !in volume.disk.previous && Covers(origin, contentMoves)
      modifies this`contentMoves, this`created, volume`disk, volume`now, volume`journal, volume`history
      ensures StepKeeps()
      ensures ok ==> Overlaid(origin, volume.disk, volume.Retained()) && Activated()
      ensures ok ==> phase == Activating && volume.journal == Record()
      ensures !volume.faulty ==> ok
    {
      hide Placed, CrashSafe, IsPlan;
      ghost var n, plan := |volume.history|, contentMoves;
      ok := StartMoves();
      if !ok { return; }
      ghost var h := volume.history;
      ok := PerformMoves();
      LogJoins(origin, h, volume.history, n);
      if ok { AllDoneOverlays(origin, volume.disk, plan, contentMoves, created != [], volume.Retained()); }
    }

    /** What every part of a rollback leaves true, whether it succeeds or not. */
    twostate predicate UndoKeeps()
      reads this, volume
    {
      && Explained() && origin == old(origin) && phase == old(phase)
      && Extends(old(volume.history), volume.history) && LogSafe(origin, volume.history, |old(volume.history)|)
      && old(volume.now) <= volume.now
    }

    /** No move from the `i`-th on is done any more, and the journal says so. */
    ghost predicate AtUndo(i: nat)
      reads this, volume
    {
      && Explained() && phase == Restoring && volume.journal == Record() && i <= |contentMoves|
      && (forall j | i <= j < |contentMoves| :: contentMoves[j].state != Done)
    }

    /** Makes sure the directory a move came from is there; it always is. */
    method PrepareOrigin(k: nat) returns (ok: bool)
      requires AtUndo(k + 1) && contentMoves[k].state == Done
      modifies volume`disk, volume`now, volume`history
      ensures UndoKeeps() && contentMoves == old(contentMoves) && Drifted(old(volume.disk), volume.disk, origin.kept)
      ensures !volume.faulty ==> ok
    {
      ghost var d, n := volume.disk, |volume.history|;
      var move := contentMoves[k];
      assert IsMove(origin, move);
      var parent := Parent(move.path);
      OriginStands(origin, d, contentMoves, created != [], k);
      SpineIsNotKept(parent, origin.kept);
      ok := volume.MakeDirectories(move.from, parent);
      NothingToGrow(d, volume.disk, move.from, parent, origin.kept);
      DriftIsExplained(origin, volume.journal, d, volume.disk);
      forall i | n <= i < |volume.history|
        ensures CrashSafe(origin, volume.history[i])
      {
        NothingToGrow(d, volume.history[i].disk, move.from, parent, origin.kept);
        DriftIsExplained(origin, volume.journal, d, volume.history[i].disk);
      }
    }

    /** Takes the last performed move back; the journal still calls it done. */
    method RenameBack(k: nat) returns (ok: bool)
      requires AtUndo(k + 1) && contentMoves[k].state == Done
      requires contentMoves[k].path !in volume.disk.On(contentMoves[k].from)
      modifies volume`disk, volume`now, volume`history
      ensures old(volume.now) <= volume.now
      ensures volume.Valid() && volume.history == old(volume.history) + [Snapshot(volume.journal, volume.disk)]
      ensures AfterUndo(origin, volume.journal, volume.disk, if ok then contentMoves[k := contentMoves[k].(state := Reverted)] else contentMoves)
      ensures Unblocked(old(volume.disk), contentMoves) <==>
        Unblocked(volume.disk, if ok then contentMoves[k := contentMoves[k].(state := Reverted)] else contentMoves)
      ensures !volume.faulty && !ok ==> !Unblocked(old(volume.disk), contentMoves)
    {
      ghost var d := volume.disk;
      var move := contentMoves[k];
      CanUndo(origin, d, contentMoves, created != [], k);
      ghost var mid;
      ok, mid := volume.Rename(move.to, move.from, move.path);
      UndoOutcome(origin, d, mid, volume.journal, k, ok);
    }

    /** Refuses to overwrite what took the place of displaced content. */
    method OriginIsFree(k: nat) returns (ok: bool)
      requires AtUndo(k + 1) && contentMoves[k].state == Done
      ensures ok ==> contentMoves[k].path !in volume.disk.On(contentMoves[k].from)
      ensures !volume.faulty && !ok ==> !Unblocked(volume.disk, contentMoves)
    {
      var move := contentMoves[k];
      OriginStands(origin, volume.disk, contentMoves, created != [], k);
      OccupiedMeansBlocked(origin, volume.disk, contentMoves, created != [], k);
      var found;
      ok, found := volume.Lookup(move.from, move.path);
      ok := ok && found.None?;
    }

    /** Renames the last performed move back and remembers that. */
    method UndoAndMark(k: nat, ghost clear: bool) returns (ok: bool)
      requires AtUndo(k + 1) && contentMoves[k].state == Done && clear == Unblocked(volume.disk, contentMoves)
      requires contentMoves[k].path !in volume.disk.On(contentMoves[k].from)
      modifies this`contentMoves, volume`disk, volume`now, volume`history
      ensures UndoKeeps() && |contentMoves| == |old(contentMoves)|
      ensures ok ==> forall j | k <= j < |contentMoves| :: contentMoves[j].state != Done
      ensures clear == Unblocked(volume.disk, contentMoves)
      ensures !volume.faulty && !ok ==> !clear
    {
      hide Placed, CrashSafe, IsPlan, Unblocked;
      var move := contentMoves[k];
      ok := RenameBack(k);
      if ok { contentMoves := contentMoves[k := move.(state := Reverted)]; }
      assert clear == Unblocked(volume.disk, contentMoves);
      LogOne(origin, old(volume.history), Snapshot(volume.journal, volume.disk), contentMoves);
    }

    /** Undoes one performed move and records that it is undone. */
    method RevertMove(k: nat, ghost clear: bool) returns (ok: bool)
      requires AtUndo(k + 1) && contentMoves[k].state == Done && clear == Unblocked(volume.disk, contentMoves)
      modifies this`contentMoves, volume`disk, volume`now, volume`journal, volume`history
      ensures UndoKeeps() && |contentMoves| == |old(contentMoves)|
      ensures clear == Unblocked(volume.disk, contentMoves) && (ok ==> AtUndo(k))
      ensures !volume.faulty && !ok ==> !clear
    {
      hide Placed, CrashSafe, IsPlan, Unblocked;
      ghost var n, d := |volume.history|, volume.disk;
      ok := OriginIsFree(k);
      if !ok { LogNothing(origin, volume.history); return; }
      ok := PrepareOrigin(k);
      DriftKeepsBlocked(origin, d, volume.disk, contentMoves, created != []);
      DriftKeepsVacant(origin, d, volume.disk, contentMoves, k);
      if ok {
        ghost var h := volume.history;
        ok := UndoAndRecord(k, clear);
        LogJoins(origin, h, volume.history, n);
      }
    }

    method UndoAndRecord(k: nat, ghost clear: bool) returns (ok: bool)
      requires AtUndo(k + 1) && contentMoves[k].state == Done && clear == Unblocked(volume.disk, contentMoves)
      requires contentMoves[k].path !in volume.disk.On(contentMoves[k].from)
      modifies this`contentMoves, volume`disk, volume`now, volume`journal, volume`history
      ensures UndoKeeps() && |contentMoves| == |old(contentMoves)|
      ensures clear == Unblocked(volume.disk, contentMoves) && (ok ==> AtUndo(k))
      ensures !volume.faulty && !ok ==> !clear
    {
      hide Placed, CrashSafe, IsPlan, Unblocked;
      ok := UndoAndMark(k, clear);
      if ok {
        ghost var n, h, d := |old(volume.history)|, volume.history, volume.disk;
        ok := WriteRecord();
        DriftKeepsBlocked(origin, d, volume.disk, contentMoves, created != []);
        LogJoins(origin, h, volume.history, n);
      }
    }

    /** Undoes the performed moves, last first. */
    method UndoMoves() returns (ok: bool)
      requires AtUndo(|contentMoves|)
      modifies this`contentMoves, volume`disk, volume`now, volume`journal, volume`history
      ensures UndoKeeps()
      ensures ok ==> AtUndo(0)
      ensures Unblocked(volume.disk, contentMoves) <==> old(Unblocked(volume.disk, contentMoves))
      ensures !volume.faulty ==> (ok <==> old(Unblocked(volume.disk, contentMoves)))
    {
      hide Placed, CrashSafe, IsPlan, Unblocked;
      ghost var n, clear := |volume.history|, Unblocked(volume.disk, contentMoves);
      LogNothing(origin, volume.history);
      ok := true;
      var k := |contentMoves|;
      while k > 0 && ok
        invariant 0 <= k <= |contentMoves|
        invariant UndoKeeps()
        invariant clear == Unblocked(volume.disk, contentMoves) && (ok ==> AtUndo(k))
        invariant !volume.faulty && !ok ==> !clear
        decreases k, ok
      {
        k := k - 1;
        if contentMoves[k].state == Done {
          ghost var h := volume.history;
          ok := RevertMove(k, clear);
          LogJoins(origin, h, volume.history, n);
        }
      }
      if ok { NothingDoneIsUnblocked(volume.disk, contentMoves); }
    }

    /** Removes the root directory if the release created it and it is still empty. */
    method RemoveCreated() returns (ok: bool)
      requires AtUndo(0)
      modifies this`created, volume`disk, volume`now, volume`journal, volume`history
      ensures UndoKeeps() && contentMoves == old(contentMoves)
      ensures ok ==> AtUndo(0) && created == []
      ensures !volume.faulty ==> ok
    {
      hide CrashSafe, IsPlan;
      ghost var n := |volume.history|;
      LogNothing(origin, volume.history);
      ok := true;
      while created != [] && ok
        invariant UndoKeeps() && contentMoves == old(contentMoves) && created in {[], [[]]}
        invariant ok ==> AtUndo(0)
        invariant !volume.faulty ==> ok
        decreases |created|, ok
      {
        ghost var h := volume.history;
        ok := RemoveLastCreated();
        LogJoins(origin, h, volume.history, n);
      }
    }

    method RemoveLastCreated() returns (ok: bool)
      requires AtUndo(0) && created != []
      modifies this`created, volume`disk, volume`now, volume`journal, volume`history
      ensures UndoKeeps() && contentMoves == old(contentMoves) && (!ok ==> created in {[], [[]]}) && (ok ==> created == [])
      ensures ok ==> AtUndo(0)
      ensures !volume.faulty ==> ok
    {
      hide CrashSafe, IsPlan;
      ghost var n, h := |volume.history|, volume.history;
      ok := RemoveAndForget();
      if ok {
        h := volume.history;
        ok := WriteRecord();
        LogJoins(origin, h, volume.history, n);
      }
    }

    /** Removes the directory created last; data that appeared in it meanwhile keeps it alive. */
    method RemoveAndForget() returns (ok: bool)
      requires AtUndo(0) && created != []
      modifies this`created, volume`disk, volume`now, volume`history
      ensures UndoKeeps() && contentMoves == old(contentMoves)
      ensures created == if ok then [] else old(created)
      ensures !volume.faulty ==> ok
    {
      ghost var d, h := volume.disk, volume.history;
      NothingDoneIsUnblocked(d, contentMoves);
      var relative := created[|created| - 1];
      var result;
      ghost var mid;
      result, mid := volume.RemoveDirectory(relative);
      RemovalIsExplained(origin, volume.journal, d, mid, result, volume.disk);
      LogOne(origin, h, Snapshot(volume.journal, volume.disk), contentMoves);
      ok := result != Refused;
      if ok { created := created[..|created| - 1]; }
    }

    /** Undoes the moves and the created root, then marks the release as rolled back. */
    method RollbackContents() returns (ok: bool)
      requires AtUndo(|contentMoves|)
      modifies this`contentMoves, this`created, volume`disk, volume`now, volume`journal, volume`history
      ensures UndoKeeps()
      ensures ok ==> AtUndo(0) && created == []
      ensures Unblocked(volume.disk, contentMoves) <==> old(Unblocked(volume.disk, contentMoves))
      ensures !volume.faulty ==> (ok <==> old(Unblocked(volume.disk, contentMoves)))
    {
      hide CrashSafe, IsPlan, Placed, Unblocked;
      ghost var n := |volume.history|;
      ok := UndoMoves();
      if ok {
        ghost var h := volume.history;
        NothingDoneIsUnblocked(volume.disk, contentMoves);
        ok := RemoveCreated();
        NothingDoneIsUnblocked(volume.disk, contentMoves);
        LogJoins(origin, h, volume.history, n);
      }
    }

    /** The release is prepared and nothing has been activated. */
    ghost predicate Prepared()
      reads this, volume
    {
      && volume.Valid() && volume.kept == {} && Independent(persistent) && Distinct(persistent)
      && Record() == Journal(Building, persistent, [], false, false, mode, [], []) && volume.journal == Record()
      && ([] in volume.disk.root ==> IsDir(volume.disk.root, []))
      && ([] in volume.disk.candidate ==> IsDir(volume.disk.candidate, []))
      && volume.disk.local == map[]
    }

    /** No directory above a persistent path's place in the candidate may be a link. */
    method Preflight() returns (ok: bool)
      requires volume.Valid()
      ensures ok ==> NoLinkedPlaces(volume.disk.candidate, persistent)
      ensures !volume.faulty && NoLinkedPlaces(volume.disk.candidate, persistent) && !IsLink(volume.disk.candidate, []) ==> ok
    {
      ok := true;
      for k := 0 to |persistent|
        invariant ok
        invariant forall n | 0 <= n < k :: NoLinkAbove(volume.disk.candidate, persistent[n], |persistent[n]|)
      {
        ok := PlaceHasNoLink(persistent[k]);
        if !ok { return; }
      }
    }

    method PlaceHasNoLink(value: Path) returns (ok: bool)
      requires volume.Valid()
      ensures ok ==> NoLinkAbove(volume.disk.candidate, value, |value|)
      ensures !volume.faulty && NoLinkAbove(volume.disk.candidate, value, |value|) && !IsLink(volume.disk.candidate, []) ==> ok
    {
      ghost var t := volume.disk.candidate;
      ok := true;
      var i := |value|;
      while i > 1
        invariant ok && 0 <= i <= |value|
        invariant forall n | i <= n < |value| && 0 < n :: !IsLink(t, value[..n])
        decreases i
      {
        i := i - 1;
        var found;
        ok, found := volume.Lookup(Candidate, value[..i]);
        if value[..i] in t { PresentIsNotThroughLink(t, value[..i]); }
        if !volume.faulty && NoLinkAbove(t, value, |value|) && !IsLink(t, []) { NoLinkMeansNotThrough(t, value, i); }
        ok := ok && (found.None? || !found.value.Link?);
        if !ok { return; }
      }
    }

    /** There is a candidate, and no directory above a persistent path's place in it is a link. */
    ghost predicate Admissible(candidate: Tree)
      reads this`persistent
    {
      [] in candidate && NoLinkedPlaces(candidate, persistent)
    }

    /** The checks before anything is touched, and the record that an activation has begun. */
    method Begin() returns (ok: bool)
      requires Prepared()
      modifies this`phase, this`origin, volume`disk, volume`now, volume`journal, volume`history
      ensures volume.now == old(volume.now)
      ensures volume.disk == old(volume.disk) && volume.Valid() && origin == Untouched(volume.disk)
      ensures Extends(old(volume.history), volume.history)
      ensures LogUntouched(volume.disk, volume.history, |old(volume.history)|)
      ensures volume.journal.contentMoves == [] && volume.journal.created == []
      ensures ok ==> Starting() && [] in volume.disk.candidate && NoLinkedPlaces(volume.disk.candidate, persistent)
      ensures volume.journal == if ok then Record() else old(volume.journal)
      ensures volume.history == old(volume.history) + [Snapshot(volume.journal, volume.disk)] || (!ok && volume.history == old(volume.history))
      ensures ok ==> Record() == old(Record()).(phase := Activating)
      ensures !Admissible(volume.disk.candidate) ==> !ok && phase == old(phase) && volume.journal == old(volume.journal)
      ensures !volume.faulty && Startable(volume.disk, persistent) ==> ok
    {
      ghost var d := volume.disk;
      origin := Untouched(d);
      var found;
      ok, found := volume.Lookup(Candidate, []);
      if !ok { return; }
      if found.None? { ok := false; return; }
      ok := Preflight();
      if !ok { return; }
      phase := Activating;
      ok := volume.WriteJournal(Record());
      NoDrift(d, volume.disk);
    }

    /** Puts the candidate in place of the live tree, one planned move at a time. */
    method ActivateInContents() returns (ok: bool)
      requires Prepared() && mode == Contents
      modifies this`phase, this`contentMoves, this`created, this`origin
      modifies volume`disk, volume`now, volume`journal, volume`history, volume`kept, volume`shared, volume`since, volume`logged
      ensures old(volume.now) <= volume.now
      ensures Keeps(old(volume.disk).root, old(volume.now))
      ensures Explained() && Tidy(volume.disk, contentMoves)
      ensures Unblocked(volume.disk, contentMoves)
      ensures origin == Untouched(old(volume.disk)).(kept := origin.kept)
      ensures Extends(old(volume.history), volume.history)
      ensures LogSafe(origin, volume.history, |old(volume.history)|)
      ensures LogTidy(origin, volume.history, |old(volume.history)|)
      ensures ok ==> origin.kept == RetainedIn(old(volume.disk).root, persistent)
      ensures ok ==> Overlaid(origin, volume.disk, volume.Retained()) && Activated()
      ensures ok ==> phase == Activating && volume.journal == Record()
      ensures ok ==> Covers(origin, contentMoves) && Supplied(origin, contentMoves)
      ensures !volume.faulty && Activatable(old(volume.disk), persistent) ==> ok
      ensures ok ==> Admissible(old(volume.disk).candidate)
      ensures !Admissible(old(volume.disk).candidate) ==> !ok && Record() == old(Record())
      ensures !Admissible(old(volume.disk).candidate) ==> volume.disk == old(volume.disk) && volume.journal == old(volume.journal)
    {
      hide CrashSafe, IsPlan, Placed, Walkable, Plannable, NoLinkedPlaces, Overlaid, LogUntouched, Covers, Supplied, Tidy, Activated;
      ghost var d, n := volume.disk, |volume.history|;
      UntouchedIsSound(d);
      ok := Begin();
      NothingMovedIsSafe(origin, volume.journal, d);
      UntouchedLogIsSafe(origin, d, volume.history, n);
      if !ok { return; }
      ghost var h := volume.history;
      ok := ActivateContents();
      ExplainedIsSound();
      UntouchedLogIsSafe(origin, d, h, n);
      LogJoins(origin, h, volume.history, n);
    }

    /** Puts the candidate in place of the live tree as a whole. */
    method ActivateByDirectory() returns (ok: bool)
      requires Prepared() && mode == Directory
      modifies this`phase, this`moved, this`originalMoved, this`candidateMoved, this`origin
      modifies volume`disk, volume`now, volume`journal, volume`history
      ensures Located() && origin.live == old(volume.disk).root
      ensures Home() == old(volume.disk).root && Returnable()
      ensures Extends(old(volume.history), volume.history)
      ensures ok ==> candidateMoved && Elements(moved) == RetainedIn(old(volume.disk).root, persistent)
      ensures ok ==> phase == Activating && volume.journal == Record()
      ensures ok ==> Assembled(old(volume.disk).root, old(volume.disk).candidate, volume.disk.root, Elements(moved))
      ensures !volume.faulty && Replaceable(old(volume.disk), persistent) ==> ok
      ensures Undoubted(old(volume.disk).root, old(volume.disk), persistent) ==>
                Told() && LogTells(old(volume.disk).root, volume.history, |old(volume.history)|)
      ensures ActivationLogged(volume.history, |old(volume.history)|, old(Record()).(phase := Activating), old(volume.disk),
                               persistent, volume.faulty, ok)
      ensures ok ==> Admissible(old(volume.disk).candidate)
      ensures !Admissible(old(volume.disk).candidate) ==> !ok && Record() == old(Record())
      ensures !Admissible(old(volume.disk).candidate) ==> volume.disk == old(volume.disk) && volume.journal == old(volume.journal)
    {
      hide NoLinkedPlaces, Assembled, Restored, Telling, HomeOf, LogTells, Undoubted, Carriable, LogRemembers, Logged, AllTurnsLogged;
      ghost var d, begun, start := volume.disk, Record().(phase := Activating), volume.history;
      NothingIsElsewhere(d);
      ok := Begin();
      IntactIsHome(origin.live, Current(), moved);
      ghost var h := volume.history;
      if Undoubted(d.root, d, persistent) { StartTells(d.root, d, volume.journal, persistent, start, h); }
      if !ok { return; }
      LastIsLogged(start, Snapshot(begun, d));
      ok := ActivateDirectory();
      NothingIsLost();
      TellsJoin(d.root, h, volume.history, |start|);
      StillLogged(h, volume.history, |start|, Snapshot(begun, d));
      ActivationIsLogged(volume.history, |start|, |h|, begun, d, persistent, volume.faulty, ok);
    }

    /** Puts the candidate in place of the live tree. */
    method Activate() returns (ok: bool)
      requires Prepared()
      modifies this`phase, this`moved, this`originalMoved, this`candidateMoved, this`contentMoves, this`created, this`origin
      modifies volume`disk, volume`now, volume`journal, volume`history, volume`kept, volume`shared, volume`since, volume`logged
      ensures mode == Contents ==> old(volume.now) <= volume.now
      ensures mode == Contents ==> Keeps(old(volume.disk).root, old(volume.now))
      ensures mode == Contents ==> Explained() && Tidy(volume.disk, contentMoves)
      ensures mode == Contents ==> Unblocked(volume.disk, contentMoves)
      ensures mode == Contents ==> origin == Untouched(old(volume.disk)).(kept := origin.kept)
      ensures mode == Contents ==> Extends(old(volume.history), volume.history)
      ensures mode == Contents ==> LogSafe(origin, volume.history, |old(volume.history)|)
      ensures mode == Contents ==> LogTidy(origin, volume.history, |old(volume.history)|)
      ensures mode == Contents && ok ==> origin.kept == RetainedIn(old(volume.disk).root, persistent)
      ensures mode == Contents && ok ==> Overlaid(origin, volume.disk, volume.Retained()) && Activated()
      ensures mode == Contents && ok ==> Covers(origin, contentMoves) && Supplied(origin, contentMoves)
      ensures mode == Contents && !volume.faulty && Activatable(old(volume.disk), persistent) ==> ok
      ensures mode == Directory ==> Located() && origin.live == old(volume.disk).root
      ensures mode == Directory ==> Home() == old(volume.disk).root && Returnable()
      ensures mode == Directory ==> Extends(old(volume.history), volume.history)
      ensures mode == Directory && ok ==> candidateMoved && Elements(moved) == RetainedIn(old(volume.disk).root, persistent)
      ensures mode == Directory && ok ==> Assembled(old(volume.disk).root, old(volume.disk).candidate, volume.disk.root, Elements(moved))
      ensures mode == Directory && !volume.faulty && Replaceable(old(volume.disk), persistent) ==> ok
      ensures mode == Directory && Undoubted(old(volume.disk).root, old(volume.disk), persistent) ==>
                Told() && LogTells(old(volume.disk).root, volume.history, |old(volume.history)|)
      ensures mode == Directory ==>
                ActivationLogged(volume.history, |old(volume.history)|, old(Record()).(phase := Activating), old(volume.disk),
                                 persistent, volume.faulty, ok)
      ensures ok ==> Admissible(old(volume.disk).candidate)
      ensures ok ==> phase == Activating && volume.journal == Record()
      ensures !Admissible(old(volume.disk).candidate) ==> !ok && Record() == old(Record())
      ensures !Admissible(old(volume.disk).candidate) ==> volume.disk == old(volume.disk) && volume.journal == old(volume.journal)
    {
      hide *;
      if mode == Contents { ok := ActivateInContents(); } else { ok := ActivateByDirectory(); }
    }

    lemma ExplainedIsSound()
      requires Explained()
      ensures origin.Sound()
    {
    }

    /** Whole-directory mode: the three trees are where the flags and the carried paths say. */
    ghost predicate Located()
      reads this, volume
    {
      && volume.Valid() && volume.kept == {}
      && Whereabouts(origin.live, volume.disk, moved, originalMoved, candidateMoved)
    }

    /** Nothing is lost: what was carried over is, where it is now, as it was live. */
    ghost predicate Intact()
      reads this, volume
    {
      && Located() && SameInside(Current(), origin.live, Elements(moved))
      && (candidateMoved ==> [] in volume.disk.root)
    }

    /** The tree that holds the carried data. */
    function Current(): Tree
      reads this, volume
    {
      volume.disk.On(if candidateMoved then Root else Candidate)
    }

    /** The journal and the trees together tell which tree to put back. */
    ghost predicate Told()
      reads this, volume
    {
      Telling(origin.live, volume.disk, volume.journal, persistent, moved, originalMoved, candidateMoved)
    }

    /** They still do, and did after every step. */
    twostate predicate TellsLive()
      reads this, volume
    {
      && Extends(old(volume.history), volume.history)
      && (old(Told()) ==> Told() && LogTells(origin.live, volume.history, |old(volume.history)|))
    }

    /** An activation is under way and the journal says so. */
    predicate Underway()
      reads this, volume
    {
      phase == Activating && volume.journal.phase == Activating
    }

    lemma LiveIsToldNow()
      requires Intact() && Told()
      ensures HomeOf(volume.journal, volume.disk) == origin.live
    {
      LiveIsTold(origin.live, volume.disk, volume.journal, persistent, moved, originalMoved, candidateMoved);
    }

    /** Records what has just moved. */
    method Note() returns (ok: bool)
      requires Intact() && Underway()
      modifies volume`disk, volume`now, volume`journal, volume`history
      ensures volume.disk == old(volume.disk) && Intact() && Underway() && TellsLive()
      ensures volume.journal == if ok then Record() else old(volume.journal)
      ensures volume.history == old(volume.history) + [Snapshot(volume.journal, volume.disk)]
      ensures !volume.faulty ==> ok
    {
      hide LogRemembers, Telling, LogTells, HomeOf, Whereabouts;
      ghost var d, j, told, h := volume.disk, volume.journal, Told(), volume.history;
      ok := volume.WriteJournal(Record());
      NoDrift(d, volume.disk);
      TellsNothing(origin.live, h);
      if told {
        if ok { CaughtUpTells(origin.live, d, j, volume.journal, persistent, moved, originalMoved, candidateMoved); }
        LiveIsToldNow();
        TellsMore(origin.live, h, |h|, Snapshot(volume.journal, volume.disk));
      }
    }

    /** Renames the live tree as a whole. */
    method RenameRootAside() returns (ok: bool)
      requires Located() && moved == [] && !originalMoved && !candidateMoved && IsDir(volume.disk.root, []) && Underway()
      requires [] !in volume.disk.previous
      modifies this`originalMoved, volume`disk, volume`now, volume`history
      ensures Intact() && Underway() && TellsLive() && originalMoved == ok
      ensures volume.disk == if ok then old(volume.disk).(root := map[], previous := old(volume.disk).root) else old(volume.disk)
      ensures volume.history == old(volume.history) + [Snapshot(volume.journal, volume.disk)]
      ensures !volume.faulty ==> ok
    {
      hide LogRemembers, Telling, LogTells, HomeOf;
      ghost var d, told, h := volume.disk, Told(), volume.history;
      AbsentIsEmpty(d.previous);
      ghost var mid;
      ok, mid := volume.Rename(Root, Previous, []);
      NoDrift(d, mid);
      RenameWhole(d, Root, Previous);
      TellsNothing(origin.live, h);
      if ok { originalMoved := true; }
      if told {
        if ok { AsideTells(origin.live, d, volume.disk, volume.journal, persistent); } else { LiveIsToldNow(); }
        TellsMore(origin.live, h, |h|, Snapshot(volume.journal, volume.disk));
      }
    }

    lemma NothingCarriedYet()
      requires Located() && moved == [] && !candidateMoved
      ensures Intact()
    {
    }

    /** Moves the live tree aside as a whole. */
    method MoveRootAside() returns (ok: bool)
      requires Located() && moved == [] && !originalMoved && !candidateMoved && IsDir(volume.disk.root, []) && Underway()
      modifies this`originalMoved, volume`disk, volume`now, volume`journal, volume`history
      ensures Intact() && Underway() && TellsLive() && (ok ==> originalMoved && volume.journal == Record())
      ensures volume.disk.candidate == old(volume.disk).candidate && volume.disk.local == old(volume.disk).local
      ensures ok ==> volume.disk == old(volume.disk).(root := map[], previous := old(volume.disk).root)
      ensures !volume.faulty && [] !in old(volume.disk).previous ==> ok
      ensures !volume.faulty && [] !in old(volume.disk).previous ==>
                Logged(volume.history, |old(volume.history)|, Snapshot(old(volume.journal), volume.disk))
      ensures ok ==> Logged(volume.history, |old(volume.history)|, Snapshot(volume.journal, volume.disk))
    {
      hide LogRemembers, Telling, LogTells, HomeOf, Logged, Intact, Whereabouts;
      NothingCarriedYet();
      ghost var n, h := |volume.history|, volume.history;
      TellsNothing(origin.live, h);
      var found;
      ok, found := volume.Lookup(Previous, []);
      if !ok { return; }
      if found.Some? { ok := false; return; }
      ok := RenameRootAside();
      ghost var hh, s := volume.history, Snapshot(volume.journal, volume.disk);
      LastIsLogged(h, s);
      if !ok { return; }
      ok := Note();
      StillLogged(hh, volume.history, n, s);
      LastIsLogged(hh, Snapshot(volume.journal, volume.disk));
      LoggedSooner(volume.history, n, |hh|, Snapshot(volume.journal, volume.disk));
      TellsJoin(origin.live, hh, volume.history, n);
    }

    /** Moves the candidate's own entry at `value` to the local data of the release. */
    method PutAside(value: Path, ghost done: seq<Path>) returns (ok: bool)
      requires Intact() && Underway() && originalMoved && !candidateMoved && value in volume.disk.candidate
      requires Fresh(value, moved) && value in persistent
      requires NearBy(volume.disk.local, done + [value]) && Vacant(volume.disk.local, value)
      modifies volume`disk, volume`now, volume`history
      ensures Intact() && Underway() && TellsLive()
      ensures volume.disk.previous == old(volume.disk).previous && NearBy(volume.disk.local, done + [value])
      ensures volume.disk == if ok then Renamed(old(volume.disk), Candidate, Local, value) else old(volume.disk)
      ensures ok ==> value !in volume.disk.candidate
      ensures forall q :: !(value <= q) ==> At(volume.disk.candidate, q) == At(old(volume.disk).candidate, q)
      ensures forall q :: !(value <= q) ==> At(volume.disk.local, q) == At(old(volume.disk).local, q)
      ensures !volume.faulty ==> ok
    {
      hide LogRemembers, Telling, LogTells, HomeOf, SameInside, NearBy, Renamed;
      ghost var d, told, h := volume.disk, Told(), volume.history;
      ghost var mid;
      ok, mid := volume.Rename(Candidate, Local, value);
      NoDrift(d, mid);
      if ok {
        RenameTransfers(d, Candidate, Local, value);
        MovedNearBy(d, volume.disk, done, value);
        assert volume.disk.On(Previous) == d.On(Previous) && volume.disk.On(Root) == d.On(Root);
      }
      CarriedStays(origin.live, d.candidate, volume.disk.candidate, moved, value);
      TellsNothing(origin.live, h);
      if told {
        RoomTells(origin.live, d, volume.disk, volume.journal, persistent, moved, value);
        TellsMore(origin.live, h, |h|, Snapshot(volume.journal, volume.disk));
      }
    }

    /** Makes room at the place of a path that is about to be carried over. */
    method MakeRoom(value: Path, ghost done: seq<Path>) returns (ok: bool)
      requires Intact() && Underway() && originalMoved && !candidateMoved && Fresh(value, moved) && value in persistent
      requires !ThroughLink(volume.disk.candidate, value)
      requires NearBy(volume.disk.local, done) && value !in volume.disk.local
      modifies volume`disk, volume`now, volume`history
      ensures Intact() && Underway() && TellsLive()
      ensures volume.disk.previous == old(volume.disk).previous && NearBy(volume.disk.local, done + [value])
      ensures ok ==> value !in volume.disk.candidate && volume.disk == RoomMade(old(volume.disk), value)
      ensures forall q :: !(value <= q) ==> At(volume.disk.candidate, q) == At(old(volume.disk).candidate, q)
      ensures forall q :: !(value <= q) ==> At(volume.disk.local, q) == At(old(volume.disk).local, q) || IsDir(volume.disk.local, q)
      ensures !volume.faulty && ClearWay(old(volume.disk).local, Parent(value)) ==> ok
    {
      hide ClearWay, LogRemembers, Telling, LogTells, HomeOf, Renamed, SameInside, Whereabouts, NearBy;
      ghost var d, n := volume.disk, |volume.history|;
      NearByMore(d.local, done, value);
      TellsNothing(origin.live, volume.history);
      var found;
      ok, found := volume.Lookup(Candidate, value);
      if !ok || found.None? { return; }
      ok := MakeWayAside(value);
      GrowsNearBy(d.local, volume.disk.local, done, value);
      if ok {
        ghost var h := volume.history;
        ok := PutAside(value, done);
        TellsJoin(origin.live, h, volume.history, n);
      }
    }

    /** Makes the directories in which the candidate's own entry will be kept. */
    method MakeWayAside(value: Path) returns (ok: bool)
      requires Intact() && Underway() && originalMoved && !candidateMoved && Fresh(value, moved) && value in persistent
      modifies volume`disk, volume`now, volume`history
      ensures Intact() && Underway() && TellsLive()
      ensures volume.disk == old(volume.disk).(local := volume.disk.local)
      ensures forall q :: At(volume.disk.local, q) == At(old(volume.disk).local, q) || (q <= Parent(value) && IsDir(volume.disk.local, q))
      ensures forall q | q in volume.disk.local :: q in old(volume.disk).local || q <= Parent(value)
      ensures ok ==> volume.disk.local == WithWay(old(volume.disk).local, Parent(value)) && IsDir(volume.disk.local, Parent(value))
      ensures !volume.faulty && ClearWay(old(volume.disk).local, Parent(value)) ==> ok
    {
      hide ClearWay, LogRemembers, Telling, HomeOf;
      ghost var d, n, told := volume.disk, |volume.history|, Told();
      ok := volume.MakeDirectories(Local, Parent(value));
      GrowthAlone(d, volume.disk, Local, Parent(value));
      if ok { WayIsMade(d.local, volume.disk.local, Parent(value)); }
      if told {
        RoomTells(origin.live, d, volume.disk, volume.journal, persistent, moved, value);
        forall i | n <= i < |volume.history|
          ensures HomeOf(volume.history[i].journal, volume.history[i].disk) == origin.live
        {
          GrowthAlone(d, volume.history[i].disk, Local, Parent(value));
          RoomTells(origin.live, d, volume.history[i].disk, volume.journal, persistent, moved, value);
        }
      }
    }

    /** Renames the live data at `value` into the candidate. */
    method RenameAcross(value: Path) returns (ok: bool)
      requires Intact() && Underway() && originalMoved && !candidateMoved && Fresh(value, moved) && value in persistent
      requires Vacant(volume.disk.candidate, value)
      modifies this`moved, volume`disk, volume`now, volume`history
      ensures Intact() && Underway() && TellsLive() && volume.disk.local == old(volume.disk).local
      ensures moved == if ok then old(moved) + [value] else old(moved)
      ensures ok ==> value in origin.live && CanRename(old(volume.disk), Previous, Candidate, value)
      ensures ok ==> volume.disk == Renamed(old(volume.disk), Previous, Candidate, value)
      ensures volume.history == old(volume.history) + [Snapshot(volume.journal, volume.disk)]
      ensures !volume.faulty && value in old(volume.disk).previous ==> ok
    {
      hide LogRemembers, Telling, LogTells, HomeOf, Whereabouts, Renamed, SameInside;
      ghost var d, told, h := volume.disk, Told(), volume.history;
      ghost var mid;
      ok, mid := volume.Rename(Previous, Candidate, value);
      NoDrift(d, mid);
      TellsNothing(origin.live, h);
      if ok {
        CarryOver(origin.live, d, moved, value);
        CarriedMore(origin.live, d, moved, value);
        FreshIsLive(origin.live, d, moved, value);
        RenameTransfers(d, Previous, Candidate, value);
        assert volume.disk.On(Local) == d.On(Local);
        if told { CarriedTells(origin.live, d, volume.journal, persistent, moved, value); }
        moved := moved + [value];
      } else if told {
        LiveIsToldNow();
      }
      if told { TellsMore(origin.live, h, |h|, Snapshot(volume.journal, volume.disk)); }
    }

    /** Renames the live data at `value` into the candidate and records that. */
    method CarryAcross(value: Path) returns (ok: bool)
      requires Intact() && Underway() && originalMoved && !candidateMoved && Fresh(value, moved) && value in persistent
      requires Vacant(volume.disk.candidate, value)
      modifies this`moved, volume`disk, volume`now, volume`journal, volume`history
      ensures Intact() && Underway() && TellsLive() && volume.disk.local == old(volume.disk).local
      ensures ok ==> moved == old(moved) + [value] && value in origin.live && volume.journal == Record()
      ensures ok ==> CanRename(old(volume.disk), Previous, Candidate, value)
      ensures ok ==> volume.disk == Renamed(old(volume.disk), Previous, Candidate, value)
      ensures ok ==> Logged(volume.history, |old(volume.history)|, Snapshot(old(volume.journal), volume.disk))
      ensures ok ==> Logged(volume.history, |old(volume.history)|, Snapshot(volume.journal, volume.disk))
      ensures !volume.faulty && value in old(volume.disk).previous ==> ok
    {
      hide LogRemembers, Telling, LogTells, HomeOf, Logged, Renamed;
      ghost var n, h := |volume.history|, volume.history;
      ok := RenameAcross(value);
      if !ok { return; }
      ghost var hh, s := volume.history, Snapshot(volume.journal, volume.disk);
      LastIsLogged(h, s);
      ok := Note();
      StillLogged(hh, volume.history, n, s);
      LastIsLogged(hh, Snapshot(volume.journal, volume.disk));
      LoggedSooner(volume.history, n, |hh|, Snapshot(volume.journal, volume.disk));
      TellsJoin(origin.live, hh, volume.history, n);
    }

    /** Makes the directories of the candidate that will hold the live data. */
    method MakeWayOver(value: Path) returns (ok: bool)
      requires Intact() && Underway() && originalMoved && !candidateMoved && Fresh(value, moved) && value in persistent
      requires value !in volume.disk.candidate
      modifies volume`disk, volume`now, volume`history
      ensures Intact() && Underway() && TellsLive()
      ensures volume.disk == old(volume.disk).(candidate := volume.disk.candidate)
      ensures forall q :: At(volume.disk.candidate, q) == At(old(volume.disk).candidate, q) ||
                (q <= Parent(value) && q !in old(volume.disk).candidate && IsDir(volume.disk.candidate, q))
      ensures ok ==> volume.disk.candidate == WithWay(old(volume.disk).candidate, Parent(value)) && Vacant(volume.disk.candidate, value)
      ensures !volume.faulty && ClearWay(old(volume.disk).candidate, Parent(value)) ==> ok
    {
      hide ClearWay, LogRemembers, Telling, HomeOf, WithWay, Restored, SameInside;
      ghost var d, n, told := volume.disk, |volume.history|, Told();
      ok := volume.MakeDirectories(Candidate, Parent(value));
      GrowthAlone(d, volume.disk, Candidate, Parent(value));
      CarriedStays(origin.live, d.candidate, volume.disk.candidate, moved, value);
      if ok { WayIsMade(d.candidate, volume.disk.candidate, Parent(value)); }
      if told {
        RoomTells(origin.live, d, volume.disk, volume.journal, persistent, moved, value);
        forall i | n <= i < |volume.history|
          ensures HomeOf(volume.history[i].journal, volume.history[i].disk) == origin.live
        {
          GrowthAlone(d, volume.history[i].disk, Candidate, Parent(value));
          RoomTells(origin.live, d, volume.history[i].disk, volume.journal, persistent, moved, value);
        }
      }
    }

    /** Carries the live data at `value` from the previous release into the candidate. */
    method BringOver(value: Path) returns (ok: bool)
      requires Intact() && Underway() && originalMoved && !candidateMoved && Fresh(value, moved) && value in persistent
      requires value !in volume.disk.candidate
      modifies this`moved, volume`disk, volume`now, volume`journal, volume`history
      ensures Intact() && Underway() && TellsLive() && volume.disk.local == old(volume.disk).local
      ensures ok ==> moved == old(moved) + [value] && value in origin.live && volume.journal == Record()
      ensures ok ==> volume.disk == BroughtOver(old(volume.disk), value)
      ensures ok ==> Logged(volume.history, |old(volume.history)|, Snapshot(old(volume.journal), volume.disk))
      ensures ok ==> Logged(volume.history, |old(volume.history)|, Snapshot(volume.journal, volume.disk))
      ensures !volume.faulty && value in old(volume.disk).previous && ClearWay(old(volume.disk).candidate, Parent(value)) ==> ok
      ensures ok ==> forall built | Roomy(origin.live, built, old(volume.disk).candidate, old(moved), value) ::
                Assembled(origin.live, built, volume.disk.candidate, Elements(moved))
    {
      hide ClearWay, LogRemembers, Assembled, Roomy, Telling, LogTells, HomeOf, Logged, WithWay;
      ghost var d, n, before := volume.disk, |volume.history|, moved;
      ok := MakeWayOver(value);
      if !ok { return; }
      ghost var roomy, h := volume.disk, volume.history;
      ok := CarryAcross(value);
      TellsJoin(origin.live, h, volume.history, n);
      if ok {
        ArrivedIsAssembled(origin.live, d, roomy, before, value);
        LoggedSooner(volume.history, n, |h|, Snapshot(old(volume.journal), volume.disk));
        LoggedSooner(volume.history, n, |h|, Snapshot(volume.journal, volume.disk));
      }
    }

    /** The first `i` persistent paths have been carried over where they existed. */
    ghost predicate Carrying(i: nat, built: Tree)
      reads this, volume
    {
      && Intact() && Underway() && volume.journal == Record() && originalMoved && !candidateMoved && i <= |persistent|
      && Elements(moved) == RetainedIn(origin.live, persistent[..i]) && moved == LiveOf(origin.live, persistent[..i])
      && Assembled(origin.live, built, volume.disk.candidate, Elements(moved))
      && NearBy(volume.disk.local, persistent[..i]) && Room(volume.disk.local, persistent)
    }

    /** What is known when it is the turn of the `i`-th path. */
    lemma NextCarries(i: nat, built: Tree)
      requires Carrying(i, built) && i < |persistent| && Independent(persistent) && Distinct(persistent)
      ensures Fresh(persistent[i], moved) && persistent[i] !in volume.disk.local
      ensures At(volume.disk.previous, persistent[i]) == At(origin.live, persistent[i])
      ensures !ThroughLink(origin.live, persistent[i]) ==> !ThroughLink(volume.disk.previous, persistent[i])
      ensures ClearWay(built, Parent(persistent[i])) ==> ClearWay(volume.disk.candidate, Parent(persistent[i]))
      ensures persistent[..i + 1] == persistent[..i] + [persistent[i]]
      ensures RetainedIn(origin.live, persistent[..i + 1]) ==
              Elements(if persistent[i] in origin.live then moved + [persistent[i]] else moved)
      ensures LiveOf(origin.live, persistent[..i + 1]) == if persistent[i] in origin.live then moved + [persistent[i]] else moved
      ensures NearBy(volume.disk.local, persistent[..i + 1])
      ensures persistent[i] in volume.disk.previous ==> !ThroughLink(volume.disk.previous, persistent[i])
    {
      var value := persistent[i];
      NextIsFresh(origin.live, volume.disk, persistent, moved, i);
      FreshIsNotUnder(value, moved, value);
      NextWayIsClear(origin.live, built, volume.disk, moved, value);
      RetainedInMore(origin.live, persistent, i);
      LiveOfMore(origin.live, persistent, i);
      NearByMore(volume.disk.local, persistent[..i], value);
      ElementsAppend(moved, value);
      if value in volume.disk.previous { PresentIsNotThroughLink(volume.disk.previous, value); }
    }

    method CarryOne(i: nat, ghost built: Tree) returns (ok: bool)
      requires Carrying(i, built) && i < |persistent| && Independent(persistent) && Distinct(persistent)
      requires IsDir(built, []) && NoLinkedPlaces(built, persistent)
      modifies this`moved, volume`disk, volume`now, volume`journal, volume`history
      ensures Intact() && Underway() && TellsLive() && (ok ==> Carrying(i + 1, built))
      ensures ok ==> volume.disk == Carried(old(volume.disk), persistent[i])
      ensures ok && persistent[i] !in origin.live ==>
                volume.disk == old(volume.disk) && volume.journal == old(volume.journal) && volume.history == old(volume.history)
      ensures ok && persistent[i] in origin.live ==>
                Logged(volume.history, |old(volume.history)|, Snapshot(old(volume.journal), volume.disk))
      ensures ok && persistent[i] in origin.live ==>
                Logged(volume.history, |old(volume.history)|, Snapshot(volume.journal, volume.disk))
      ensures !volume.faulty && Carriable(origin.live, built, persistent) ==> ok
    {
      hide Telling, LogTells, HomeOf, Logged, LogRemembers, ClearWay, RoomMade, BroughtOver, Whereabouts, Assembled, NearBy, Room;
      var value := persistent[i];
      NextCarries(i, built);
      TellsNothing(origin.live, volume.history);
      var found;
      ok, found := volume.Lookup(Previous, value);
      if ok && found.Some? {
        ok := CarryValue(value, i, built);
      }
    }

    /** The persistent path exists live, or a link on the way to it hides that it does not. */
    method CarryValue(value: Path, i: nat, ghost built: Tree) returns (ok: bool)
      requires Carrying(i, built) && i < |persistent| && Independent(persistent) && Distinct(persistent) && value == persistent[i]
      requires IsDir(built, []) && NoLinkedPlaces(built, persistent)
      requires Fresh(value, moved) && value !in volume.disk.local && At(volume.disk.previous, value) == At(origin.live, value)
      modifies this`moved, volume`disk, volume`now, volume`journal, volume`history
      ensures Intact() && Underway() && TellsLive()
      ensures ok ==> moved == old(moved) + [value] && value in origin.live && volume.journal == Record()
      ensures ok ==> volume.disk == Carried(old(volume.disk), value)
      ensures ok ==> Assembled(origin.live, built, volume.disk.candidate, Elements(moved))
      ensures ok ==> NearBy(volume.disk.local, persistent[..i] + [value]) && Room(volume.disk.local, persistent)
      ensures ok ==> Logged(volume.history, |old(volume.history)|, Snapshot(old(volume.journal), volume.disk))
      ensures ok ==> Logged(volume.history, |old(volume.history)|, Snapshot(volume.journal, volume.disk))
      ensures !volume.faulty && value in old(volume.disk).previous && ClearWay(old(volume.disk).candidate, Parent(value)) ==> ok
    {
      hide Telling, LogTells, HomeOf, Logged, LogRemembers, ClearWay, Whereabouts, RoomMade, BroughtOver;
      ghost var n, d, before := |volume.history|, volume.disk, volume.disk.candidate;
      ghost var aside, carried := volume.disk.local, moved;
      PlaceIsNotLinked(origin.live, built, before, moved, value);
      assert ClearWay(aside, Parent(value));
      ok := MakeRoom(value, persistent[..i]);
      if !ok { return; }
      ghost var h := volume.history;
      RoomStays(aside, volume.disk.local, persistent, value);
      if ClearWay(before, Parent(value)) { WayStaysClear(before, volume.disk.candidate, value); }
      RoomIsRoomy(origin.live, built, before, volume.disk.candidate, moved, value);
      ok := BringOver(value);
      TellsJoin(origin.live, h, volume.history, n);
      if ok {
        LoggedSooner(volume.history, n, |h|, Snapshot(old(volume.journal), volume.disk));
        LoggedSooner(volume.history, n, |h|, Snapshot(volume.journal, volume.disk));
      }
    }

    /** The next turn is logged, whether there was anything to carry or not. */
    lemma TurnIsLogged(n: nat, m: nat, before: Journal, j: Journal, start: Disk, i: nat, h: seq<Snapshot>)
      requires i < |persistent| && Extends(h, volume.history) && n <= m == |h|
      requires before == j.(moved := LiveOf(start.root, persistent[..i]))
      requires Logged(h, n, Snapshot(before, Turn(start, persistent, i)))
      requires volume.disk == Turn(start, persistent, i + 1)
      requires if persistent[i] in start.root then Logged(volume.history, m, Snapshot(before, volume.disk))
               else volume.disk == Turn(start, persistent, i)
      ensures TurnLogged(volume.history, n, j, start, persistent, i)
    {
      hide Logged, Turn, LiveOf;
      StillLogged(h, volume.history, n, Snapshot(before, Turn(start, persistent, i)));
      if persistent[i] in start.root { LoggedSooner(volume.history, n, m, Snapshot(before, volume.disk)); }
    }

    /** The activation has logged its turns up to the `i`-th and stands there. */
    ghost predicate AtTurn(i: nat, n: nat, j: Journal, start: Disk)
      reads this, volume
    {
      && i <= |persistent| && volume.disk == Turn(start, persistent, i)
      && volume.journal == j.(moved := LiveOf(start.root, persistent[..i]))
      && Logged(volume.history, n, Snapshot(volume.journal, volume.disk))
      && AllTurnsLogged(volume.history, n, j, start, persistent, i)
    }

    method CarryNext(i: nat, ghost built: Tree, ghost n: nat, ghost j: Journal, ghost start: Disk) returns (ok: bool)
      requires Carrying(i, built) && i < |persistent| && Independent(persistent) && Distinct(persistent)
      requires IsDir(built, []) && NoLinkedPlaces(built, persistent)
      requires AtTurn(i, n, j, start) && origin.live == start.root
      modifies this`moved, volume`disk, volume`now, volume`journal, volume`history
      ensures Intact() && Underway() && TellsLive() && (ok ==> Carrying(i + 1, built) && AtTurn(i + 1, n, j, start))
      ensures !volume.faulty && Carriable(origin.live, built, persistent) ==> ok
    {
      hide Telling, LogTells, HomeOf, LogRemembers, Intact, Assembled, NearBy, Room, Carriable, TurnLogged, AllTurnsLogged;
      ghost var h, before := volume.history, volume.journal;
      ok := CarryOne(i, built);
      if ok {
        LiveOfMore(origin.live, persistent, i);
        NextTurn(start, persistent, i);
        TurnIsLogged(n, |h|, before, j, start, i, h);
        OneMoreTurn(h, volume.history, n, j, start, persistent, i);
        if persistent[i] in origin.live { LoggedSooner(volume.history, n, |h|, Snapshot(volume.journal, volume.disk)); }
      }
    }

    method CarryAll(ghost built: Tree, ghost n: nat, ghost start: Disk) returns (ok: bool)
      requires Carrying(0, built) && Independent(persistent) && Distinct(persistent)
      requires IsDir(built, []) && NoLinkedPlaces(built, persistent)
      requires AtTurn(0, n, volume.journal, start) && origin.live == start.root
      modifies this`moved, volume`disk, volume`now, volume`journal, volume`history
      ensures Intact() && Underway() && TellsLive() && (ok ==> Carrying(|persistent|, built))
      ensures ok ==> AtTurn(|persistent|, n, old(volume.journal), start)
      ensures !volume.faulty && Carriable(origin.live, built, persistent) ==> ok
    {
      hide Telling, LogTells, HomeOf, Logged, LogRemembers, AtTurn, Whereabouts, Assembled, NearBy, Room;
      ghost var h, j := volume.history, volume.journal;
      TellsNothing(origin.live, h);
      ok := true;
      var i := 0;
      while i < |persistent| && ok
        invariant i <= |persistent| && Intact() && Underway() && TellsLive()
        invariant ok ==> Carrying(i, built) && AtTurn(i, n, j, start)
        invariant !volume.faulty && Carriable(origin.live, built, persistent) ==> ok
        decreases |persistent| - i, ok
      {
        ghost var hh := volume.history;
        ok := CarryNext(i, built, n, j, start);
        TellsJoin(origin.live, hh, volume.history, |h|);
        i := i + 1;
      }
    }

    /** Renames the assembled candidate to the root. */
    method RenameIntoRoot() returns (ok: bool)
      requires Intact() && Underway() && volume.journal == Record() && !candidateMoved
      requires volume.disk.root == map[] && [] in volume.disk.candidate
      modifies this`candidateMoved, volume`disk, volume`now, volume`history
      ensures Intact() && Underway() && TellsLive() && candidateMoved == ok
      ensures ok ==> volume.disk.root == old(volume.disk).candidate
      ensures Extends(old(volume.history), volume.history)
      ensures !volume.faulty ==> ok
    {
      hide LogRemembers, Telling, LogTells, HomeOf;
      ghost var d, told, h := volume.disk, Told(), volume.history;
      RenameWhole(d, Candidate, Root);
      ghost var mid;
      ok, mid := volume.Rename(Candidate, Root, []);
      NoDrift(d, mid);
      TellsNothing(origin.live, h);
      if ok { candidateMoved := true; }
      if told {
        if ok { InstalledTells(origin.live, d, volume.disk, volume.journal, persistent, moved, originalMoved); } else { LiveIsToldNow(); }
        TellsMore(origin.live, h, |h|, Snapshot(volume.journal, volume.disk));
      }
    }

    /** Moves the assembled candidate to the root. */
    method InstallCandidate() returns (ok: bool)
      requires Intact() && Underway() && volume.journal == Record() && !candidateMoved
      requires volume.disk.root == map[] && [] in volume.disk.candidate
      modifies this`candidateMoved, volume`disk, volume`now, volume`journal, volume`history
      ensures Intact() && Underway() && TellsLive()
      ensures ok ==> candidateMoved && volume.disk.root == old(volume.disk).candidate
      ensures ok ==> volume.journal == Record()
      ensures !volume.faulty ==> ok
    {
      hide LogRemembers, Telling, LogTells, HomeOf, Whereabouts;
      ghost var n := |volume.history|;
      ok := RenameIntoRoot();
      if ok {
        ghost var h := volume.history;
        ok := Note();
        TellsJoin(origin.live, h, volume.history, n);
      }
    }

    /** Moves the original aside and carries over what is retained. */
    method ReplaceRoot(ghost built: Tree) returns (ok: bool)
      requires Located() && moved == [] && !originalMoved && !candidateMoved && origin.live == volume.disk.root
      requires Independent(persistent) && Distinct(persistent) && volume.disk.local == map[]
      requires IsDir(volume.disk.candidate, []) && NoLinkedPlaces(volume.disk.candidate, persistent) && built == volume.disk.candidate
      requires IsDir(volume.disk.root, []) && Underway() && volume.journal == Record()
      modifies this`moved, this`originalMoved, volume`disk, volume`now, volume`journal, volume`history
      ensures Intact() && Underway() && TellsLive()
      ensures ok ==> Carrying(|persistent|, built)
      ensures ok ==>
                AllTurnsLogged(volume.history, |old(volume.history)|, old(volume.journal).(originalMoved := true),
                               old(volume.disk), persistent, |persistent|)
      ensures !volume.faulty && [] !in old(volume.disk).previous ==>
                Logged(volume.history, |old(volume.history)|, Snapshot(old(volume.journal), Aside(old(volume.disk))))
      ensures !volume.faulty && [] !in old(volume.disk).previous && Carriable(origin.live, built, persistent) ==> ok
    {
      hide LogRemembers, Telling, LogTells, HomeOf, Logged, AllTurnsLogged, NoLinkedPlaces;
      ghost var n, d, j := |volume.history|, volume.disk, volume.journal;
      NothingCarried(origin.live, built);
      ok := MoveRootAside();
      if !ok { return; }
      ghost var h, aside := volume.history, Snapshot(j, volume.disk);
      assert persistent[..0] == [];
      NoTurnYet(volume.history, n, volume.journal, d, persistent);
      ok := CarryAll(built, n, d);
      TellsJoin(origin.live, h, volume.history, n);
      if Logged(h, n, aside) { StillLogged(h, volume.history, n, aside); }
    }

    /** Takes the live tree, if there is one, out of the way of the candidate and fills the candidate. */
    method FillCandidate() returns (ok: bool)
      requires Located() && moved == [] && !originalMoved && !candidateMoved && origin.live == volume.disk.root
      requires Independent(persistent) && Distinct(persistent) && volume.disk.local == map[]
      requires IsDir(volume.disk.candidate, []) && NoLinkedPlaces(volume.disk.candidate, persistent)
      requires ([] in volume.disk.root ==> IsDir(volume.disk.root, [])) && Underway() && volume.journal == Record()
      modifies this`moved, this`originalMoved, volume`disk, volume`now, volume`journal, volume`history
      ensures Intact() && Underway() && TellsLive()
      ensures ok ==> volume.journal == Record() && volume.disk.root == map[] && [] in volume.disk.candidate
      ensures ok ==> Elements(moved) == RetainedIn(old(volume.disk).root, persistent)
      ensures ok ==> Assembled(old(volume.disk).root, old(volume.disk).candidate, volume.disk.candidate, Elements(moved))
      ensures ok && [] in old(volume.disk).root ==>
                AllTurnsLogged(volume.history, |old(volume.history)|, old(volume.journal).(originalMoved := true),
                               old(volume.disk), persistent, |persistent|)
      ensures !volume.faulty && [] in old(volume.disk).root && [] !in old(volume.disk).previous ==>
                Logged(volume.history, |old(volume.history)|, Snapshot(old(volume.journal), Aside(old(volume.disk))))
      ensures !volume.faulty && Replaceable(old(volume.disk), persistent) ==> ok
    {
      hide LogRemembers, Telling, LogTells, HomeOf, Logged, AllTurnsLogged, NoLinkedPlaces, Carriable;
      ghost var built := volume.disk.candidate;
      NothingCarried(origin.live, built);
      TellsNothing(origin.live, volume.history);
      var found;
      ok, found := volume.Lookup(Root, []);
      if !ok { return; }
      if found.Some? {
        ok := ReplaceRoot(built);
        if !ok { return; }
        assert persistent[..|persistent|] == persistent;
      } else {
        AbsentIsEmpty(volume.disk.root);
      }
      AssembledHasRoot(origin.live, built, volume.disk.candidate, moved);
    }

    method ActivateDirectory() returns (ok: bool)
      requires Located() && moved == [] && !originalMoved && !candidateMoved && origin.live == volume.disk.root
      requires Independent(persistent) && Distinct(persistent) && volume.disk.local == map[]
      requires IsDir(volume.disk.candidate, []) && NoLinkedPlaces(volume.disk.candidate, persistent)
      requires ([] in volume.disk.root ==> IsDir(volume.disk.root, [])) && Underway() && volume.journal == Record()
      modifies this`moved, this`originalMoved, this`candidateMoved, volume`disk, volume`now, volume`journal, volume`history
      ensures Intact() && TellsLive()
      ensures ok ==> candidateMoved && Elements(moved) == RetainedIn(old(volume.disk).root, persistent)
      ensures ok ==> volume.journal == Record()
      ensures ok ==> Assembled(old(volume.disk).root, old(volume.disk).candidate, volume.disk.root, Elements(moved))
      ensures ok && [] in old(volume.disk).root ==>
                AllTurnsLogged(volume.history, |old(volume.history)|, old(volume.journal).(originalMoved := true),
                               old(volume.disk), persistent, |persistent|)
      ensures !volume.faulty && [] in old(volume.disk).root && [] !in old(volume.disk).previous ==>
                Logged(volume.history, |old(volume.history)|, Snapshot(old(volume.journal), Aside(old(volume.disk))))
      ensures !volume.faulty && Replaceable(old(volume.disk), persistent) ==> ok
    {
      hide LogRemembers, Telling, LogTells, HomeOf, Logged, AllTurnsLogged, NoLinkedPlaces, Carriable, Assembled, Whereabouts, Replaceable;
      ghost var d, j, n := volume.disk, volume.journal, |volume.history|;
      ok := FillCandidate();
      if !ok { return; }
      ghost var h, aside := volume.history, Snapshot(j, Aside(d));
      ok := InstallCandidate();
      TellsJoin(origin.live, h, volume.history, n);
      if Logged(h, n, aside) { StillLogged(h, volume.history, n, aside); }
      if AllTurnsLogged(h, n, j.(originalMoved := true), d, persistent, |persistent|) {
        TurnsStayLogged(h, volume.history, n, n, j.(originalMoved := true), d, persistent, |persistent|);
      }
    }

    /** What a rollback in directory mode needs: the carried paths and, once it has reached the root,
        the candidate are still there. */
    ghost predicate Returnable()
      reads this, volume
    {
      (forall v | v in moved :: v in Current()) && (candidateMoved ==> [] in volume.disk.root)
    }

    /** The tree a rollback of the directory mode restores. */
    ghost function Home(): Tree
      reads this, volume
    {
      Restored(origin.live, Current(), Elements(moved))
    }

    /** The journal and the trees still tell which tree to put back, and did after every step. */
    twostate predicate StaysTold()
      reads this, volume
    {
      && Extends(old(volume.history), volume.history)
      && (old(Told()) ==> Told() && LogTells(old(Home()), volume.history, |old(volume.history)|))
    }

    /** A rollback is under way and the journal says so. */
    predicate Undoing()
      reads this, volume
    {
      phase == Restoring && volume.journal.phase == Restoring
    }

    lemma HomeIsTold()
      requires Told()
      ensures HomeOf(volume.journal, volume.disk) == Home()
    {
      TellingSettles(origin.live, volume.disk, volume.journal, persistent, moved, originalMoved, candidateMoved);
    }

    /** Records what has moved back. */
    method NoteUndone() returns (ok: bool)
      requires Located() && phase == Restoring
      modifies volume`disk, volume`now, volume`journal, volume`history
      ensures Located() && volume.disk == old(volume.disk) && StaysTold()
      ensures volume.journal == if ok then Record() else old(volume.journal)
      ensures !volume.faulty ==> ok
    {
      hide LogRemembers, Telling, LogTells, HomeOf, Whereabouts, Restored;
      ghost var d, j, told, h, home := volume.disk, volume.journal, Told(), volume.history, Home();
      ok := volume.WriteJournal(Record());
      NoDrift(d, volume.disk);
      TellsNothing(home, h);
      if told {
        if ok { RestoringTells(origin.live, d, j, volume.journal, persistent, moved, originalMoved, candidateMoved); }
        HomeIsTold();
        TellsMore(home, h, |h|, Snapshot(volume.journal, volume.disk));
      }
    }

    /** Renames the last carried path back to where it was. */
    method RenameLastBack() returns (ok: bool)
      requires Located() && moved != []
      modifies volume`disk, volume`now, volume`history
      ensures volume.Valid() && Extends(old(volume.history), volume.history)
      ensures forall i | |old(volume.history)| <= i < |volume.history| ::
                volume.history[i].journal == volume.journal && volume.history[i].disk in {old(volume.disk), volume.disk}
      ensures var side := if candidateMoved then Root else Candidate; var v := moved[|moved| - 1];
        && volume.disk == (if ok then Renamed(old(volume.disk), side, Previous, v) else old(volume.disk))
        && (ok ==> CanRename(old(volume.disk), side, Previous, v))
        && (!volume.faulty && !ok ==> v !in old(volume.disk).On(side))
    {
      hide Renamed, LogRemembers;
      ghost var d, n := volume.disk, |volume.history|;
      var current := if candidateMoved then Root else Candidate;
      var value := moved[|moved| - 1];
      OldPlaceStands(origin.live, d, moved, originalMoved, candidateMoved);
      PresentIsClear(d.previous, Parent(value));
      ok := volume.MakeDirectories(Previous, Parent(value));
      NothingToGrow(d, volume.disk, Previous, Parent(value), {});
      NoDrift(d, volume.disk);
      ghost var h := volume.history;
      forall i | n <= i < |h|
        ensures h[i].disk == d
      {
        NothingToGrow(d, h[i].disk, Previous, Parent(value), {});
        NoDrift(d, h[i].disk);
      }
      if !ok { return; }
      ghost var mid;
      ok, mid := volume.Rename(current, Previous, value);
      NoDrift(d, mid);
    }

    /** Takes the last carried path back to the previous release; the journal does not say so yet. */
    method TakeBackLast() returns (ok: bool)
      requires Located() && moved != [] && Undoing()
      modifies this`moved, this`origin, volume`disk, volume`now, volume`history
      ensures Located() && Undoing() && Home() == old(Home()) && (Returnable() <==> old(Returnable())) && StaysTold()
      ensures |moved| <= |old(moved)| && (ok ==> |moved| < |old(moved)|)
      ensures !volume.faulty && !ok ==> !old(Returnable())
    {
      hide Restored, Whereabouts, Renamed, Telling, HomeOf, LogRemembers;
      ghost var d, told, home := volume.disk, Told(), Home();
      ghost var current := if candidateMoved then Root else Candidate;
      assert moved[|moved| - 1] in moved;
      if told { HomeIsTold(); }
      ok := RenameLastBack();
      if !ok { return; }
      CarryBack(origin.live, d, moved, originalMoved, candidateMoved);
      ReturnKeepsReturnable(origin.live, d, moved, originalMoved, candidateMoved);
      if told { ReturnedTells(origin.live, d, volume.journal, persistent, moved, originalMoved, candidateMoved); }
      origin := origin.(live := Restored(origin.live, d.On(current), {moved[|moved| - 1]}));
      moved := moved[..|moved| - 1];
      if told { HomeIsTold(); }
    }

    /** Takes the last carried path back to the previous release and records that. */
    method ReturnLast() returns (ok: bool)
      requires Located() && moved != [] && Undoing()
      modifies this`moved, this`origin, volume`disk, volume`now, volume`journal, volume`history
      ensures Located() && Undoing() && Home() == old(Home()) && (Returnable() <==> old(Returnable())) && StaysTold()
      ensures |moved| <= |old(moved)| && (ok ==> |moved| < |old(moved)|)
      ensures ok ==> volume.journal == Record()
      ensures !volume.faulty && !ok ==> !old(Returnable())
    {
      hide Restored, Whereabouts, Telling, HomeOf, LogRemembers, LogTells;
      ghost var n, home := |volume.history|, Home();
      ok := TakeBackLast();
      if ok {
        ghost var h := volume.history;
        ok := NoteUndone();
        TellsJoin(home, h, volume.history, n);
      }
    }

    method ReturnAll() returns (ok: bool)
      requires Located() && Undoing()
      modifies this`moved, this`origin, volume`disk, volume`now, volume`journal, volume`history
      ensures Located() && Undoing() && Home() == old(Home()) && (Returnable() <==> old(Returnable())) && StaysTold()
      ensures ok ==> moved == []
      ensures ok && old(moved) != [] ==> volume.journal == Record()
      ensures !volume.faulty && !ok ==> !old(Returnable())
    {
      hide Restored, Whereabouts, Telling, HomeOf, LogRemembers, LogTells;
      ghost var n, home := |volume.history|, Home();
      TellsNothing(home, volume.history);
      ok := true;
      while moved != [] && ok
        invariant Located() && Undoing() && Home() == home && (Returnable() <==> old(Returnable())) && StaysTold()
        invariant !volume.faulty && !ok ==> !old(Returnable())
        invariant ok ==> moved == old(moved) || volume.journal == Record()
        decreases |moved|, ok
      {
        ghost var h := volume.history;
        ok := ReturnLast();
        TellsJoin(home, h, volume.history, n);
      }
    }

    /** Takes the candidate back if it had reached the root. */
    method TakeCandidateBack() returns (ok: bool)
      requires Located() && moved == [] && Undoing()
      modifies this`candidateMoved, volume`disk, volume`now, volume`history
      ensures Located() && Undoing() && Home() == old(Home()) && (Returnable() <==> old(Returnable())) && StaysTold()
      ensures ok ==> !candidateMoved
      ensures !volume.faulty ==> (ok <==> old(Returnable()))
    {
      hide Restored, Telling, HomeOf, LogTells, LogRemembers;
      ghost var h, told, home := volume.history, Told(), Home();
      NothingToRestore(origin.live, volume.disk.root);
      NothingToRestore(origin.live, volume.disk.candidate);
      TellsNothing(home, h);
      ok := true;
      if candidateMoved {
        ghost var d, mid := volume.disk, volume.disk;
        if [] in d.root { RenameWhole(d, Root, Candidate); }
        ok, mid := volume.Rename(Root, Candidate, []);
        NoDrift(d, mid);
        if ok { candidateMoved := false; }
        NothingToRestore(origin.live, volume.disk.candidate);
        NothingToRestore(origin.live, volume.disk.root);
        if told {
          if ok { CandidateBackTells(origin.live, d, volume.disk, volume.journal, persistent, originalMoved); }
          HomeIsTold();
          TellsMore(home, h, |h|, Snapshot(volume.journal, volume.disk));
        }
      }
    }

    /** Puts the original tree back if it had been moved aside. */
    method PutOriginalBack() returns (ok: bool)
      requires Located() && moved == [] && !candidateMoved && Undoing()
      modifies this`originalMoved, volume`disk, volume`now, volume`history
      ensures Located() && Undoing() && Home() == old(Home()) && (Returnable() <==> old(Returnable())) && StaysTold()
      ensures ok ==> !originalMoved
      ensures !volume.faulty ==> ok
    {
      hide Restored, Telling, HomeOf, LogTells, LogRemembers;
      ghost var h, told, home := volume.history, Told(), Home();
      ok := true;
      NothingToRestore(origin.live, volume.disk.candidate);
      TellsNothing(home, h);
      if originalMoved {
        ghost var d, mid := volume.disk, volume.disk;
        PreviousIsLive(origin.live, d, candidateMoved);
        RenameWhole(d, Previous, Root);
        ok, mid := volume.Rename(Previous, Root, []);
        NoDrift(d, mid);
        if ok { originalMoved := false; }
        NothingToRestore(origin.live, volume.disk.candidate);
        if told {
          if ok { OriginalBackTells(origin.live, d, volume.disk, volume.journal, persistent); }
          HomeIsTold();
          TellsMore(home, h, |h|, Snapshot(volume.journal, volume.disk));
        }
      }
    }

    lemma NothingIsLost()
      requires Intact()
      ensures Home() == origin.live && Returnable()
    {
      IntactIsHome(origin.live, Current(), moved);
    }

    method RollbackDirectory() returns (ok: bool)
      requires Located() && Undoing()
      modifies this`moved, this`origin, this`originalMoved, this`candidateMoved, volume`disk, volume`now, volume`journal, volume`history
      ensures Located() && Home() == old(Home()) && (Returnable() <==> old(Returnable())) && StaysTold()
      ensures ok ==> moved == [] && !originalMoved && !candidateMoved
      ensures !volume.faulty ==> (ok <==> old(Returnable()))
    {
      hide Restored, Whereabouts, Telling, HomeOf, LogRemembers, LogTells;
      ghost var n, home := |volume.history|, Home();
      ok := ReturnAll();
      ghost var h := volume.history;
      if ok { ok := TakeCandidateBack(); }
      ghost var hh := volume.history;
      TellsNothing(home, h);
      TellsJoin(home, h, hh, n);
      if ok { ok := PutOriginalBack(); }
      TellsNothing(home, hh);
      TellsJoin(home, hh, volume.history, n);
    }

    /** Undoes whatever the activation has done. Rerunning it after a failure continues where it stopped. */
    method Rollback() returns (ok: bool)
      requires if mode == Contents then Explained() else Located()
      modifies this`phase, this`moved, this`originalMoved, this`candidateMoved, this`contentMoves, this`created, this`origin
      modifies volume`disk, volume`now, volume`journal, volume`history
      ensures mode == Contents ==> old(volume.now) <= volume.now
      ensures mode == Contents ==> Explained() && origin == old(origin)
      ensures mode == Contents ==> Extends(old(volume.history), volume.history) && LogSafe(origin, volume.history, |old(volume.history)|)
      ensures mode == Contents && ok ==> forall q :: !Under(q, origin.kept) ==> At(volume.disk.root, q) == At(origin.live, q)
      ensures mode == Contents && ok ==> volume.disk.candidate == origin.work
      ensures mode == Contents ==> SameInside(volume.disk.root, volume.Retained(), origin.kept)
      ensures mode == Contents ==> (Unblocked(volume.disk, contentMoves) <==> old(Unblocked(volume.disk, contentMoves)))
      ensures mode == Contents && !volume.faulty ==> (ok <==> old(Unblocked(volume.disk, contentMoves)))
      ensures mode == Directory ==> Located() && Home() == old(Home()) && (Returnable() <==> old(Returnable()))
      ensures mode == Directory ==> StaysTold()
      ensures mode == Directory && ok ==> volume.disk.root == old(Home())
      ensures mode == Directory && !volume.faulty ==> (ok <==> old(Returnable()))
      ensures ok ==> phase == RolledBack && volume.journal == Record()
    {
      if mode == Contents { ok := RollbackInContents(); } else { ok := RollbackInDirectory(); }
    }

    method RollbackInContents() returns (ok: bool)
      requires Explained()
      modifies this`phase, this`contentMoves, this`created, volume`disk, volume`now, volume`journal, volume`history
      ensures old(volume.now) <= volume.now
      ensures Explained() && origin == old(origin)
      ensures Extends(old(volume.history), volume.history) && LogSafe(origin, volume.history, |old(volume.history)|)
      ensures SameInside(volume.disk.root, volume.Retained(), origin.kept)
      ensures ok ==> forall q :: !Under(q, origin.kept) ==> At(volume.disk.root, q) == At(origin.live, q)
      ensures ok ==> volume.disk.candidate == origin.work
      ensures Unblocked(volume.disk, contentMoves) <==> old(Unblocked(volume.disk, contentMoves))
      ensures !volume.faulty ==> (ok <==> old(Unblocked(volume.disk, contentMoves)))
      ensures ok ==> phase == RolledBack && volume.journal == Record()
    {
      hide CrashSafe, IsPlan, Unblocked, Placed, LogSafe, Agrees, Contained, At;
      ghost var n := |volume.history|;
      ok := UndoEverything();
      if !ok { return; }
      ghost var h := volume.history;
      ok := FinishRollback();
      LogJoins(origin, h, volume.history, n);
    }

    method UndoEverything() returns (ok: bool)
      requires Explained()
      modifies this`phase, this`contentMoves, this`created, volume`disk, volume`now, volume`journal, volume`history
      ensures old(volume.now) <= volume.now
      ensures Explained() && origin == old(origin)
      ensures Extends(old(volume.history), volume.history) && LogSafe(origin, volume.history, |old(volume.history)|)
      ensures ok ==> AtUndo(0) && created == []
      ensures Unblocked(volume.disk, contentMoves) <==> old(Unblocked(volume.disk, contentMoves))
      ensures !volume.faulty ==> (ok <==> old(Unblocked(volume.disk, contentMoves)))
    {
      hide CrashSafe, IsPlan, Unblocked, Placed, LogSafe, Agrees, Contained, At;
      ghost var n := |volume.history|;
      ok := StartRollback();
      if !ok { return; }
      ghost var h := volume.history;
      ok := RollbackContents();
      LogJoins(origin, h, volume.history, n);
    }

    method StartRollback() returns (ok: bool)
      requires Explained()
      modifies this`phase, volume`disk, volume`now, volume`journal, volume`history
      ensures old(volume.now) <= volume.now
      ensures Explained() && Unblocked(volume.disk, contentMoves) == old(Unblocked(volume.disk, contentMoves))
      ensures Extends(old(volume.history), volume.history) && LogSafe(origin, volume.history, |old(volume.history)|)
      ensures ok ==> AtUndo(|contentMoves|)
      ensures !volume.faulty ==> ok
    {
      hide CrashSafe, IsPlan, Unblocked, Placed;
      ghost var d := volume.disk;
      phase := Restoring;
      ok := WriteRecord();
      DriftKeepsBlocked(origin, d, volume.disk, contentMoves, created != []);
    }

    method FinishRollback() returns (ok: bool)
      requires AtUndo(0) && created == []
      modifies this`phase, volume`disk, volume`now, volume`journal, volume`history
      ensures old(volume.now) <= volume.now
      ensures Explained()
      ensures Extends(old(volume.history), volume.history) && LogSafe(origin, volume.history, |old(volume.history)|)
      ensures forall q :: !Under(q, origin.kept) ==> At(volume.disk.root, q) == At(origin.live, q)
      ensures volume.disk.candidate == origin.work
      ensures old(Unblocked(volume.disk, contentMoves)) && Unblocked(volume.disk, contentMoves)
      ensures ok ==> phase == RolledBack && volume.journal == Record()
      ensures !volume.faulty ==> ok
    {
      hide CrashSafe, IsPlan, Placed;
      NothingDoneIsUnblocked(volume.disk, contentMoves);
      phase := RolledBack;
      ok := WriteRecord();
      NothingDoneIsUnblocked(volume.disk, contentMoves);
      NothingMovedIsOriginal(origin, volume.disk, false);
    }

    /** Records that a rollback has begun, and moves everything back. */
    method UndoDirectory() returns (ok: bool)
      requires Located()
      modifies this`phase, this`moved, this`originalMoved, this`candidateMoved, this`origin
      modifies volume`disk, volume`now, volume`journal, volume`history
      ensures Located() && Home() == old(Home()) && (Returnable() <==> old(Returnable())) && StaysTold()
      ensures ok ==> moved == [] && !originalMoved && !candidateMoved
      ensures !volume.faulty ==> (ok <==> old(Returnable()))
    {
      hide Restored, Telling, HomeOf, LogRemembers, LogTells, Whereabouts;
      ghost var n, home := |volume.history|, Home();
      phase := Restoring;
      ok := NoteUndone();
      if !ok { return; }
      ghost var h := volume.history;
      ok := RollbackDirectory();
      TellsJoin(home, h, volume.history, n);
    }

    method RollbackInDirectory() returns (ok: bool)
      requires Located()
      modifies this`phase, this`moved, this`originalMoved, this`candidateMoved, this`origin
      modifies volume`disk, volume`now, volume`journal, volume`history
      ensures Located() && Home() == old(Home()) && (Returnable() <==> old(Returnable())) && StaysTold()
      ensures ok ==> volume.disk.root == old(Home())
      ensures !volume.faulty ==> (ok <==> old(Returnable()))
      ensures ok ==> phase == RolledBack && volume.journal == Record()
    {
      hide Restored, Telling, HomeOf, LogRemembers, LogTells, Whereabouts;
      ghost var n, home := |volume.history|, Home();
      ok := UndoDirectory();
      if !ok { return; }
      ghost var h := volume.history;
      ok := NoteRolledBack();
      TellsJoin(home, h, volume.history, n);
    }

    /** Records that everything is back. */
    method NoteRolledBack() returns (ok: bool)
      requires Located() && moved == [] && !originalMoved && !candidateMoved
      modifies this`phase, volume`disk, volume`now, volume`journal, volume`history
      ensures Located() && volume.disk == old(volume.disk) && volume.disk.root == Home() && StaysTold()
      ensures phase == RolledBack && (ok ==> volume.journal == Record())
      ensures !volume.faulty ==> ok
    {
      hide Restored, Telling, HomeOf, LogRemembers, LogTells;
      ghost var d, j, told, h, home := volume.disk, volume.journal, Told(), volume.history, Home();
      NothingToRestore(origin.live, d.candidate);
      phase := RolledBack;
      ok := volume.WriteJournal(Record());
      NoDrift(d, volume.disk);
      TellsNothing(home, h);
      if told {
        if ok { RolledBackTells(origin.live, d, j, volume.journal, persistent); }
        HomeIsTold();
        TellsMore(home, h, |h|, Snapshot(volume.journal, volume.disk));
      }
    }

    /** The release has been accepted. */
    method Complete() returns (ok: bool)
      requires mode == Contents ==> Explained()
      requires volume.Valid()
      modifies this`phase, volume`disk, volume`now, volume`journal, volume`history
      ensures old(volume.now) <= volume.now
      ensures phase == Phase.Complete && (ok ==> volume.journal == Record())
      ensures Drifted(old(volume.disk), volume.disk, volume.kept)
      ensures mode == Contents ==> Explained() && LogSafe(origin, volume.history, |old(volume.history)|)
    {
      phase := Phase.Complete;
      if mode == Contents { ok := WriteRecord(); } else { ok := volume.WriteJournal(Record()); }
    }

    /** An application runs in the activated root and writes what it likes, as long as the root and the
        containers of retained data stay directories. */
    method ApplicationRuns(next: Tree)
      requires Explained() && Activated()
      requires (origin.existed || created != []) && LeavesContainers(origin, volume.disk.root, next)
      modifies this`origin, volume`disk, volume`shared, volume`since, volume`logged
      ensures Explained() && volume.disk == old(volume.disk).(root := next)
      ensures volume.shared == next && volume.since == volume.now
      ensures origin == Absorbed(old(origin), DisplacedBy(contentMoves), InstalledBy(contentMoves), next)
    {
      ApplicationIsExplained(origin, volume.journal, volume.disk, next);
      origin := Absorbed(origin, DisplacedBy(contentMoves), InstalledBy(contentMoves), next);
      volume.Overwrite(next);
    }

    /** The same in directory mode: the application writes what it likes. */
    method ApplicationRunsInDirectory(next: Tree)
      requires Located() && candidateMoved && WellFormed(next)
      modifies volume`disk, volume`shared, volume`since, volume`logged
      ensures Located() && volume.disk == old(volume.disk).(root := next)
      ensures Home() == Restored(origin.live, next, Elements(moved))
      ensures old(Told()) ==> Told()
    {
      hide Telling;
      if Told() { RunTells(origin.live, volume.disk, volume.journal, persistent, moved, originalMoved, next); }
      volume.Overwrite(next);
    }

    /** Selects the persistent paths and refuses to start beside an interrupted release. */
    method Prepare(earlier: seq<Journal>, local: seq<string>, laravel: bool) returns (ok: bool)
      requires volume.Valid() && volume.kept == {} && Record() == Journal(Building, [], [], false, false, mode, [], [])
      modifies this`persistent, volume`disk, volume`now, volume`journal, volume`history
      ensures volume.disk == old(volume.disk) && volume.Valid()
      ensures ok ==> forall j | j in earlier :: j.phase !in {Activating, Restoring}
      ensures ok ==> Record() == Journal(Building, persistent, [], false, false, mode, [], []) && volume.journal == Record()
      ensures ok ==> Independent(persistent) && Distinct(persistent)
      ensures ok && [] in volume.disk.root ==> IsDir(volume.disk.root, []) && RetainedPaths.Retained(DEFAULTS + local).Selected?
      ensures ok && [] in volume.disk.root ==> persistent == PersistentPaths(RetainedPaths.Retained(DEFAULTS + local).paths, laravel)
      ensures ok && [] !in volume.disk.root ==> persistent == []
      ensures !volume.faulty && (forall j | j in earlier :: j.phase !in {Activating, Restoring}) && NothingIrregular(local, volume.disk.root) ==> ok
    {
      ghost var d := volume.disk;
      ok := true;
      for i := 0 to |earlier|
        invariant ok && forall k | 0 <= k < i :: earlier[k].phase !in {Activating, Restoring}
      {
        if earlier[i].phase in {Activating, Restoring} { ok := false; return; }
      }
      var found;
      ok, found := volume.Lookup(Root, []);
      if !ok { return; }
      if found.Some? {
        if found.value != Dir { ok := false; return; }
        var selection := RetainedPaths.Retained(DEFAULTS + local);
        RetainedPaths.RetainedInFull(DEFAULTS + local);
        if selection.InvalidPath? { ok := false; return; }
        persistent := PersistentPaths(selection.paths, laravel);
        PersistentAreIndependent(DEFAULTS + local, laravel);
      }
      ok := volume.WriteJournal(Record());
      NoDrift(d, volume.disk);
    }
  }

  /** Paths that are retained wherever they exist, besides those Git reports as local. */
  const DEFAULTS: seq<string> :=
    ["uploads", "storage", "public/uploads", "public/storage", ".env", ".env.local", ".env.production", ".env.production.local"]

  /** The root is missing, or an ordinary directory and every path reported by Git stays inside it. */
  ghost predicate NothingIrregular(local: seq<string>, root: Tree) {
    [] in root ==>
      && root[[]] == Dir
      && forall p | p in DEFAULTS + local :: RetainedPaths.Normalized(p) == "" || !RetainedPaths.Irregular(RetainedPaths.Normalized(p))
  }

  /** Build output of the application itself, which is replaced rather than retained. */
  predicate Generated(value: string, laravel: bool) {
    || RetainedPaths.Components(value)[0] in RetainedPaths.ARTIFACTS
    || (laravel && (value == "public/build" || "public/build/" <= value || value == "bootstrap/cache"
                    || ("bootstrap/cache/" <= value && value != "bootstrap/cache/.gitignore")))
  }

  ghost predicate Within(value: string, directory: string) {
    value == directory || directory + "/" <= value
  }

  /** Dependencies and build output wherever they are, and in a Laravel project what it compiles. */
  lemma GeneratedMeans(value: string, laravel: bool)
    ensures Generated(value, laravel) <==>
      || (exists a | a in RetainedPaths.ARTIFACTS :: Within(value, a))
      || (laravel && Within(value, "public/build"))
      || (laravel && Within(value, "bootstrap/cache") && value != "bootstrap/cache/.gitignore")
  {
    forall a | a in RetainedPaths.ARTIFACTS
      ensures RetainedPaths.Components(value)[0] == a <==> Within(value, a)
    {
      RetainedPaths.FirstComponentIs(value, a);
    }
    assert "public/build" + "/" == "public/build/" && "bootstrap/cache" + "/" == "bootstrap/cache/";
  }

  function PersistentPaths(values: seq<string>, laravel: bool): (paths: seq<Path>)
    ensures forall p :: p in paths <==> exists v | v in values :: !Generated(v, laravel) && RetainedPaths.Components(v) == p
  {
    if values == [] then []
    else
      assert forall v :: v in values <==> v == values[0] || v in values[1..];
      (if Generated(values[0], laravel) then [] else [RetainedPaths.Components(values[0])]) + PersistentPaths(values[1..], laravel)
  }

  lemma {:induction false} PersistentAreDistinct(values: seq<string>, laravel: bool)
    requires RetainedPaths.NoRepeats(values)
    ensures Distinct(PersistentPaths(values, laravel))
  {
    if values != [] {
      forall i, j | 0 <= i < j < |values[1..]|
        ensures values[1..][i] != values[1..][j]
      {
        assert values[i + 1] != values[j + 1];
      }
      PersistentAreDistinct(values[1..], laravel);
      forall v | v in values[1..] && RetainedPaths.Components(v) == RetainedPaths.Components(values[0])
        ensures v == values[0]
      {
        RetainedPaths.ComponentsDetermine(v, values[0]);
      }
      forall v | v in values[1..]
        ensures v != values[0]
      {
        var i :| 0 <= i < |values[1..]| && values[1..][i] == v;
        assert values[i + 1] == v;
      }
      assert RetainedPaths.Components(values[0]) !in PersistentPaths(values[1..], laravel);
    }
  }

  /** The paths a release keeps in place never contain one another. */
  lemma PersistentAreIndependent(values: seq<string>, laravel: bool)
    requires RetainedPaths.Retained(values).Selected?
    ensures var persistent := PersistentPaths(RetainedPaths.Retained(values).paths, laravel);
            Independent(persistent) && Distinct(persistent)
  {
    RetainedPaths.RetainsTheHighest(values);
    RetainedPaths.RetainedIsAntichain(values);
    PersistentAreDistinct(RetainedPaths.Retained(values).paths, laravel);
  }

  /** Every crash of a release either keeps the next one from starting, or has completed, or has left
      the root as it was. */
  lemma CrashBlocksNextRelease(o: Origin, s: Snapshot)
    requires CrashSafe(o, s) && s.journal.phase !in {Activating, Restoring, Phase.Complete}
    ensures forall q :: !Under(q, o.kept) ==> At(s.disk.root, q) == At(o.live, q)
    ensures s.disk.candidate == o.work
  {
    assert Settled(s.journal, s.disk) == s.journal.contentMoves;
    assert DisplacedBy(s.journal.contentMoves) == {} && InstalledBy(s.journal.contentMoves) == {};
    NothingMovedIsOriginal(o, s.disk, false);
  }

  /** While no other process writes, both modes install the same tree, up to the directories that contain
      retained data. */
  lemma ModesInstallTheSame(o: Origin, contents: Disk, root: Tree)
    requires Overlaid(o, contents, o.live) && Assembled(o.live, o.work, root, o.kept)
    ensures forall q :: !Spine(q, o.kept) ==> At(contents.root, q) == At(root, q)
  {
    forall q | !Spine(q, o.kept)
      ensures At(contents.root, q) == At(root, q)
    {
      assert AssembledAt(o.live, o.work, root, o.kept, q);
    }
  }
}
