/** What the steps of the contents mode do to the account of the disk, and why every crash between
    two of them can be explained. */
module ReleaseSteps {
  import opened Trees
  import opened ReleaseTheory
  import opened ReleasePlan
  import opened ReleaseVolume
  import opened ReleasePlanning

  /** Every snapshot after the first `n` can be explained from its journal and its disk. */
  ghost predicate LogSafe(o: Origin, history: seq<Snapshot>, n: nat) {
    forall i | n <= i < |history| :: CrashSafe(o, history[i])
  }

  ghost predicate LogTidy(o: Origin, history: seq<Snapshot>, n: nat) {
    forall i | n <= i < |history| :: Tidy(history[i].disk, Settled(history[i].journal, history[i].disk))
  }

  /** The entries appended to `before` are directories on the way to `relative` that did not exist. */
  ghost predicate MissingOnWay(before: seq<Path>, after: seq<Path>, relative: Path, root: Tree) {
    before <= after && forall i | |before| <= i < |after| :: after[i] <= relative && after[i] !in root
  }

  /** Directories made in the previous release are no obstacle to the account of the disk. */
  lemma GrowthIsPlaced(o: Origin, d: Disk, d': Disk, displaced: set<Path>, installed: set<Path>, made: bool, s: Path)
    requires Placed(o, d, displaced, installed, made) && Spine(s, o.kept)
    requires GrownOn(d, d', Previous, s, o.kept)
    ensures Placed(o, d', displaced, installed, made)
    ensures Vacated(d, displaced, installed) ==> Vacated(d', displaced, installed)
  {
    GrowthElsewhere(d, d', Previous, s, o.kept);
    assert d.On(Candidate) == d'.On(Candidate) && d.On(Local) == d'.On(Local);
    RetainedDataIsFree(o, d, displaced, installed, made, d'.root);
    var mid := d.(root := d'.root);
    forall q
      ensures At(d'.previous, q) == At(mid.previous, q) || (q <= s && q !in mid.previous && IsDir(d'.previous, q))
    {
      assert GrownAt(d, d', Previous, q, Previous, s, o.kept);
    }
    GrowPrevious(o, mid, displaced, installed, made, s, d'.previous);
  }

  /** The only live directory a release ever creates is the root itself. */
  lemma CreatesOnlyTheRoot(o: Origin, d: Disk, displaced: set<Path>, installed: set<Path>, created: seq<Path>, created': seq<Path>, relative: Path)
    requires Placed(o, d, displaced, installed, created != []) && Contained(o) && Spine(relative, o.kept)
    requires created in {[], [[]]} && (created != [] ==> [] in d.root)
    requires MissingOnWay(created, created', relative, d.root) && |created'| <= |created| + |relative| + 1
    ensures created' in {[], [[]]}
    ensures relative in d.root ==> created' == created
    ensures o.existed ==> relative in d.root && created' == []
  {
    ContainersStand(o, d, displaced, installed, created != [], relative);
    if relative in d.root {
      if |created'| > |created| { AncestorsPresent(d.root, created'[|created|], relative); }
      assert created' == created;
    } else {
      assert relative == [] && created == [];
      assert forall i | 0 <= i < |created'| :: created'[i] == [];
      assert created' == [] || created' == [created'[0]];
    }
  }

  lemma CreatingIsPlaced(o: Origin, d: Disk, displaced: set<Path>, installed: set<Path>, start: Journal, created': seq<Path>, relative: Path, s: Snapshot)
    requires Placed(o, d, displaced, installed, start.created != []) && Contained(o) && Spine(relative, o.kept)
    requires start.created in {[], [[]]} && (start.created != [] ==> [] in d.root)
    requires MissingOnWay(start.created, created', relative, d.root) && |created'| <= |start.created| + |relative| + 1
    requires Creating(start, d, created', relative, o.kept, s)
    ensures Placed(o, s.disk, displaced, installed, s.journal.created != [])
    ensures Vacated(d, displaced, installed) ==> Vacated(s.disk, displaced, installed)
  {
    CreatesOnlyTheRoot(o, d, displaced, installed, start.created, created', relative);
    ContainersStand(o, d, displaced, installed, start.created != [], relative);
    if relative in d.root {
      NothingToGrow(d, s.disk, Root, relative, o.kept);
      RetainedDataIsFree(o, d, displaced, installed, start.created != [], s.disk.root);
    } else {
      assert relative == [] && start.created == [];
      assert s.journal.created == created'[..|s.journal.created|];
      assert s.journal.created == [] || s.journal.created == [[]];
      NewRootIsPlaced(o, d, displaced, installed, s);
    }
  }

  lemma NewRootIsPlaced(o: Origin, d: Disk, displaced: set<Path>, installed: set<Path>, s: Snapshot)
    requires Placed(o, d, displaced, installed, false) && !o.existed && [] !in d.root
    requires GrownOn(d, s.disk, Root, [], o.kept) && (forall q | q in s.disk.root :: q in d.root || Under(q, o.kept) || q in s.journal.created)
    requires s.journal.created in {[], [[]]}
    ensures Placed(o, s.disk, displaced, installed, s.journal.created != [])
    ensures Vacated(d, displaced, installed) ==> Vacated(s.disk, displaced, installed)
  {
    GrowthElsewhere(d, s.disk, Root, [], o.kept);
    assert d.On(Candidate) == s.disk.On(Candidate) && d.On(Previous) == s.disk.On(Previous) && d.On(Local) == s.disk.On(Local);
    forall q
      ensures At(s.disk.root, q) == At(d.root, q) || (q <= [] && q !in d.root && IsDir(s.disk.root, q))
    {
      assert GrownAt(d, s.disk, Root, q, Root, [], o.kept);
    }
    if s.journal.created == [] {
      SameAtSameTree(d.root, s.disk.root);
    } else {
      MakeRoot(o, d, displaced, installed, false, [], s.disk.root);
    }
    assert s.disk == d.(root := s.disk.root);
  }

  lemma SettleCreating(o: Origin, d: Disk, start: Journal, created': seq<Path>, relative: Path, s: Snapshot)
    requires Placed(o, d, DisplacedBy(start.contentMoves), InstalledBy(start.contentMoves), start.created != [])
    requires Contained(o) && Spine(relative, o.kept) && IsPlan(o, start.contentMoves) && Tidy(d, start.contentMoves)
    requires start.phase == Activating && NextIsPending(start.contentMoves)
    requires start.created in {[], [[]]} && (start.created != [] ==> [] in d.root)
    requires MissingOnWay(start.created, created', relative, d.root) && |created'| <= |start.created| + |relative| + 1
    requires Creating(start, d, created', relative, o.kept, s)
    ensures CrashSafe(o, s) && Agrees(s.journal, s.disk, start.contentMoves)
    ensures Tidy(s.disk, start.contentMoves)
    ensures Placed(o, s.disk, DisplacedBy(start.contentMoves), InstalledBy(start.contentMoves), s.journal.created != [])
  {
    CreatingIsPlaced(o, d, DisplacedBy(start.contentMoves), InstalledBy(start.contentMoves), start, created', relative, s);
    ExactJournalIsSafe(o, s.journal, s.disk);
  }

  lemma CreatedAnyway(o: Origin, d: Disk, displaced: set<Path>, installed: set<Path>)
    requires Placed(o, d, displaced, installed, false) && !o.existed
    ensures Placed(o, d, displaced, installed, true)
  {
  }

  lemma LogOne(o: Origin, before: seq<Snapshot>, s: Snapshot, moves: seq<ContentMove>)
    requires CrashSafe(o, s)
    ensures LogSafe(o, before + [s], |before|) && Extends(before, before + [s])
    ensures Agrees(s.journal, s.disk, moves) && Tidy(s.disk, moves) ==> LogTidy(o, before + [s], |before|)
  {
  }

  function Untouched(d: Disk): Origin {
    Origin(d.root, d.candidate, d.previous, {}, [] in d.root)
  }

  lemma AbsentIsEmpty(t: Tree)
    requires WellFormed(t) && [] !in t
    ensures t == map[]
  {
    forall q | q in t ensures false { AncestorsPresent(t, [], q); }
  }

  lemma UntouchedIsExplained(j: Journal, d: Disk)
    requires d.Sound() && ([] in d.root ==> IsDir(d.root, []))
    requires j.phase == Activating && j.contentMoves == [] && j.created == []
    ensures Contained(Untouched(d)) && IsPlan(Untouched(d), [])
    ensures Placed(Untouched(d), d, DisplacedBy([]), InstalledBy([]), false)
    ensures CrashSafe(Untouched(d), Snapshot(j, d)) && Agrees(j, d, []) && Tidy(d, [])
  {
    if [] !in d.root { AbsentIsEmpty(d.root); }
    forall q
      ensures PlacedAt(Untouched(d), d, DisplacedBy([]), InstalledBy([]), q)
    {
    }
    ExactJournalIsSafe(Untouched(d), j, d);
  }

  /** Nothing has moved yet, so the plan explains the disk whatever the retained paths are. */
  lemma PlannedIsExplained(j: Journal, d: Disk, persistent: seq<Path>, plan: seq<ContentMove>)
    requires d.Sound() && ([] in d.root ==> IsDir(d.root, [])) && d.previous == map[] && Independent(persistent)
    requires j.phase == Activating && j.contentMoves == [] && j.created == []
    requires Walked(d, RetainedIn(d.root, persistent), [], plan)
    ensures var o := Untouched(d).(kept := RetainedIn(d.root, persistent));
            && Contained(o) && IsPlan(o, plan) && Covers(o, plan)
            && Placed(o, d, DisplacedBy(plan), InstalledBy(plan), false)
            && CrashSafe(o, Snapshot(j, d)) && Agrees(j, d, plan) && Tidy(d, plan)
            && Supplied(o, plan) && forall m | m in plan :: m.state == Planned
  {
    var kept := RetainedIn(d.root, persistent);
    var o := Untouched(d).(kept := kept);
    assert kept <= set p | p in persistent;
    WalkIsPlan(d, kept, plan);
    assert DisplacedBy(plan) == {} == DisplacedBy([]) && InstalledBy(plan) == {} == InstalledBy([]);
    if [] !in d.root { AbsentIsEmpty(d.root); assert kept == {}; }
    forall q
      ensures PlacedAt(o, d, {}, {}, q)
      ensures o.existed && Spine(q, kept) ==> IsDir(o.live, q)
    {
      if Above(q, kept) {
        var r :| r in kept && q < r;
        AncestorsPresent(d.root, q, r);
      }
    }
    ExactJournalIsSafe(o, j, d);
  }

  lemma AllDoneOverlays(o: Origin, d: Disk, plan: seq<ContentMove>, moves: seq<ContentMove>, made: bool, shared: Tree)
    requires SameInside(d.root, shared, o.kept)
    requires Placed(o, d, DisplacedBy(moves), InstalledBy(moves), made) && Tidy(d, moves) && o.aside == map[]
    requires Covers(o, plan) && SamePlaces(moves, plan) && forall m | m in moves :: m.state == Done
    ensures Overlaid(o, d, shared)
  {
    SamePlacesCover(o, plan, moves);
    forall p | Frontier(p, o.kept)
      ensures p in o.live ==> p in DisplacedBy(moves)
      ensures p in o.work ==> p in InstalledBy(moves)
    {
    }
    CompleteActivationOverlays(o, d, DisplacedBy(moves), InstalledBy(moves), made, shared);
  }

  /** What undoing the last performed move does to the account of the disk. */
  lemma UndoMove(o: Origin, d: Disk, moves: seq<ContentMove>, made: bool, k: nat)
    requires Placed(o, d, DisplacedBy(moves), InstalledBy(moves), made) && IsPlan(o, moves)
    requires k < |moves| && moves[k].state == Done && forall i | k < i < |moves| :: moves[i].state != Done
    requires moves[k].path in d.On(moves[k].to) && moves[k].path !in d.On(moves[k].from)
    ensures var m := moves[k]; var after := moves[k := m.(state := Reverted)]; var d' := Renamed(d, m.to, m.from, m.path);
            && CanRename(d, m.to, m.from, m.path)
            && IsPlan(o, after) && SamePlaces(after, moves)
            && Placed(o, d', DisplacedBy(after), InstalledBy(after), made)
            && (Unblocked(d, moves) <==> Unblocked(d', after))
  {
    var m := moves[k];
    var displaced, installed := DisplacedBy(moves), InstalledBy(moves);
    assert IsMove(o, m);
    DoneMoveIsInSet(o, moves, k);
    assert PlacedAt(o, d, displaced, installed, m.path);
    if m.from == Root {
      LastIsNotInstalled(o, moves, k);
      Reinstate(o, d, displaced, installed, made, m.path);
      assert installed - {} == installed;
    } else {
      assert Under(m.path, installed);
      Uninstall(o, d, displaced, installed, made, m.path);
      assert displaced - {} == displaced;
    }
    MarkReverted(o, moves, k);
    UndoKeepsBlocked(o, d, moves, k);
  }

  lemma LastIsNotInstalled(o: Origin, moves: seq<ContentMove>, k: nat)
    requires IsPlan(o, moves) && k < |moves| && moves[k].from == Root && forall i | k < i < |moves| :: moves[i].state != Done
    ensures moves[k].path !in InstalledBy(moves)
  {
    forall m | m in moves && m.from == Candidate && m.path == moves[k].path
      ensures m.state != Done
    {
      var i :| 0 <= i < |moves| && moves[i] == m;
      assert i > k;
    }
  }

  lemma UndoKeepsBlocked(o: Origin, d: Disk, moves: seq<ContentMove>, k: nat)
    requires d.Sound() && IsPlan(o, moves)
    requires k < |moves| && moves[k].state == Done && forall i | k < i < |moves| :: moves[i].state != Done
    requires moves[k].from == Candidate ==> moves[k].path in o.work
    requires CanRename(d, moves[k].to, moves[k].from, moves[k].path)
    requires forall p | p in DisplacedBy(moves) + InstalledBy(moves) :: Frontier(p, o.kept)
    ensures Unblocked(d, moves) <==> Unblocked(Renamed(d, moves[k].to, moves[k].from, moves[k].path), moves[k := moves[k].(state := Reverted)])
  {
    hide Renamed, CanRename, DisplacedBy, InstalledBy;
    var m := moves[k];
    assert IsMove(o, m);
    var d' := Renamed(d, m.to, m.from, m.path);
    UndoTouchesOnePath(o, d, DisplacedBy(moves) + InstalledBy(moves), m);
    MarkReverted(o, moves, k);
    DoneMoveIsInSet(o, moves, k);
    if m.from == Root { LastIsNotInstalled(o, moves, k); }
  }

  lemma UndoTouchesOnePath(o: Origin, d: Disk, paths: set<Path>, m: ContentMove)
    requires d.Sound() && IsMove(o, m) && CanRename(d, m.to, m.from, m.path)
    requires forall p | p in paths :: Frontier(p, o.kept)
    ensures forall p | p in paths && p != m.path :: p in Renamed(d, m.to, m.from, m.path).root <==> p in d.root
    ensures m.path in Renamed(d, m.to, m.from, m.path).root <==> m.from == Root
    ensures m.path in d.root <==> m.from == Candidate
  {
    var d' := Renamed(d, m.to, m.from, m.path);
    RenameTransfers(d, m.to, m.from, m.path);
    forall p | p in paths && p != m.path
      ensures p in d'.root <==> p in d.root
    {
      assert TransferredAt(d, d', m.to, m.from, m.path, p);
      if m.path <= p { FrontierIsAntichain(m.path, p, o.kept); }
    }
    assert TransferredAt(d, d', m.to, m.from, m.path, m.path);
  }

  /** Where an undone move goes back to is as it was. */
  lemma OriginStands(o: Origin, d: Disk, moves: seq<ContentMove>, made: bool, k: nat)
    requires Placed(o, d, DisplacedBy(moves), InstalledBy(moves), made) && IsPlan(o, moves) && Contained(o)
    requires k < |moves| && moves[k].state == Done
    ensures moves[k].path != [] && IsDir(d.On(moves[k].from), Parent(moves[k].path))
    ensures ClearWay(d.On(moves[k].from), Parent(moves[k].path))
    ensures !ThroughLink(d.On(moves[k].from), moves[k].path)
  {
    var p := moves[k].path;
    assert IsMove(o, moves[k]);
    DoneMoveIsInSet(o, moves, k);
    ContainersStand(o, d, DisplacedBy(moves), InstalledBy(moves), made, Parent(p));
    SpineIsNotUnder(Parent(p), InstalledBy(moves), o.kept);
    assert PlacedAt(o, d, DisplacedBy(moves), InstalledBy(moves), Parent(p));
    PresentIsNotThroughLink(d.On(moves[k].from), p);
    PresentIsClear(d.On(moves[k].from), Parent(p));
  }

  /** The private end of a performed move cannot have gone missing. */
  lemma SourceStands(o: Origin, d: Disk, moves: seq<ContentMove>, made: bool, k: nat)
    requires Placed(o, d, DisplacedBy(moves), InstalledBy(moves), made) && IsPlan(o, moves)
    requires k < |moves| && moves[k].state == Done
    ensures moves[k].path !in d.On(moves[k].to) ==> moves[k].from == Candidate && !Unblocked(d, moves)
  {
    var p := moves[k].path;
    assert IsMove(o, moves[k]);
    DoneMoveIsInSet(o, moves, k);
    assert PlacedAt(o, d, DisplacedBy(moves), InstalledBy(moves), p);
    if moves[k].from == Root { assert Under(p, DisplacedBy(moves)); }
  }

  lemma CanUndo(o: Origin, d: Disk, moves: seq<ContentMove>, made: bool, k: nat)
    requires Placed(o, d, DisplacedBy(moves), InstalledBy(moves), made) && IsPlan(o, moves)
    requires k < |moves| && moves[k].state == Done && (forall i | k < i < |moves| :: moves[i].state != Done)
    requires moves[k].path !in d.On(moves[k].from)
    ensures moves[k].from != moves[k].to && !Under(moves[k].path, o.kept) && !Above(moves[k].path, o.kept)
    ensures !CanRename(d, moves[k].to, moves[k].from, moves[k].path) ==> !Unblocked(d, moves)
  {
    assert IsMove(o, moves[k]);
    FrontierIsNotAbove(moves[k].path, o.kept);
    SourceStands(o, d, moves, made, k);
    if moves[k].path in d.On(moves[k].to) { UndoMove(o, d, moves, made, k); }
  }

  lemma DriftKeepsBlocked(o: Origin, a: Disk, b: Disk, moves: seq<ContentMove>, made: bool)
    requires Drifted(a, b, o.kept) && Placed(o, a, DisplacedBy(moves), InstalledBy(moves), made)
    ensures Unblocked(a, moves) <==> Unblocked(b, moves)
  {
    forall p | p in DisplacedBy(moves) + InstalledBy(moves)
      ensures p in a.root <==> p in b.root
    {
      SameOutsideAt(a.root, b.root, o.kept, p);
    }
  }

  ghost predicate AfterUndo(o: Origin, j: Journal, d: Disk, moves: seq<ContentMove>) {
    && IsPlan(o, moves) && SamePlaces(moves, j.contentMoves)
    && Placed(o, d, DisplacedBy(moves), InstalledBy(moves), j.created != [])
    && CrashSafe(o, Snapshot(j, d)) && Agrees(j, d, moves)
  }

  lemma UndoIsSafe(o: Origin, d: Disk, j: Journal, k: nat)
    requires Placed(o, d, DisplacedBy(j.contentMoves), InstalledBy(j.contentMoves), j.created != []) && IsPlan(o, j.contentMoves)
    requires j.phase == Restoring && k < |j.contentMoves| && j.contentMoves[k].state == Done
    requires forall i | k < i < |j.contentMoves| :: j.contentMoves[i].state != Done
    requires j.contentMoves[k].path in d.On(j.contentMoves[k].to) && j.contentMoves[k].path !in d.On(j.contentMoves[k].from)
    ensures var m := j.contentMoves[k]; var after := j.contentMoves[k := m.(state := Reverted)];
            && AfterUndo(o, j, Renamed(d, m.to, m.from, m.path), after)
            && (Unblocked(d, j.contentMoves) <==> Unblocked(Renamed(d, m.to, m.from, m.path), after))
  {
    var m := j.contentMoves[k];
    UndoMove(o, d, j.contentMoves, j.created != [], k);
    UndoneIsSafe(o, j, Renamed(d, m.to, m.from, m.path), k);
  }

  lemma UndoOutcome(o: Origin, d: Disk, mid: Disk, j: Journal, k: nat, ok: bool)
    requires Placed(o, d, DisplacedBy(j.contentMoves), InstalledBy(j.contentMoves), j.created != []) && IsPlan(o, j.contentMoves)
    requires j.phase == Restoring && k < |j.contentMoves| && j.contentMoves[k].state == Done
    requires forall i | k < i < |j.contentMoves| :: j.contentMoves[i].state != Done
    requires Drifted(d, mid, o.kept)
    requires ok ==> CanRename(mid, j.contentMoves[k].to, j.contentMoves[k].from, j.contentMoves[k].path)
    ensures var m := j.contentMoves[k];
            var after := if ok then j.contentMoves[k := m.(state := Reverted)] else j.contentMoves;
            var d' := if ok then Renamed(mid, m.to, m.from, m.path) else mid;
            AfterUndo(o, j, d', after) && (Unblocked(d, j.contentMoves) <==> Unblocked(d', after))
  {
    DriftIsExplained(o, j, d, mid);
    DriftKeepsBlocked(o, d, mid, j.contentMoves, j.created != []);
    if ok { UndoIsSafe(o, mid, j, k); }
  }

  lemma UndoneIsSafe(o: Origin, j: Journal, d: Disk, k: nat)
    requires j.phase == Restoring && k < |j.contentMoves| && j.contentMoves[k].state == Done && Staged(j.contentMoves)
    requires forall i | k < i < |j.contentMoves| :: j.contentMoves[i].state != Done
    requires var after := j.contentMoves[k := j.contentMoves[k].(state := Reverted)];
             IsPlan(o, after) && SamePlaces(after, j.contentMoves) && Placed(o, d, DisplacedBy(after), InstalledBy(after), j.created != [])
    ensures AfterUndo(o, j, d, j.contentMoves[k := j.contentMoves[k].(state := Reverted)])
  {
    LaggingJournalIsSafe(o, j, d, j.contentMoves[k := j.contentMoves[k].(state := Reverted)]);
  }

  lemma OccupiedMeansBlocked(o: Origin, d: Disk, moves: seq<ContentMove>, made: bool, k: nat)
    requires Placed(o, d, DisplacedBy(moves), InstalledBy(moves), made) && IsPlan(o, moves)
    requires k < |moves| && moves[k].state == Done && forall i | k < i < |moves| :: moves[i].state != Done
    ensures moves[k].path in d.On(moves[k].from) ==> !Unblocked(d, moves)
  {
    var p := moves[k].path;
    assert IsMove(o, moves[k]);
    DoneMoveIsInSet(o, moves, k);
    assert PlacedAt(o, d, DisplacedBy(moves), InstalledBy(moves), p);
    if moves[k].from == Root { LastIsNotInstalled(o, moves, k); } else { assert Under(p, InstalledBy(moves)); }
  }

  lemma NothingDoneIsUnblocked(d: Disk, moves: seq<ContentMove>)
    requires forall i | 0 <= i < |moves| :: moves[i].state != Done
    ensures DisplacedBy(moves) == {} && InstalledBy(moves) == {} && Unblocked(d, moves)
  {
  }

  lemma DriftKeepsVacant(o: Origin, a: Disk, b: Disk, moves: seq<ContentMove>, k: nat)
    requires Drifted(a, b, o.kept) && IsPlan(o, moves) && k < |moves|
    requires moves[k].path !in a.On(moves[k].from)
    ensures moves[k].path !in b.On(moves[k].from)
  {
    assert IsMove(o, moves[k]);
    SameOutsideAt(a.root, b.root, o.kept, moves[k].path);
  }

  /** Removing the root directory the release made settles it, and so does leaving it. */
  lemma RemovalIsExplained(o: Origin, j: Journal, d: Disk, mid: Disk, result: Removal, d': Disk)
    requires Placed(o, d, {}, {}, true) && IsPlan(o, j.contentMoves) && j.created == [[]] && j.phase == Restoring
    requires DisplacedBy(j.contentMoves) == {} == InstalledBy(j.contentMoves) && Drifted(d, mid, o.kept)
    requires d' == if result == Removed then mid.(root := mid.root - {[]}) else mid
    requires result == Removed ==> IsDir(mid.root, []) && forall q | q in mid.root && [] <= q :: q == []
    requires result == Missing ==> [] !in mid.root
    requires result == NotEmpty ==> exists q | q in mid.root :: [] < q
    ensures Placed(o, d', {}, {}, true) && (result != Refused ==> Placed(o, d', {}, {}, false))
    ensures CrashSafe(o, Snapshot(j, d')) && Agrees(j, d', j.contentMoves)
  {
    RetainedDataIsFree(o, d, {}, {}, true, mid.root);
    if result == Removed {
      assert forall q | q in mid.root :: [] <= q;
      assert mid.root.Keys == {[]};
      assert mid.root - {[]} == map[];
      RemovingCreatedRoot(o, mid);
    }
    if result != Refused { CreatedRootResolved(o, d'); }
    ExactJournalIsSafe(o, j, d');
  }

  lemma LogNothing(o: Origin, h: seq<Snapshot>)
    ensures LogSafe(o, h, |h|) && LogTidy(o, h, |h|) && Extends(h, h)
  {
  }

  lemma LogJoins(o: Origin, a: seq<Snapshot>, b: seq<Snapshot>, n: nat)
    requires n <= |a| && Extends(a, b)
    ensures LogSafe(o, a, n) && LogSafe(o, b, |a|) ==> LogSafe(o, b, n)
    ensures LogTidy(o, a, n) && LogTidy(o, b, |a|) ==> LogTidy(o, b, n)
  {
    assert forall i | 0 <= i < |a| :: b[i] == a[i];
  }

  lemma FrontierIsNotAbove(p: Path, kept: set<Path>)
    requires Frontier(p, kept)
    ensures !Under(p, kept) && !Above(p, kept)
  {
  }

  /** What the rename of the next planned move does to the account of the disk. */
  lemma MoveDone(o: Origin, d: Disk, moves: seq<ContentMove>, made: bool, k: nat)
    requires Placed(o, d, DisplacedBy(moves), InstalledBy(moves), made) && IsPlan(o, moves) && Tidy(d, moves)
    requires k < |moves| && moves[k].state != Done && (forall i | 0 <= i < k :: moves[i].state == Done)
    requires forall i | k < i < |moves| :: moves[i].state == Planned
    requires CanRename(d, moves[k].from, moves[k].to, moves[k].path)
    ensures var m := moves[k]; var after := moves[k := m.(state := Done)];
            && IsPlan(o, after) && SamePlaces(moves, after)
            && Placed(o, Renamed(d, m.from, m.to, m.path), DisplacedBy(after), InstalledBy(after), made)
            && Tidy(Renamed(d, m.from, m.to, m.path), after)
            && ([] in Renamed(d, m.from, m.to, m.path).root <==> [] in d.root)
  {
    var m := moves[k];
    assert IsMove(o, m);
    MarkDone(o, moves, k);
    MovesNeverCollide(o, d, moves, made, k);
    MarkDoneIsPlan(o, moves, k);
    RenameTransfers(d, m.from, m.to, m.path);
    assert TransferredAt(d, Renamed(d, m.from, m.to, m.path), m.from, m.to, m.path, []);
    if m.from == Root {
      Displace(o, d, DisplacedBy(moves), InstalledBy(moves), made, m.path);
      assert InstalledBy(moves) + {} == InstalledBy(moves);
    } else {
      Install(o, d, DisplacedBy(moves), InstalledBy(moves), made, m.path);
      assert DisplacedBy(moves) + {} == DisplacedBy(moves);
    }
  }

  /** The moves, the journal and the disk agree. */
  ghost predicate AfterRename(o: Origin, j: Journal, d: Disk, moves: seq<ContentMove>) {
    && IsPlan(o, moves) && SamePlaces(moves, j.contentMoves)
    && Placed(o, d, DisplacedBy(moves), InstalledBy(moves), j.created != [])
    && Tidy(d, moves) && CrashSafe(o, Snapshot(j, d)) && Agrees(j, d, moves)
  }

  lemma DriftIsExplained(o: Origin, j: Journal, d: Disk, d': Disk)
    requires Placed(o, d, DisplacedBy(j.contentMoves), InstalledBy(j.contentMoves), j.created != []) && IsPlan(o, j.contentMoves)
    requires Drifted(d, d', o.kept)
    requires j.phase == Activating ==> NextIsPending(j.contentMoves)
    requires j.phase in {Building, RolledBack} ==> j.created == [] && forall m | m in j.contentMoves :: m.state != Done
    ensures Placed(o, d', DisplacedBy(j.contentMoves), InstalledBy(j.contentMoves), j.created != [])
    ensures Tidy(d, j.contentMoves) ==> Tidy(d', j.contentMoves)
    ensures [] in d'.root <==> [] in d.root
    ensures CrashSafe(o, Snapshot(j, d')) && Agrees(j, d', j.contentMoves)
  {
    RetainedDataIsFree(o, d, DisplacedBy(j.contentMoves), InstalledBy(j.contentMoves), j.created != [], d'.root);
    DriftKeepsRoot(d, d', o.kept);
    ExactJournalIsSafe(o, j, d');
  }

  /** The disk after the announced move, explained by the journal that announces it. */
  lemma AnnouncedMoveDone(o: Origin, d: Disk, j: Journal, k: nat)
    requires Placed(o, d, DisplacedBy(j.contentMoves), InstalledBy(j.contentMoves), j.created != []) && IsPlan(o, j.contentMoves)
    requires Tidy(d, j.contentMoves) && j.phase == Activating && k < |j.contentMoves|
    requires forall i | 0 <= i < |j.contentMoves| :: j.contentMoves[i].state == if i < k then Done else if i == k then Pending else Planned
    requires CanRename(d, j.contentMoves[k].from, j.contentMoves[k].to, j.contentMoves[k].path)
    ensures var m := j.contentMoves[k]; var after := j.contentMoves[k := m.(state := Done)]; var d' := Renamed(d, m.from, m.to, m.path);
            AfterRename(o, j, d', after) && ([] in d'.root <==> [] in d.root)
  {
    var m := j.contentMoves[k];
    var after := j.contentMoves[k := m.(state := Done)];
    MoveDone(o, d, j.contentMoves, j.created != [], k);
    LaggingJournalIsSafe(o, j, Renamed(d, m.from, m.to, m.path), after);
  }

  lemma MarkPending(o: Origin, moves: seq<ContentMove>, k: nat)
    requires IsPlan(o, moves) && k < |moves|
    requires forall i | 0 <= i < |moves| :: moves[i].state == if i < k then Done else Planned
    ensures var after := moves[k := moves[k].(state := Pending)];
            && IsPlan(o, after) && SamePlaces(after, moves) && NextIsPending(after) && SameDone(after, moves)
            && DisplacedBy(after) == DisplacedBy(moves) && InstalledBy(after) == InstalledBy(moves)
  {
    var after := moves[k := moves[k].(state := Pending)];
    SameDoneSameSets(after, moves);
    SameDoneSamePlan(o, after, moves);
  }

  lemma DriftKeepsVacancy(a: Disk, b: Disk, kept: set<Path>, side: Side, p: Path)
    requires Drifted(a, b, kept) && Frontier(p, kept) && Antichain(kept) && [] !in kept && Vacant(a.On(side), p)
    ensures Vacant(b.On(side), p)
    ensures [] in b.root <==> [] in a.root
  {
    SpineIsNotKept(Parent(p), kept);
    SameOutsideAt(a.root, b.root, kept, p);
    SameOutsideAt(a.root, b.root, kept, Parent(p));
    DriftKeepsRoot(a, b, kept);
  }

  lemma DriftKeepsRoot(a: Disk, b: Disk, kept: set<Path>)
    requires Drifted(a, b, kept) && [] !in kept
    ensures [] in b.root <==> [] in a.root
  {
    SameOutsideAt(a.root, b.root, kept, []);
  }

  lemma MarkDoneIsPlan(o: Origin, moves: seq<ContentMove>, k: nat)
    requires IsPlan(o, moves) && k < |moves| && (forall i | 0 <= i < k :: moves[i].state == Done)
    requires forall i | k < i < |moves| :: moves[i].state != Done
    ensures IsPlan(o, moves[k := moves[k].(state := Done)])
  {
    var after := moves[k := moves[k].(state := Done)];
    forall i | 0 <= i < |after|
      ensures IsMove(o, after[i])
    {
      assert IsMove(o, moves[i]);
    }
    forall j | 0 <= j < |after| && after[j].from == Candidate && after[j].path in o.live
      ensures exists i | 0 <= i < j :: after[i].path == after[j].path && after[i].from == Root
    {
      var i :| 0 <= i < j && moves[i].path == moves[j].path && moves[i].from == Root;
      assert after[i].path == after[j].path;
    }
  }

  /** What a crash while creating live directories shows: directories grown towards `relative`, each of
      them named in the journal. */
  ghost predicate Creating(start: Journal, d: Disk, created: seq<Path>, relative: Path, kept: set<Path>, s: Snapshot) {
    && s.journal == start.(created := s.journal.created)
    && start.created <= s.journal.created <= created
    && GrownOn(d, s.disk, Root, relative, kept)
    && (forall q | q in s.disk.root :: q in d.root || Under(q, kept) || q in s.journal.created)
  }

  ghost predicate LogCreating(start: Journal, d: Disk, created: seq<Path>, relative: Path, kept: set<Path>, history: seq<Snapshot>, n: nat) {
    forall i | n <= i < |history| :: Creating(start, d, created, relative, kept, history[i])
  }

  lemma StartCreating(start: Journal, d: Disk, relative: Path, kept: set<Path>)
    requires d.Sound()
    ensures Creating(start, d, start.created, relative, kept, Snapshot(start, d))
  {
    DriftIsGrowth(d, d, Root, relative, kept);
  }

  lemma CreatingTowards(start: Journal, d: Disk, created: seq<Path>, step: Path, relative: Path, kept: set<Path>, s: Snapshot)
    requires Creating(start, d, created, step, kept, s) && step <= relative
    ensures Creating(start, d, created, relative, kept, s)
  {
    GrowthTowards(d, s.disk, Root, step, relative, kept);
  }

  lemma LogTowards(start: Journal, d: Disk, created: seq<Path>, step: Path, relative: Path, kept: set<Path>, history: seq<Snapshot>, n: nat)
    requires LogCreating(start, d, created, step, kept, history, n) && step <= relative
    ensures LogCreating(start, d, created, relative, kept, history, n)
  {
    forall i | n <= i < |history|
      ensures Creating(start, d, created, relative, kept, history[i])
    {
      CreatingTowards(start, d, created, step, relative, kept, history[i]);
    }
  }

  lemma StillCreating(start: Journal, d: Disk, created: seq<Path>, relative: Path, kept: set<Path>, a: Disk, b: Disk, j: Journal)
    requires GrownOn(d, a, Root, relative, kept) && Drifted(a, b, kept) && a.Sound()
    requires j == start.(created := j.created) && start.created <= j.created <= created
    requires forall q | q in a.root :: q in d.root || Under(q, kept) || q in j.created
    ensures Creating(start, d, created, relative, kept, Snapshot(j, b))
  {
    DriftIsGrowth(a, b, Root, relative, kept);
    GrowthComposes(d, a, b, Root, relative, kept);
    forall q | q in b.root && !Under(q, kept)
      ensures q in a.root
    {
      SameOutsideAt(a.root, b.root, kept, q);
    }
  }

  lemma NowCreating(start: Journal, d: Disk, created: seq<Path>, relative: Path, kept: set<Path>, a: Disk, b: Disk, j: Journal)
    requires GrownOn(d, a, Root, relative, kept) && GrownOn(a, b, Root, relative, kept)
    requires j == start.(created := j.created) && start.created <= j.created <= created
    requires forall q | q in a.root :: q in d.root || Under(q, kept) || q in j.created
    requires forall q | q in b.root :: q in a.root || Under(q, kept) || q in j.created
    ensures Creating(start, d, created, relative, kept, Snapshot(j, b))
  {
    GrowthComposes(d, a, b, Root, relative, kept);
  }

  lemma LogGrows(start: Journal, d: Disk, c: seq<Path>, c': seq<Path>, relative: Path, kept: set<Path>, h: seq<Snapshot>, h': seq<Snapshot>, n: nat)
    requires c <= c' && n <= |h| && Extends(h, h')
    requires LogCreating(start, d, c, relative, kept, h, n) && LogCreating(start, d, c', relative, kept, h', |h|)
    ensures LogCreating(start, d, c', relative, kept, h', n)
  {
    forall i | n <= i < |h|
      ensures Creating(start, d, c', relative, kept, h'[i])
    {
      assert h'[i] == h[i];
    }
  }

  lemma PrefixOfParent(p: Path)
    requires p != []
    ensures forall q: Path {:trigger |q|} | q <= Parent(p) :: q <= p
  {
  }

  lemma ParentOfWay(t: Tree, p: Path)
    requires p != []
    ensures !ThroughLink(t, p) ==> !ThroughLink(t, Parent(p))
    ensures ClearWay(t, p) ==> ClearWay(t, Parent(p))
  {
    assert forall i | 0 <= i <= |Parent(p)| :: Parent(p)[..i] == p[..i];
  }

  /** Before anything has moved every record is safe, whichever paths will be retained. */
  lemma NothingMovedIsSafe(o: Origin, j: Journal, d: Disk)
    requires d.Sound() && ([] in d.root ==> IsDir(d.root, [])) && o == Untouched(d).(kept := o.kept) && o.Sound()
    requires j.contentMoves == [] && j.created == []
    ensures Placed(o, d, DisplacedBy([]), InstalledBy([]), false) && IsPlan(o, [])
    ensures CrashSafe(o, Snapshot(j, d)) && Agrees(j, d, []) && Tidy(d, []) && Tidy(d, Settled(j, d))
  {
    forall q
      ensures PlacedAt(o, d, DisplacedBy([]), InstalledBy([]), q)
    {
    }
    ExactJournalIsSafe(o, j, d);
  }

  lemma UntouchedIsSound(d: Disk)
    requires d.Sound() && ([] in d.root ==> IsDir(d.root, []))
    ensures Untouched(d).Sound() && Contained(Untouched(d))
  {
    if [] !in d.root { AbsentIsEmpty(d.root); }
  }

  /** Every snapshot after the first `n` shows the disk `d` and a journal without moves. */
  predicate LogUntouched(d: Disk, history: seq<Snapshot>, n: nat) {
    forall i | n <= i < |history| ::
      history[i].disk == d && history[i].journal.contentMoves == [] && history[i].journal.created == []
  }

  lemma UntouchedLogIsSafe(o: Origin, d: Disk, history: seq<Snapshot>, n: nat)
    requires d.Sound() && ([] in d.root ==> IsDir(d.root, [])) && o == Untouched(d).(kept := o.kept) && o.Sound()
    requires LogUntouched(d, history, n)
    ensures LogSafe(o, history, n) && LogTidy(o, history, n)
  {
    forall i | n <= i < |history|
      ensures CrashSafe(o, history[i]) && Tidy(history[i].disk, Settled(history[i].journal, history[i].disk))
    {
      NothingMovedIsSafe(o, history[i].journal, d);
    }
  }

  /** After a complete activation the application may write anything but the containers. */
  lemma ApplicationIsExplained(o: Origin, j: Journal, d: Disk, next: Tree)
    requires Placed(o, d, DisplacedBy(j.contentMoves), InstalledBy(j.contentMoves), j.created != []) && IsPlan(o, j.contentMoves)
    requires Contained(o) && LeavesContainers(o, d.root, next) && (o.existed || j.created != [])
    requires j.phase !in {Building, RolledBack} && forall m | m in j.contentMoves :: m.state == Done
    ensures var o' := Absorbed(o, DisplacedBy(j.contentMoves), InstalledBy(j.contentMoves), next); var d' := d.(root := next);
            && Contained(o') && IsPlan(o', j.contentMoves)
            && Placed(o', d', DisplacedBy(j.contentMoves), InstalledBy(j.contentMoves), j.created != [])
            && CrashSafe(o', Snapshot(j, d')) && Agrees(j, d', j.contentMoves)
  {
    var displaced, installed := DisplacedBy(j.contentMoves), InstalledBy(j.contentMoves);
    var o' := Absorbed(o, displaced, installed, next);
    ApplicationMayWrite(o, d, displaced, installed, j.created != [], next);
    forall q | o.existed && Spine(q, o.kept)
      ensures IsDir(o'.live, q)
    {
      ContainersStand(o, d, displaced, installed, j.created != [], q);
      SpineIsNotUnder(q, displaced, o.kept);
      SpineIsNotUnder(q, installed, o.kept);
      SpineIsNotKept(q, o.kept);
    }
    AbsorbedPlan(o, d, j.contentMoves, next);
    ExactJournalIsSafe(o', j, d.(root := next));
  }

  lemma AbsorbedPlan(o: Origin, d: Disk, moves: seq<ContentMove>, next: Tree)
    requires IsPlan(o, moves) && (forall m | m in moves :: m.state == Done)
    requires (forall p | p in DisplacedBy(moves) + InstalledBy(moves) :: Frontier(p, o.kept)) && forall p | p in DisplacedBy(moves) :: p in o.live
    ensures IsPlan(Absorbed(o, DisplacedBy(moves), InstalledBy(moves), next), moves)
  {
    var displaced, installed := DisplacedBy(moves), InstalledBy(moves);
    var o' := Absorbed(o, displaced, installed, next);
    forall i | 0 <= i < |moves|
      ensures IsMove(o', moves[i])
    {
      assert IsMove(o, moves[i]);
      DoneMoveIsInSet(o, moves, i);
      if moves[i].from == Root { assert Under(moves[i].path, displaced); }
    }
    forall k | 0 <= k < |moves| && moves[k].from == Candidate && moves[k].path in o'.live
      ensures exists i | 0 <= i < k :: moves[i].path == moves[k].path && moves[i].from == Root
    {
      DoneMoveIsInSet(o, moves, k);
      assert Under(moves[k].path, installed);
      if moves[k].path !in displaced { FrontierIsNotUnder(moves[k].path, moves[k].path, displaced, o.kept); }
    }
  }
}
