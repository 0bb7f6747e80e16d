/** The planned moves of a release, its durable journal, and what the two say about the disk. */
module ReleasePlan {
  import opened Trees
  import opened ReleaseTheory

  datatype MoveState = Planned | Pending | Done | Reverted

  datatype ContentMove = ContentMove(path: Path, from: Side, to: Side, state: MoveState)

  datatype Phase = Building | Activating | Restoring | RolledBack | Complete

  datatype Mode = Directory | Contents

  /** The content of release.json. */
  datatype Journal = Journal(phase: Phase, persistent: seq<Path>, moved: seq<Path>, originalMoved: bool,
                             candidateMoved: bool, mode: Mode, contentMoves: seq<ContentMove>, created: seq<Path>)

  /** What a crash leaves behind. */
  datatype Snapshot = Snapshot(journal: Journal, disk: Disk)

  function DisplacedBy(moves: seq<ContentMove>): set<Path> {
    set m | m in moves && m.from == Root && m.state == Done :: m.path
  }

  function InstalledBy(moves: seq<ContentMove>): set<Path> {
    set m | m in moves && m.from == Candidate && m.state == Done :: m.path
  }

  /** Every move takes a frontier path from the live root to the previous release or from the
      candidate to the root. */
  predicate IsMove(o: Origin, m: ContentMove) {
    && Frontier(m.path, o.kept)
    && (match m.from
        case Root => m.to == Previous && m.path in o.live && o.existed && o.aside == map[]
        case Candidate => m.to == Root && (m.state == Done || m.path in o.work)
        case _ => false)
  }

  /** No move occurs twice, and what is live is displaced before its replacement is installed. */
  ghost predicate Ordered(o: Origin, moves: seq<ContentMove>) {
    && (forall i, j | 0 <= i < j < |moves| :: moves[i].path == moves[j].path ==> moves[i].from == Root && moves[j].from == Candidate)
    && (forall j | 0 <= j < |moves| && moves[j].from == Candidate && moves[j].path in o.live ::
          exists i | 0 <= i < j :: moves[i].path == moves[j].path && moves[i].from == Root)
  }

  /** The moves are performed in order and undone in reverse order; at most one is in flight. */
  ghost predicate Staged(moves: seq<ContentMove>) {
    && (forall i, j | 0 <= i < j < |moves| :: moves[j].state == Done ==> moves[i].state == Done)
    && (forall i, j | 0 <= i < |moves| && 0 <= j < |moves| :: moves[i].state == Pending && moves[j].state == Pending ==> i == j)
  }

  /** While activating, everything before the pending move has been performed. */
  ghost predicate NextIsPending(moves: seq<ContentMove>) {
    forall i, j | 0 <= i < j < |moves| :: moves[j].state == Pending ==> moves[i].state == Done
  }

  ghost predicate IsPlan(o: Origin, moves: seq<ContentMove>) {
    && (forall m | m in moves :: IsMove(o, m))
    && Ordered(o, moves)
    && Staged(moves)
  }

  /** The plan omits nothing that has to move. */
  ghost predicate Covers(o: Origin, moves: seq<ContentMove>) {
    && (forall p | p in o.live && Frontier(p, o.kept) :: exists m | m in moves :: m.path == p && m.from == Root)
    && (forall p | p in o.work && Frontier(p, o.kept) :: exists m | m in moves :: m.path == p && m.from == Candidate)
  }

  /** The moves of two plans agree on which of them have been performed. */
  ghost predicate SameDone(a: seq<ContentMove>, b: seq<ContentMove>) {
    && |a| == |b|
    && (forall i | 0 <= i < |a| :: a[i].path == b[i].path && a[i].from == b[i].from && a[i].to == b[i].to)
    && (forall i | 0 <= i < |a| :: a[i].state == Done <==> b[i].state == Done)
  }

  lemma SameDoneSameSets(a: seq<ContentMove>, b: seq<ContentMove>)
    requires SameDone(a, b)
    ensures DisplacedBy(a) == DisplacedBy(b) && InstalledBy(a) == InstalledBy(b)
  {
    DoneSetsGrow(a, b);
    DoneSetsGrow(b, a);
  }

  lemma DoneSetsGrow(a: seq<ContentMove>, b: seq<ContentMove>)
    requires SameDone(a, b)
    ensures DisplacedBy(a) <= DisplacedBy(b) && InstalledBy(a) <= InstalledBy(b)
  {
    forall m | m in a && m.state == Done
      ensures m.from == Root ==> m.path in DisplacedBy(b)
      ensures m.from == Candidate ==> m.path in InstalledBy(b)
    {
      var i :| 0 <= i < |a| && a[i] == m;
      assert b[i] in b;
    }
  }

  /** Performing one more move adds its path to one of the two sets. */
  lemma MarkDone(o: Origin, moves: seq<ContentMove>, k: nat)
    requires k < |moves| && moves[k].state != Done && IsMove(o, moves[k])
    ensures var after := moves[k := moves[k].(state := Done)];
            && DisplacedBy(after) == DisplacedBy(moves) + (if moves[k].from == Root then {moves[k].path} else {})
            && InstalledBy(after) == InstalledBy(moves) + (if moves[k].from == Candidate then {moves[k].path} else {})
  {
    var after := moves[k := moves[k].(state := Done)];
    assert after[k] in after;
    forall m | m in moves && m.state == Done
      ensures m in after
    {
      var i :| 0 <= i < |moves| && moves[i] == m;
      assert after[i] == m;
    }
    forall m | m in after && m.state == Done
      ensures m in moves || m == after[k]
    {
      var i :| 0 <= i < |after| && after[i] == m;
    }
  }

  /** A path belongs to a set exactly when its one move of that kind is done. */
  lemma DoneMoveIsInSet(o: Origin, moves: seq<ContentMove>, k: nat)
    requires Ordered(o, moves) && k < |moves|
    ensures moves[k].from == Root ==> (moves[k].path in DisplacedBy(moves) <==> moves[k].state == Done)
    ensures moves[k].from == Candidate ==> (moves[k].path in InstalledBy(moves) <==> moves[k].state == Done)
  {
    assert moves[k] in moves;
    forall m | m in moves && m.path == moves[k].path && m.from == moves[k].from
      ensures m == moves[k]
    {
      var i :| 0 <= i < |moves| && moves[i] == m;
    }
  }

  /** Whether a move has happened, judged by the end of it that only the release can reach. */
  predicate Landed(m: ContentMove, d: Disk) {
    if m.from == Root then m.path in d.previous else m.path !in d.candidate
  }

  /** The one move a journal can be wrong about: the pending one while activating, the last done one
      while restoring. */
  ghost predicate InDoubt(j: Journal, i: nat)
    requires i < |j.contentMoves|
  {
    || (j.phase == Activating && j.contentMoves[i].state == Pending)
    || (j.phase == Restoring && j.contentMoves[i].state == Done &&
        forall k | i < k < |j.contentMoves| :: j.contentMoves[k].state != Done)
  }

  /** The journal corrected by looking at the disk. */
  ghost function Settled(j: Journal, d: Disk): (moves: seq<ContentMove>)
    ensures |moves| == |j.contentMoves|
  {
    seq(|j.contentMoves|, i requires 0 <= i < |j.contentMoves| =>
      var m := j.contentMoves[i];
      if InDoubt(j, i) then m.(state := if Landed(m, d) then Done else Planned) else m)
  }

  /** However a crash interrupts a release, the journal and the disk together still explain where
      every entry is; a journal that lets the next release start describes an untouched root. */
  ghost predicate CrashSafe(o: Origin, s: Snapshot) {
    && Staged(s.journal.contentMoves)
    && IsPlan(o, Settled(s.journal, s.disk))
    && Placed(o, s.disk, DisplacedBy(Settled(s.journal, s.disk)), InstalledBy(Settled(s.journal, s.disk)), s.journal.created != [])
    && (s.journal.phase == Activating ==> NextIsPending(s.journal.contentMoves))
    && (s.journal.phase in {Building, RolledBack} ==>
          s.journal.created == [] && forall m | m in s.journal.contentMoves :: m.state != Done)
  }

  ghost predicate SamePlaces(a: seq<ContentMove>, b: seq<ContentMove>) {
    && |a| == |b|
    && (forall i | 0 <= i < |a| :: a[i].path == b[i].path && a[i].from == b[i].from && a[i].to == b[i].to)
  }

  lemma LandedMeansPerformed(o: Origin, d: Disk, moves: seq<ContentMove>, made: bool, k: nat)
    requires Placed(o, d, DisplacedBy(moves), InstalledBy(moves), made)
    requires IsPlan(o, moves) && k < |moves|
    ensures Landed(moves[k], d) <==> moves[k].state == Done
  {
    var p := moves[k].path;
    assert IsMove(o, moves[k]);
    DoneMoveIsInSet(o, moves, k);
    assert PlacedAt(o, d, DisplacedBy(moves), InstalledBy(moves), p);
    if moves[k].state != Done {
      if moves[k].from == Root {
        FrontierIsNotUnder(p, p, DisplacedBy(moves), o.kept);
      } else {
        FrontierIsNotUnder(p, p, InstalledBy(moves), o.kept);
      }
    }
  }

  /** A journal that is right about every move except possibly the one in doubt is crash safe. */
  lemma SettledIsActual(o: Origin, s: Snapshot, actual: seq<ContentMove>)
    requires Placed(o, s.disk, DisplacedBy(actual), InstalledBy(actual), s.journal.created != [])
    requires IsPlan(o, actual) && SamePlaces(s.journal.contentMoves, actual) && Staged(s.journal.contentMoves)
    requires forall i | 0 <= i < |actual| :: InDoubt(s.journal, i) || (s.journal.contentMoves[i].state == Done <==> actual[i].state == Done)
    ensures SameDone(Settled(s.journal, s.disk), actual) && IsPlan(o, Settled(s.journal, s.disk))
    ensures DisplacedBy(Settled(s.journal, s.disk)) == DisplacedBy(actual)
    ensures InstalledBy(Settled(s.journal, s.disk)) == InstalledBy(actual)
  {
    var settled := Settled(s.journal, s.disk);
    forall i | 0 <= i < |actual|
      ensures settled[i].state == Done <==> actual[i].state == Done
    {
      LandedMeansPerformed(o, s.disk, actual, s.journal.created != [], i);
      assert Landed(s.journal.contentMoves[i], s.disk) == Landed(actual[i], s.disk);
    }
    SameDoneSameSets(settled, actual);
    SameDoneSamePlan(o, settled, actual);
    forall i, k | 0 <= i < |settled| && 0 <= k < |settled| && settled[i].state == Pending && settled[k].state == Pending
      ensures i == k
    {
      assert s.journal.contentMoves[i].state == Pending && s.journal.contentMoves[k].state == Pending;
    }
  }

  lemma SameDoneSamePlan(o: Origin, a: seq<ContentMove>, b: seq<ContentMove>)
    requires SameDone(a, b) && (forall m | m in b :: IsMove(o, m)) && Ordered(o, b)
    ensures (forall m | m in a :: IsMove(o, m)) && Ordered(o, a)
  {
    forall i | 0 <= i < |a|
      ensures IsMove(o, a[i])
    {
      assert IsMove(o, b[i]);
    }
    forall j | 0 <= j < |a| && a[j].from == Candidate && a[j].path in o.live
      ensures exists i | 0 <= i < j :: a[i].path == a[j].path && a[i].from == Root
    {
      var i :| 0 <= i < j && b[i].path == b[j].path && b[i].from == Root;
      assert a[i].path == a[j].path;
    }
  }

  /** The journal never misjudges two moves at once. */
  lemma AtMostOneInDoubt(j: Journal, d: Disk, i: nat, k: nat)
    requires Staged(j.contentMoves) && i < |j.contentMoves| && k < |j.contentMoves|
    requires Settled(j, d)[i] != j.contentMoves[i] && Settled(j, d)[k] != j.contentMoves[k]
    ensures i == k
  {
  }

  /** While nothing else has touched what was moved, exactly one of the two ends of the move in
      doubt exists, and that tells whether it has happened. */
  lemma EndsDecide(o: Origin, s: Snapshot, i: nat)
    requires CrashSafe(o, s) && i < |s.journal.contentMoves| && InDoubt(s.journal, i)
    requires Vacated(s.disk, DisplacedBy(Settled(s.journal, s.disk)), InstalledBy(Settled(s.journal, s.disk)))
    requires s.journal.contentMoves[i].from == Candidate ==> s.journal.contentMoves[i].path in o.work
    ensures var m := s.journal.contentMoves[i];
            && (m.path in s.disk.On(m.from) <==> m.path !in s.disk.On(m.to))
            && (m.path in s.disk.On(m.to) <==> Settled(s.journal, s.disk)[i].state == Done)
  {
    var settled := Settled(s.journal, s.disk);
    var displaced, installed := DisplacedBy(settled), InstalledBy(settled);
    var m := settled[i];
    assert IsMove(o, m);
    DoneMoveIsInSet(o, settled, i);
    assert PlacedAt(o, s.disk, displaced, installed, m.path);
    LandedMeansPerformed(o, s.disk, settled, s.journal.created != [], i);
    if m.path !in installed { FrontierIsNotUnder(m.path, m.path, installed, o.kept); }
    if m.path !in displaced { FrontierIsNotUnder(m.path, m.path, displaced, o.kept); }
    if m.from == Root {
      forall f | f in settled && f.path == m.path && f.from == Candidate
        ensures f.state != Done
      {
        var j :| 0 <= j < |settled| && settled[j] == f;
        assert j > i;
      }
    } else if m.path in o.live {
      var k :| 0 <= k < i && settled[k].path == m.path && settled[k].from == Root;
      DoneMoveIsInSet(o, settled, k);
    }
  }

  /** The journal and the disk together say the same as the moves the running process remembers. */
  ghost predicate Agrees(j: Journal, d: Disk, moves: seq<ContentMove>) {
    && DisplacedBy(Settled(j, d)) == DisplacedBy(moves)
    && InstalledBy(Settled(j, d)) == InstalledBy(moves)
  }

  /** Nothing foreign lies where content was displaced and not replaced. */
  ghost predicate Tidy(d: Disk, moves: seq<ContentMove>) {
    Vacated(d, DisplacedBy(moves), InstalledBy(moves))
  }

  /** A journal that records the moves as they are is crash safe. */
  lemma ExactJournalIsSafe(o: Origin, j: Journal, d: Disk)
    requires Placed(o, d, DisplacedBy(j.contentMoves), InstalledBy(j.contentMoves), j.created != [])
    requires IsPlan(o, j.contentMoves) && (j.phase == Activating ==> NextIsPending(j.contentMoves))
    requires j.phase in {Building, RolledBack} ==> j.created == [] && forall m | m in j.contentMoves :: m.state != Done
    ensures CrashSafe(o, Snapshot(j, d)) && Agrees(j, d, j.contentMoves)
  {
    SettledIsActual(o, Snapshot(j, d), j.contentMoves);
  }

  /** So is a journal that lags behind by the one move it has announced. */
  lemma LaggingJournalIsSafe(o: Origin, j: Journal, d: Disk, moves: seq<ContentMove>)
    requires Placed(o, d, DisplacedBy(moves), InstalledBy(moves), j.created != [])
    requires IsPlan(o, moves) && SamePlaces(j.contentMoves, moves) && Staged(j.contentMoves)
    requires j.phase == Activating ==> NextIsPending(j.contentMoves)
    requires j.phase !in {Building, RolledBack}
    requires forall i | 0 <= i < |moves| :: InDoubt(j, i) || (j.contentMoves[i].state == Done <==> moves[i].state == Done)
    ensures CrashSafe(o, Snapshot(j, d)) && Agrees(j, d, moves)
  {
    SettledIsActual(o, Snapshot(j, d), moves);
  }

  lemma DriftKeepsSafety(o: Origin, j: Journal, d: Disk, d': Disk)
    requires CrashSafe(o, Snapshot(j, d)) && Drifted(d, d', o.kept)
    ensures CrashSafe(o, Snapshot(j, d')) && Settled(j, d') == Settled(j, d)
  {
    assert Settled(j, d') == Settled(j, d);
    RetainedDataIsFree(o, d, DisplacedBy(Settled(j, d)), InstalledBy(Settled(j, d)), j.created != [], d'.root);
  }

  /** At its turn every planned move finds its source in place and its destination free. */
  lemma MovesNeverCollide(o: Origin, d: Disk, moves: seq<ContentMove>, made: bool, k: nat)
    requires Placed(o, d, DisplacedBy(moves), InstalledBy(moves), made) && IsPlan(o, moves) && Tidy(d, moves)
    requires k < |moves| && moves[k].state != Done && forall i | 0 <= i < k :: moves[i].state == Done
    ensures moves[k].path in d.On(moves[k].from) && moves[k].path !in d.On(moves[k].to)
    ensures moves[k].from == Root ==> moves[k].path !in DisplacedBy(moves) && moves[k].path !in InstalledBy(moves)
    ensures moves[k].from == Candidate ==> moves[k].path !in InstalledBy(moves) && (moves[k].path in DisplacedBy(moves) || moves[k].path !in o.live)
  {
    var p := moves[k].path;
    var displaced, installed := DisplacedBy(moves), InstalledBy(moves);
    assert IsMove(o, moves[k]);
    DoneMoveIsInSet(o, moves, k);
    assert PlacedAt(o, d, displaced, installed, p);
    if moves[k].from == Root {
      NotYetInstalled(moves, o, k);
      FrontierIsNotUnder(p, p, installed, o.kept);
      FrontierIsNotUnder(p, p, displaced, o.kept);
    } else {
      FrontierIsNotUnder(p, p, installed, o.kept);
      if p in o.live {
        var i :| 0 <= i < k && moves[i].path == p && moves[i].from == Root;
        DoneMoveIsInSet(o, moves, i);
        assert Under(p, displaced);
      } else {
        if p !in displaced { FrontierIsNotUnder(p, p, displaced, o.kept); }
      }
    }
  }

  lemma NotYetInstalled(moves: seq<ContentMove>, o: Origin, k: nat)
    requires Ordered(o, moves) && Staged(moves) && k < |moves| && moves[k].state != Done && moves[k].from == Root
    ensures moves[k].path !in InstalledBy(moves)
  {
    forall m | m in moves && m.from == Candidate && m.path == moves[k].path
      ensures m.state != Done
    {
      var i :| 0 <= i < |moves| && moves[i] == m;
      assert i > k;
    }
  }

  /** Nothing stands in the way of undoing the performed moves: what was installed is still there, and
      nothing foreign took the place of what was displaced. */
  ghost predicate Unblocked(d: Disk, moves: seq<ContentMove>) {
    && (forall p | p in InstalledBy(moves) :: p in d.root)
    && (forall p | p in DisplacedBy(moves) :: p in InstalledBy(moves) || p !in d.root)
  }

  /** Everything to be installed is there in the candidate the activation started from. */
  ghost predicate Supplied(o: Origin, moves: seq<ContentMove>) {
    forall m | m in moves && m.from == Candidate :: m.path in o.work
  }

  lemma SamePlacesSupplied(o: Origin, a: seq<ContentMove>, b: seq<ContentMove>)
    requires SamePlaces(b, a) && Supplied(o, a)
    ensures Supplied(o, b)
  {
    forall m | m in b && m.from == Candidate
      ensures m.path in o.work
    {
      var i :| 0 <= i < |b| && b[i] == m;
      assert a[i] in a;
    }
  }

  lemma SamePlacesCover(o: Origin, a: seq<ContentMove>, b: seq<ContentMove>)
    requires SamePlaces(b, a) && Covers(o, a)
    ensures Covers(o, b)
  {
    forall p | Frontier(p, o.kept)
      ensures p in o.live ==> exists m | m in b :: m.path == p && m.from == Root
      ensures p in o.work ==> exists m | m in b :: m.path == p && m.from == Candidate
    {
      if p in o.live {
        var m :| m in a && m.path == p && m.from == Root;
        var i :| 0 <= i < |a| && a[i] == m;
        assert b[i] in b;
      }
      if p in o.work {
        var m :| m in a && m.path == p && m.from == Candidate;
        var i :| 0 <= i < |a| && a[i] == m;
        assert b[i] in b;
      }
    }
  }

  /** A complete activation has moved exactly the highest paths that neither hold nor belong to retained data. */
  lemma EverythingMoved(o: Origin, moves: seq<ContentMove>)
    requires IsPlan(o, moves) && Covers(o, moves) && Supplied(o, moves) && forall m | m in moves :: m.state == Done
    ensures forall p :: p in DisplacedBy(moves) <==> p in o.live && Frontier(p, o.kept)
    ensures forall p :: p in InstalledBy(moves) <==> p in o.work && Frontier(p, o.kept)
  {
    assert forall m | m in moves :: IsMove(o, m);
  }

  /** As long as nobody has touched what was moved, every activation can be undone, however far it came. */
  lemma UntouchedMovesAreUnblocked(o: Origin, d: Disk, moves: seq<ContentMove>, made: bool)
    requires Placed(o, d, DisplacedBy(moves), InstalledBy(moves), made) && Tidy(d, moves) && Supplied(o, moves)
    ensures Unblocked(d, moves)
  {
    var displaced, installed := DisplacedBy(moves), InstalledBy(moves);
    forall p | p in installed
      ensures p in d.root
    {
      assert Under(p, installed) && PlacedAt(o, d, displaced, installed, p);
    }
    forall p | p in displaced && p in d.root
      ensures p in installed
    {
      assert Under(p, displaced);
      if p !in installed { FrontierIsNotUnder(p, p, installed, o.kept); }
    }
  }

  lemma MarkReverted(o: Origin, moves: seq<ContentMove>, k: nat)
    requires IsPlan(o, moves) && k < |moves| && moves[k].state == Done && forall i | k < i < |moves| :: moves[i].state != Done
    requires moves[k].from == Candidate ==> moves[k].path in o.work
    ensures var after := moves[k := moves[k].(state := Reverted)];
            && IsPlan(o, after) && SamePlaces(after, moves)
            && DisplacedBy(after) == DisplacedBy(moves) - (if moves[k].from == Root then {moves[k].path} else {})
            && InstalledBy(after) == InstalledBy(moves) - (if moves[k].from == Candidate then {moves[k].path} else {})
  {
    var after := moves[k := moves[k].(state := Reverted)];
    RevertedIsPlan(o, moves, k);
    MarkDone(o, after, k);
    assert after[k := after[k].(state := Done)] == moves;
    DoneMoveIsInSet(o, after, k);
  }

  lemma RevertedIsPlan(o: Origin, moves: seq<ContentMove>, k: nat)
    requires IsPlan(o, moves) && k < |moves| && moves[k].state == Done && forall i | k < i < |moves| :: moves[i].state != Done
    requires moves[k].from == Candidate ==> moves[k].path in o.work
    ensures IsPlan(o, moves[k := moves[k].(state := Reverted)])
  {
    var after := moves[k := moves[k].(state := Reverted)];
    forall i | 0 <= i < |after|
      ensures IsMove(o, after[i])
    {
      assert IsMove(o, moves[i]);
    }
    forall j | 0 <= j < |after| && after[j].from == Candidate && after[j].path in o.live
      ensures exists i | 0 <= i < j :: after[i].path == after[j].path && after[i].from == Root
    {
      var i :| 0 <= i < j && moves[i].path == moves[j].path && moves[i].from == Root;
      assert after[i].path == after[j].path;
    }
  }
}
