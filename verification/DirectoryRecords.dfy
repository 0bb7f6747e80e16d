/** What the journal of a whole-directory activation is worth after a crash: together with the trees it tells
    which tree to put back, exactly when the candidate supplies nothing that could be mistaken for live data. */
module DirectoryRecords {
  import opened Collections
  import opened Trees
  import opened ReleaseTheory
  import opened ReleasePlan
  import opened ReleaseVolume
  import opened ReleasePlanning
  import opened DirectoryTheory

  // ---- Reading the record ----

  /** The candidate has reached the root; while activating the journal may not say so yet. */
  predicate CandidateGone(j: Journal, d: Disk) {
    [] !in d.candidate && (j.phase == Activating || j.candidateMoved)
  }

  /** The original has left the root; the journal may not say so yet, or may still say so. */
  predicate OriginalGone(j: Journal, d: Disk) {
    if j.phase == Activating && !CandidateGone(j, d) then [] !in d.root && IsDir(d.previous, [])
    else j.originalMoved && (CandidateGone(j, d) || [] !in d.root)
  }

  /** The persistent path has left the previous release, by the journal or by the look of it. */
  predicate SeemsCarried(j: Journal, d: Disk, v: Path) {
    && v !in d.previous
    && (v in j.moved ||
        (j.phase == Activating && !CandidateGone(j, d) && v in d.candidate && v != [] && IsDir(d.previous, Parent(v))))
  }

  /** The tree to put back after a crash, read off the journal and the trees. */
  function HomeOf(j: Journal, d: Disk): Tree {
    if j.phase in {Building, RolledBack} || (!CandidateGone(j, d) && !OriginalGone(j, d)) then d.root
    else if !OriginalGone(j, d) then map[]
    else
      Restored(d.previous, if CandidateGone(j, d) then d.root else d.candidate,
               set v | v in j.persistent && SeemsCarried(j, d, v))
  }

  // ---- What the record promises ----

  /** Nothing in the candidate could be mistaken for live data that was carried over, and nothing beside the
      root for a root that was moved aside. */
  ghost predicate Undoubted(live: Tree, d: Disk, persistent: seq<Path>) {
    && (forall v | v in persistent && v != [] && v in d.candidate && IsDir(live, Parent(v)) :: v in live)
    && ([] in live || !IsDir(d.previous, []))
  }

  /** How far the journal may be behind the trees while activating: by whatever has moved since. */
  ghost predicate BehindActivation(j: Journal, d: Disk, moved: seq<Path>, originalMoved: bool, candidateMoved: bool) {
    && (candidateMoved <==> [] !in d.candidate)
    && (forall v | v in j.moved :: v in moved)
    && (if candidateMoved then j.originalMoved == originalMoved && forall v | v in moved :: v in j.moved
        else (originalMoved ==> IsDir(d.previous, [])) && forall v | v in moved :: v in d.candidate)
  }

  /** And while rolling back: by whatever has moved back. */
  ghost predicate BehindRollback(j: Journal, d: Disk, moved: seq<Path>, originalMoved: bool, candidateMoved: bool) {
    && (forall v | v in moved :: v in j.moved)
    && (if candidateMoved then j.candidateMoved && j.originalMoved == originalMoved
        else (j.candidateMoved ==> [] in d.candidate) && (originalMoved ==> j.originalMoved)
             && (j.originalMoved && !originalMoved ==> [] in d.root))
    && (originalMoved ==> forall v | v in j.moved :: v in moved || v in d.previous)
  }

  /** The journal is behind what has moved by no more than can be made up for. */
  ghost predicate Telling(
    live: Tree, d: Disk, j: Journal, persistent: seq<Path>, moved: seq<Path>, originalMoved: bool, candidateMoved: bool)
  {
    && Whereabouts(live, d, moved, originalMoved, candidateMoved)
    && j.persistent == persistent && [] !in persistent && Antichain(Elements(persistent))
    && (forall v | v in moved :: v in persistent)
    && (match j.phase
        case Building => !originalMoved && !candidateMoved
        case RolledBack => !originalMoved && !candidateMoved
        case Activating =>
          && BehindActivation(j, d, moved, originalMoved, candidateMoved)
          && (!candidateMoved ==> Undoubted(live, d, persistent))
        case Restoring => BehindRollback(j, d, moved, originalMoved, candidateMoved)
        case Complete => BehindRollback(j, d, moved, originalMoved, candidateMoved))
  }

  lemma FlagsAreRead(
    live: Tree, d: Disk, j: Journal, persistent: seq<Path>, moved: seq<Path>, originalMoved: bool, candidateMoved: bool)
    requires Telling(live, d, j, persistent, moved, originalMoved, candidateMoved) && j.phase !in {Building, RolledBack}
    ensures CandidateGone(j, d) <==> candidateMoved
    ensures OriginalGone(j, d) <==> originalMoved
  {
  }

  lemma CarriedIsRead(
    live: Tree, d: Disk, j: Journal, persistent: seq<Path>, moved: seq<Path>, candidateMoved: bool, v: Path)
    requires Telling(live, d, j, persistent, moved, true, candidateMoved) && v in persistent
    requires CandidateGone(j, d) <==> candidateMoved
    ensures SeemsCarried(j, d, v) <==> v in moved
  {
    assert At(d.previous, v) == if Under(v, Elements(moved)) then None else At(live, v);
    assert At(d.previous, Parent(v)) == if Under(Parent(v), Elements(moved)) then None else At(live, Parent(v));
    assert v in Elements(persistent);
    forall w | w in Elements(moved) && w <= v
      ensures w == v
    {
      assert w in moved && w in Elements(persistent);
    }
    if v in moved {
      assert v in Elements(moved) && v <= v;
      assert forall w | w in Elements(moved) && w <= Parent(v) :: w <= v;
    }
  }

  /** Such a journal and the trees tell which tree to put back. */
  lemma TellingSettles(
    live: Tree, d: Disk, j: Journal, persistent: seq<Path>, moved: seq<Path>, originalMoved: bool, candidateMoved: bool)
    requires Telling(live, d, j, persistent, moved, originalMoved, candidateMoved)
    ensures HomeOf(j, d) == Restored(live, d.On(if candidateMoved then Root else Candidate), Elements(moved))
  {
    var current := d.On(if candidateMoved then Root else Candidate);
    if !originalMoved {
      assert moved == [];
      NothingToRestore(live, current);
      if j.phase !in {Building, RolledBack} { FlagsAreRead(live, d, j, persistent, moved, originalMoved, candidateMoved); }
    } else {
      FlagsAreRead(live, d, j, persistent, moved, originalMoved, candidateMoved);
      forall v | v in persistent
        ensures SeemsCarried(j, d, v) <==> v in moved
      {
        CarriedIsRead(live, d, j, persistent, moved, candidateMoved, v);
      }
      assert Elements(moved) == set v | v in j.persistent && SeemsCarried(j, d, v);
      forall q
        ensures At(Restored(d.previous, current, Elements(moved)), q) == At(Restored(live, current, Elements(moved)), q)
      {
        RestoredAt(d.previous, current, Elements(moved), q);
        RestoredAt(live, current, Elements(moved), q);
      }
      SameAtSameTree(Restored(d.previous, current, Elements(moved)), Restored(live, current, Elements(moved)));
    }
  }

  /** After every crash since the first `n` snapshots, the same tree would be put back. */
  ghost predicate LogTells(home: Tree, history: seq<Snapshot>, n: nat) {
    forall i | n <= i < |history| :: HomeOf(history[i].journal, history[i].disk) == home
  }

  lemma TellsMore(home: Tree, history: seq<Snapshot>, n: nat, s: Snapshot)
    requires LogTells(home, history, n) && HomeOf(s.journal, s.disk) == home
    ensures LogTells(home, history + [s], n) && Extends(history, history + [s])
  {
  }

  lemma TellsNothing(home: Tree, history: seq<Snapshot>)
    ensures LogTells(home, history, |history|) && Extends(history, history)
  {
  }

  lemma TellsJoin(home: Tree, a: seq<Snapshot>, b: seq<Snapshot>, n: nat)
    requires n <= |a| && Extends(a, b)
    ensures LogTells(home, a, n) && LogTells(home, b, |a|) ==> LogTells(home, b, n)
  {
    assert forall i | 0 <= i < |a| :: b[i] == a[i];
  }

  // ---- The steps of an activation ----

  /** The record says exactly what has moved. */
  predicate Exact(j: Journal, moved: seq<Path>, originalMoved: bool, candidateMoved: bool) {
    j.moved == moved && j.originalMoved == originalMoved && j.candidateMoved == candidateMoved
  }

  /** While nothing is lost, the tree to put back is the one that was live. */
  lemma LiveIsTold(
    live: Tree, d: Disk, j: Journal, persistent: seq<Path>, moved: seq<Path>, originalMoved: bool, candidateMoved: bool)
    requires Telling(live, d, j, persistent, moved, originalMoved, candidateMoved)
    requires SameInside(d.On(if candidateMoved then Root else Candidate), live, Elements(moved))
    ensures HomeOf(j, d) == live
  {
    TellingSettles(live, d, j, persistent, moved, originalMoved, candidateMoved);
    IntactIsHome(live, d.On(if candidateMoved then Root else Candidate), moved);
  }

  /** The journal catches up. */
  lemma CaughtUpTells(
    live: Tree, d: Disk, j: Journal, j': Journal, persistent: seq<Path>, moved: seq<Path>, originalMoved: bool, candidateMoved: bool)
    requires Telling(live, d, j, persistent, moved, originalMoved, candidateMoved) && j.phase == Activating
    requires j'.phase == Activating && j'.persistent == persistent && Exact(j', moved, originalMoved, candidateMoved)
    ensures Telling(live, d, j', persistent, moved, originalMoved, candidateMoved)
  {
  }

  lemma AsideTells(live: Tree, d: Disk, d': Disk, j: Journal, persistent: seq<Path>)
    requires Telling(live, d, j, persistent, [], false, false) && j.phase == Activating && IsDir(d.root, [])
    requires d' == d.(root := map[], previous := d.root)
    ensures Telling(live, d', j, persistent, [], true, false) && HomeOf(j, d') == live
  {
    assert SameInside(d'.candidate, live, Elements([]));
    LiveIsTold(live, d', j, persistent, [], true, false);
  }

  /** The candidate may change above and below the place of the next path. */
  lemma RoomTells(live: Tree, d: Disk, d': Disk, j: Journal, persistent: seq<Path>, moved: seq<Path>, v: Path)
    requires Telling(live, d, j, persistent, moved, true, false) && j.phase == Activating
    requires SameInside(d.candidate, live, Elements(moved)) && Fresh(v, moved) && v in persistent
    requires d'.Sound() && d'.root == d.root && d'.previous == d.previous
    requires forall q :: At(d'.candidate, q) == At(d.candidate, q) || (q < v && q !in d.candidate) || (v <= q && q !in d'.candidate)
    ensures Telling(live, d', j, persistent, moved, true, false) && HomeOf(j, d') == live
    ensures SameInside(d'.candidate, live, Elements(moved))
  {
    assert Whereabouts(live, d', moved, true, false);
    assert forall q :: At(d'.candidate, q) == At(d.candidate, q) || q <= v || v <= q;
    CarriedStays(live, d.candidate, d'.candidate, moved, v);
    assert [] in d.candidate && At(d'.candidate, []) == At(d.candidate, []);
    forall w | w in moved
      ensures w in d'.candidate
    {
      assert At(d'.candidate, w) == At(d.candidate, w);
    }
    forall w | w in persistent && w in d'.candidate
      ensures w in d.candidate
    {
      assert w in Elements(persistent) && v in Elements(persistent);
      assert w < v ==> w <= v;
      assert At(d'.candidate, w) == At(d.candidate, w) || w < v;
    }
    LiveIsTold(live, d', j, persistent, moved, true, false);
  }

  lemma CarriedTells(live: Tree, d: Disk, j: Journal, persistent: seq<Path>, moved: seq<Path>, v: Path)
    requires Telling(live, d, j, persistent, moved, true, false) && j.phase == Activating
    requires SameInside(d.candidate, live, Elements(moved)) && Fresh(v, moved) && v in persistent
    requires CanRename(d, Previous, Candidate, v)
    ensures Telling(live, Renamed(d, Previous, Candidate, v), j, persistent, moved + [v], true, false)
    ensures HomeOf(j, Renamed(d, Previous, Candidate, v)) == live
  {
    var d' := Renamed(d, Previous, Candidate, v);
    CarryOver(live, d, moved, v);
    CarriedMore(live, d, moved, v);
    RenameTransfers(d, Previous, Candidate, v);
    assert TransferredAt(d, d', Previous, Candidate, v, []);
    forall w | w in persistent && w in d'.candidate
      ensures w in d.candidate || w == v
    {
      assert w in Elements(persistent) && v in Elements(persistent);
      assert TransferredAt(d, d', Previous, Candidate, v, w);
    }
    forall w | w in moved + [v]
      ensures w in d'.candidate
    {
      assert TransferredAt(d, d', Previous, Candidate, v, w);
    }
    LiveIsTold(live, d', j, persistent, moved + [v], true, false);
  }

  lemma InstalledTells(live: Tree, d: Disk, d': Disk, j: Journal, persistent: seq<Path>, moved: seq<Path>, originalMoved: bool)
    requires Telling(live, d, j, persistent, moved, originalMoved, false) && j.phase == Activating
    requires Exact(j, moved, originalMoved, false) && d.root == map[] && [] in d.candidate
    requires SameInside(d.candidate, live, Elements(moved))
    requires d' == d.(root := d.candidate, candidate := map[])
    ensures Telling(live, d', j, persistent, moved, originalMoved, true) && HomeOf(j, d') == live
  {
    LiveIsTold(live, d', j, persistent, moved, originalMoved, true);
  }

  // ---- The steps of a rollback ----

  /** Whatever the journal said before, a new record of the rollback is exact. */
  lemma RestoringTells(
    live: Tree, d: Disk, j: Journal, j': Journal, persistent: seq<Path>, moved: seq<Path>, originalMoved: bool, candidateMoved: bool)
    requires Telling(live, d, j, persistent, moved, originalMoved, candidateMoved)
    requires j'.phase == Restoring && j'.persistent == persistent && Exact(j', moved, originalMoved, candidateMoved)
    ensures Telling(live, d, j', persistent, moved, originalMoved, candidateMoved)
  {
  }

  lemma ReturnedIsBehind(d: Disk, d': Disk, j: Journal, moved: seq<Path>, candidateMoved: bool, side: Side, v: Path)
    requires BehindRollback(j, d, moved, true, candidateMoved) && moved != [] && v == moved[|moved| - 1] && v != []
    requires side == (if candidateMoved then Root else Candidate) && forall q :: TransferredAt(d, d', side, Previous, v, q)
    requires v in d'.previous && v !in d.previous && WellFormed(d.previous)
    ensures BehindRollback(j, d', moved[..|moved| - 1], true, candidateMoved)
  {
    var rest := moved[..|moved| - 1];
    assert moved == rest + [v];
    assert TransferredAt(d, d', side, Previous, v, []);
    forall w | w in j.moved
      ensures w in rest || w in d'.previous
    {
      assert TransferredAt(d, d', side, Previous, v, w);
      if w in d.previous && v <= w { AncestorsPresent(d.previous, v, w); }
      assert w in moved ==> w in rest || w == v;
    }
  }

  lemma ReturnedTells(
    live: Tree, d: Disk, j: Journal, persistent: seq<Path>, moved: seq<Path>, originalMoved: bool, candidateMoved: bool)
    requires Telling(live, d, j, persistent, moved, originalMoved, candidateMoved) && j.phase == Restoring && moved != []
    requires moved[|moved| - 1] in d.On(if candidateMoved then Root else Candidate)
    ensures var side := if candidateMoved then Root else Candidate; var v := moved[|moved| - 1];
            Telling(Restored(live, d.On(side), {v}), Renamed(d, side, Previous, v), j, persistent, moved[..|moved| - 1],
                    originalMoved, candidateMoved)
  {
    hide Whereabouts, BehindRollback, Renamed, Restored;
    var side := if candidateMoved then Root else Candidate;
    var v := moved[|moved| - 1];
    OldPlaceStands(live, d, moved, originalMoved, candidateMoved);
    CarryBack(live, d, moved, originalMoved, candidateMoved);
    WhereaboutsAreSound(live, d, moved, originalMoved, candidateMoved);
    RenameTransfers(d, side, Previous, v);
    assert TransferredAt(d, Renamed(d, side, Previous, v), side, Previous, v, v);
    ReturnedIsBehind(d, Renamed(d, side, Previous, v), j, moved, candidateMoved, side, v);
  }

  lemma WhereaboutsAreSound(live: Tree, d: Disk, moved: seq<Path>, originalMoved: bool, candidateMoved: bool)
    requires Whereabouts(live, d, moved, originalMoved, candidateMoved)
    ensures d.Sound()
  {
  }

  lemma CandidateBackTells(live: Tree, d: Disk, d': Disk, j: Journal, persistent: seq<Path>, originalMoved: bool)
    requires Telling(live, d, j, persistent, [], originalMoved, true) && j.phase == Restoring
    requires [] in d.root && d' == d.(root := map[], candidate := d.root)
    ensures Telling(live, d', j, persistent, [], originalMoved, false)
  {
  }

  lemma OriginalBackTells(live: Tree, d: Disk, d': Disk, j: Journal, persistent: seq<Path>)
    requires Telling(live, d, j, persistent, [], true, false) && j.phase == Restoring
    requires d' == d.(root := d.previous, previous := map[])
    ensures Telling(live, d', j, persistent, [], false, false)
  {
    PreviousIsLive(live, d, false);
  }

  lemma RolledBackTells(live: Tree, d: Disk, j: Journal, j': Journal, persistent: seq<Path>)
    requires Telling(live, d, j, persistent, [], false, false) && j'.phase == RolledBack && j'.persistent == persistent
    ensures Telling(live, d, j', persistent, [], false, false)
  {
  }

  lemma RunTells(
    live: Tree, d: Disk, j: Journal, persistent: seq<Path>, moved: seq<Path>, originalMoved: bool, next: Tree)
    requires Telling(live, d, j, persistent, moved, originalMoved, true) && WellFormed(next)
    ensures Telling(live, d.(root := next), j, persistent, moved, originalMoved, true)
  {
  }

  // ---- What is recorded on the way ----

  /** The snapshot is among those taken since the first `n`. */
  predicate Logged(history: seq<Snapshot>, n: nat, s: Snapshot) {
    n <= |history| && s in history[n..]
  }

  lemma StillLogged(a: seq<Snapshot>, b: seq<Snapshot>, n: nat, s: Snapshot)
    requires Logged(a, n, s) && Extends(a, b)
    ensures Logged(b, n, s)
  {
    var i :| 0 <= i < |a[n..]| && a[n..][i] == s;
    assert b[..|a|][n + i] == s;
    assert b[n..][i] == s;
  }

  lemma LoggedSooner(history: seq<Snapshot>, m: nat, n: nat, s: Snapshot)
    requires Logged(history, n, s) && m <= n
    ensures Logged(history, m, s)
  {
    assert history[n..] == history[m..][n - m..];
  }

  lemma LastIsLogged(history: seq<Snapshot>, s: Snapshot)
    ensures Logged(history + [s], |history|, s)
  {
    assert (history + [s])[|history|..] == [s];
  }

  function Prefixes(p: Path): set<Path> {
    set i | 0 <= i <= |p| :: p[..i]
  }

  /** The tree with the directories on the way to `p` made. */
  function WithWay(t: Tree, p: Path): Tree {
    t + map q | q in Prefixes(p) && q !in t :: Dir
  }

  lemma WithWayAt(t: Tree, p: Path, q: Path)
    ensures At(WithWay(t, p), q) == if q <= p && q !in t then Some(Dir) else At(t, q)
  {
    if q <= p { assert q == p[..|q|]; }
  }

  lemma WayIsMade(a: Tree, b: Tree, p: Path)
    requires WellFormed(b) && IsDir(b, p)
    requires forall q :: At(b, q) == At(a, q) || (q <= p && q !in a && IsDir(b, q))
    ensures b == WithWay(a, p)
  {
    forall q
      ensures At(b, q) == At(WithWay(a, p), q)
    {
      WithWayAt(a, p, q);
      if q <= p { AncestorsPresent(b, q, p); }
    }
    SameAtSameTree(b, WithWay(a, p));
  }

  /** The candidate's own entry at `v` is put aside. */
  function RoomMade(d: Disk, v: Path): Disk
    requires v != []
  {
    if v in d.candidate then Renamed(d.(local := WithWay(d.local, Parent(v))), Candidate, Local, v) else d
  }

  /** The live data at `v` is brought over. */
  function BroughtOver(d: Disk, v: Path): Disk
    requires v != []
  {
    Renamed(d.(candidate := WithWay(d.candidate, Parent(v))), Previous, Candidate, v)
  }

  function Carried(d: Disk, v: Path): Disk {
    if v == [] || v !in d.previous then d else BroughtOver(RoomMade(d, v), v)
  }

  /** The trees when it is the turn of the `i`-th persistent path. */
  function Turn(d: Disk, persistent: seq<Path>, i: nat): Disk
    requires i <= |persistent|
  {
    if i == 0 then d.(root := map[], previous := d.root) else Carried(Turn(d, persistent, i - 1), persistent[i - 1])
  }

  /** The paths that exist live, in order. */
  function LiveOf(live: Tree, paths: seq<Path>): seq<Path> {
    if paths == [] then []
    else LiveOf(live, paths[..|paths| - 1]) + if paths[|paths| - 1] in live then [paths[|paths| - 1]] else []
  }

  /** The crash when it is the turn of the `i`-th persistent path, and the one before its arrival is recorded. */
  ghost predicate TurnLogged(history: seq<Snapshot>, n: nat, j: Journal, d: Disk, persistent: seq<Path>, i: nat)
    requires i < |persistent|
  {
    && Logged(history, n, Snapshot(j.(moved := LiveOf(d.root, persistent[..i])), Turn(d, persistent, i)))
    && Logged(history, n, Snapshot(j.(moved := LiveOf(d.root, persistent[..i])), Turn(d, persistent, i + 1)))
  }

  lemma LiveOfMore(live: Tree, paths: seq<Path>, i: nat)
    requires i < |paths|
    ensures LiveOf(live, paths[..i + 1]) == LiveOf(live, paths[..i]) + if paths[i] in live then [paths[i]] else []
  {
    assert paths[..i + 1][..i] == paths[..i];
  }

  lemma TurnStaysLogged(
    a: seq<Snapshot>, b: seq<Snapshot>, n: nat, j: Journal, d: Disk, persistent: seq<Path>, i: nat)
    requires i < |persistent| && TurnLogged(a, n, j, d, persistent, i) && Extends(a, b)
    ensures TurnLogged(b, n, j, d, persistent, i)
  {
    StillLogged(a, b, n, Snapshot(j.(moved := LiveOf(d.root, persistent[..i])), Turn(d, persistent, i)));
    StillLogged(a, b, n, Snapshot(j.(moved := LiveOf(d.root, persistent[..i])), Turn(d, persistent, i + 1)));
  }

  lemma TurnLoggedSooner(
    history: seq<Snapshot>, m: nat, n: nat, j: Journal, d: Disk, persistent: seq<Path>, i: nat)
    requires i < |persistent| && TurnLogged(history, n, j, d, persistent, i) && m <= n
    ensures TurnLogged(history, m, j, d, persistent, i)
  {
    LoggedSooner(history, m, n, Snapshot(j.(moved := LiveOf(d.root, persistent[..i])), Turn(d, persistent, i)));
    LoggedSooner(history, m, n, Snapshot(j.(moved := LiveOf(d.root, persistent[..i])), Turn(d, persistent, i + 1)));
  }

  /** Every turn of the activation is logged. */
  ghost predicate AllTurnsLogged(history: seq<Snapshot>, n: nat, j: Journal, d: Disk, persistent: seq<Path>, upTo: nat) {
    upTo <= |persistent| && forall i | 0 <= i < upTo :: TurnLogged(history, n, j, d, persistent, i)
  }

  lemma OneMoreTurn(
    a: seq<Snapshot>, b: seq<Snapshot>, n: nat, j: Journal, d: Disk, persistent: seq<Path>, i: nat)
    requires i < |persistent| && AllTurnsLogged(a, n, j, d, persistent, i) && Extends(a, b)
    requires TurnLogged(b, n, j, d, persistent, i)
    ensures AllTurnsLogged(b, n, j, d, persistent, i + 1)
  {
    forall k | 0 <= k < i
      ensures TurnLogged(b, n, j, d, persistent, k)
    {
      TurnStaysLogged(a, b, n, j, d, persistent, k);
    }
  }

  lemma TurnsStayLogged(
    a: seq<Snapshot>, b: seq<Snapshot>, m: nat, n: nat, j: Journal, d: Disk, persistent: seq<Path>, upTo: nat)
    requires AllTurnsLogged(a, n, j, d, persistent, upTo) && Extends(a, b) && m <= n
    ensures AllTurnsLogged(b, m, j, d, persistent, upTo)
  {
    forall i | 0 <= i < upTo
      ensures TurnLogged(b, m, j, d, persistent, i)
    {
      TurnStaysLogged(a, b, n, j, d, persistent, i);
      TurnLoggedSooner(b, m, n, j, d, persistent, i);
    }
  }

  lemma NothingMovedTells(d: Disk, j: Journal, persistent: seq<Path>)
    requires d.Sound() && [] !in persistent && Antichain(Elements(persistent))
    requires j.persistent == persistent && Exact(j, [], false, false)
    requires j.phase == Building || (j.phase == Activating && [] in d.candidate && Undoubted(d.root, d, persistent))
    ensures Telling(d.root, d, j, persistent, [], false, false) && HomeOf(j, d) == d.root
  {
    TellingSettles(d.root, d, j, persistent, [], false, false);
    NothingToRestore(d.root, d.candidate);
  }

  lemma NextTurn(d: Disk, persistent: seq<Path>, i: nat)
    requires i < |persistent|
    ensures Turn(d, persistent, i + 1) == Carried(Turn(d, persistent, i), persistent[i])
  {
  }

  lemma NoTurnYet(history: seq<Snapshot>, n: nat, j: Journal, d: Disk, persistent: seq<Path>)
    ensures AllTurnsLogged(history, n, j, d, persistent, 0) && LiveOf(d.root, persistent[..0]) == []
    ensures Turn(d, persistent, 0) == d.(root := map[], previous := d.root)
  {
  }

  /** The trees once the original has been moved aside. */
  function Aside(d: Disk): Disk {
    d.(root := map[], previous := d.root)
  }

  /** An activation passes through these states, whatever happens later: the start, the original moved aside but
      not yet recorded, and, when it succeeds, every persistent path before and after its arrival. */
  ghost predicate ActivationLogged(
    history: seq<Snapshot>, n: nat, j: Journal, d: Disk, persistent: seq<Path>, faulty: bool, ok: bool)
  {
    && (!faulty && Startable(d, persistent) ==> Logged(history, n, Snapshot(j, d)))
    && (!faulty && Startable(d, persistent) && [] in d.root && [] !in d.previous ==> Logged(history, n, Snapshot(j, Aside(d))))
    && (ok && [] in d.root ==> AllTurnsLogged(history, n, j.(originalMoved := true), d, persistent, |persistent|))
  }

  lemma ActivationIsLogged(
    history: seq<Snapshot>, n: nat, m: nat, j: Journal, d: Disk, persistent: seq<Path>, faulty: bool, ok: bool)
    requires n <= m && Logged(history, n, Snapshot(j, d))
    requires !faulty && [] in d.root && [] !in d.previous ==> Logged(history, m, Snapshot(j, Aside(d)))
    requires ok && [] in d.root ==> AllTurnsLogged(history, m, j.(originalMoved := true), d, persistent, |persistent|)
    ensures ActivationLogged(history, n, j, d, persistent, faulty, ok)
  {
    if Logged(history, m, Snapshot(j, Aside(d))) { LoggedSooner(history, n, m, Snapshot(j, Aside(d))); }
    if AllTurnsLogged(history, m, j.(originalMoved := true), d, persistent, |persistent|) {
      assert history[..|history|] == history;
      TurnsStayLogged(history, history, n, m, j.(originalMoved := true), d, persistent, |persistent|);
    }
  }

  lemma StartTells(home: Tree, d: Disk, j: Journal, persistent: seq<Path>, a: seq<Snapshot>, b: seq<Snapshot>)
    requires d.Sound() && Independent(persistent) && home == d.root
    requires j.persistent == persistent && Exact(j, [], false, false)
    requires j.phase == Building || (j.phase == Activating && [] in d.candidate && Undoubted(d.root, d, persistent))
    requires b == a + [Snapshot(j, d)] || b == a
    ensures Telling(home, d, j, persistent, [], false, false)
    ensures LogTells(home, b, |a|) && Extends(a, b)
  {
    assert Elements(persistent) == set p | p in persistent;
    NothingMovedTells(d, j, persistent);
    TellsNothing(home, a);
    TellsMore(home, a, |a|, Snapshot(j, d));
  }
}
