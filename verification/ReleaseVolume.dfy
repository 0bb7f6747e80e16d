/** The application volume: the trees of one release and its journal, changed one atomic step at a
    time. Every step can fail without effect, other processes may write retained data between any two
    steps, and a ghost record keeps what a crash after each step would leave behind. */
module ReleaseVolume {
  import opened Collections
  import opened Trees
  import opened ReleaseTheory
  import opened ReleasePlan

  /** `b` is `a` with some missing directories on the way to `p` created on one side, and with
      whatever other processes have written to retained data. */
  ghost predicate GrownOn(a: Disk, b: Disk, side: Side, p: Path, kept: set<Path>) {
    && b.Sound()
    && forall s, q :: GrownAt(a, b, s, q, side, p, kept)
  }

  predicate GrownAt(a: Disk, b: Disk, s: Side, q: Path, side: Side, p: Path, kept: set<Path>) {
    || (s == Root && Under(q, kept))
    || At(a.On(s), q) == At(b.On(s), q)
    || (s == side && q <= p && q !in a.On(s) && IsDir(b.On(s), q))
  }

  lemma DriftIsGrowth(a: Disk, b: Disk, side: Side, p: Path, kept: set<Path>)
    requires a.Sound() && Drifted(a, b, kept)
    ensures GrownOn(a, b, side, p, kept)
  {
    forall s, q
      ensures GrownAt(a, b, s, q, side, p, kept)
    {
      if s == Root && !Under(q, kept) { SameOutsideAt(a.root, b.root, kept, q); }
    }
  }

  lemma DriftAddsOnlyKept(a: Disk, b: Disk, side: Side, kept: set<Path>)
    requires Drifted(a, b, kept)
    ensures forall q | q in b.On(side) :: q in a.On(side) || (side == Root && Under(q, kept))
  {
    forall q | q in b.On(side)
      ensures q in a.On(side) || (side == Root && Under(q, kept))
    {
      if side == Root && !Under(q, kept) { SameOutsideAt(a.root, b.root, kept, q); }
    }
  }

  /** Writes of retained data leave the room for anything else as it is. */
  lemma DriftKeepsRoom(a: Disk, b: Disk, kept: set<Path>, p: Path)
    requires Drifted(a, b, kept) && !Under(p, kept)
    ensures At(b.root, p) == At(a.root, p) && (Vacant(b.root, p) <==> Vacant(a.root, p))
  {
    SameOutsideAt(a.root, b.root, kept, p);
    if p != [] {
      UnderParent(p, kept);
      SameOutsideAt(a.root, b.root, kept, Parent(p));
    }
  }

  lemma GrowthComposes(a: Disk, b: Disk, c: Disk, side: Side, p: Path, kept: set<Path>)
    requires GrownOn(a, b, side, p, kept) && GrownOn(b, c, side, p, kept)
    ensures GrownOn(a, c, side, p, kept)
  {
    forall s, q
      ensures GrownAt(a, c, s, q, side, p, kept)
    {
      assert GrownAt(a, b, s, q, side, p, kept);
      assert GrownAt(b, c, s, q, side, p, kept);
    }
  }

  /** Growth leaves the sides it does not concern as they are. */
  lemma GrowthElsewhere(a: Disk, b: Disk, side: Side, p: Path, kept: set<Path>)
    requires GrownOn(a, b, side, p, kept)
    ensures forall s | s != side && s != Root :: a.On(s) == b.On(s)
    ensures side != Root ==> SameOutside(a.root, b.root, kept)
  {
    forall s | s != side && s != Root
      ensures a.On(s) == b.On(s)
    {
      forall q ensures At(a.On(s), q) == At(b.On(s), q) {
        assert GrownAt(a, b, s, q, side, p, kept);
      }
      SameAtSameTree(a.On(s), b.On(s));
    }
    if side != Root {
      forall q | q in a.root.Keys + b.root.Keys
        ensures Under(q, kept) || At(a.root, q) == At(b.root, q)
      {
        assert GrownAt(a, b, Root, q, side, p, kept);
      }
    }
  }

  lemma NothingToGrowAt(a: Disk, b: Disk, s: Side, q: Path, side: Side, p: Path, kept: set<Path>)
    requires a.Sound() && GrownOn(a, b, side, p, kept) && p in a.On(side)
    requires s != Root || !Under(q, kept)
    ensures At(a.On(s), q) == At(b.On(s), q)
  {
    assert GrownAt(a, b, s, q, side, p, kept);
    if s == side && q <= p { AncestorsPresent(a.On(s), q, p); }
  }

  /** Where every directory on the way exists already, creating them changes nothing. */
  lemma NothingToGrow(a: Disk, b: Disk, side: Side, p: Path, kept: set<Path>)
    requires a.Sound() && GrownOn(a, b, side, p, kept) && p in a.On(side)
    ensures Drifted(a, b, kept)
  {
    forall s | s != Root
      ensures a.On(s) == b.On(s)
    {
      forall q ensures At(a.On(s), q) == At(b.On(s), q) { NothingToGrowAt(a, b, s, q, side, p, kept); }
      SameAtSameTree(a.On(s), b.On(s));
    }
    assert a.On(Candidate) == b.On(Candidate) && a.On(Previous) == b.On(Previous) && a.On(Local) == b.On(Local);
    forall q | q in a.root.Keys + b.root.Keys
      ensures Under(q, kept) || At(a.root, q) == At(b.root, q)
    {
      if !Under(q, kept) { NothingToGrowAt(a, b, Root, q, side, p, kept); }
    }
  }

  /** Every snapshot after the first `n` shows the journal `j` and a disk grown out of `start`. */
  ghost predicate GrowthLogged(start: Disk, j: Journal, history: seq<Snapshot>, n: nat, side: Side, p: Path, kept: set<Path>) {
    forall i | n <= i < |history| :: history[i].journal == j && GrownOn(start, history[i].disk, side, p, kept)
  }

  lemma GrowthLogGrows(start: Disk, j: Journal, a: seq<Snapshot>, b: seq<Snapshot>, n: nat, side: Side, p: Path, kept: set<Path>)
    requires n <= |a| && Extends(a, b)
    requires GrowthLogged(start, j, a, n, side, p, kept) && GrowthLogged(start, j, b, |a|, side, p, kept)
    ensures GrowthLogged(start, j, b, n, side, p, kept)
  {
    assert forall i | 0 <= i < |a| :: b[i] == a[i];
  }

  /** `b` continues the record `a`. */
  predicate Extends(a: seq<Snapshot>, b: seq<Snapshot>) {
    |a| <= |b| && a == b[..|a|]
  }

  datatype Removal = Removed | Missing | NotEmpty | Refused

  /** A tree whose retained data has been replaced as a whole. */
  function Overwritten(root: Tree, next: Tree, kept: set<Path>): Tree {
    (map q | q in root && !Under(q, kept) :: root[q]) + map q | q in next && Under(q, kept) :: next[q]
  }

  lemma OverwrittenAt(root: Tree, next: Tree, kept: set<Path>, q: Path)
    ensures At(Overwritten(root, next, kept), q) == At(if Under(q, kept) then next else root, q)
  {
  }

  /** The retained data after `n` writes by other processes: as it was found after the first `since` of them,
      or as it was written last. */
  function RetainedAfter(found: Tree, since: nat, others: seq<Tree>, n: nat): Tree
    requires since <= n <= |others|
  {
    if n == since then found else others[n - 1]
  }

  /** The retained data of the tree is that of some moment. */
  ghost predicate Remembered(root: Tree, found: Tree, since: nat, others: seq<Tree>, now: nat, kept: set<Path>)
    requires since <= now <= |others|
  {
    exists n | since <= n <= now :: SameInside(root, RetainedAfter(found, since, others, n), kept)
  }

  /** Every crash after the first `start` snapshots would have left the retained data of some moment. */
  ghost predicate LogRemembers(
    history: seq<Snapshot>, start: nat, found: Tree, since: nat, others: seq<Tree>, now: nat, kept: set<Path>)
    requires since <= now <= |others|
  {
    forall i | start <= i < |history| :: Remembered(history[i].disk.root, found, since, others, now, kept)
  }

  lemma LaterRemembers(
    history: seq<Snapshot>, start: nat, found: Tree, since: nat, others: seq<Tree>, now: nat, later: nat, kept: set<Path>)
    requires since <= now <= later <= |others| && LogRemembers(history, start, found, since, others, now, kept)
    ensures LogRemembers(history, start, found, since, others, later, kept)
  {
    forall i | start <= i < |history|
      ensures Remembered(history[i].disk.root, found, since, others, later, kept)
    {
      assert Remembered(history[i].disk.root, found, since, others, now, kept);
    }
  }

  lemma OneMoreRemembered(
    history: seq<Snapshot>, start: nat, found: Tree, since: nat, others: seq<Tree>, now: nat, kept: set<Path>, s: Snapshot)
    requires since <= now <= |others| && LogRemembers(history, start, found, since, others, now, kept)
    requires SameInside(s.disk.root, RetainedAfter(found, since, others, now), kept)
    ensures LogRemembers(history + [s], start, found, since, others, now, kept)
  {
    forall i | start <= i < |history + [s]|
      ensures Remembered((history + [s])[i].disk.root, found, since, others, now, kept)
    {
      if i < |history| { assert Remembered(history[i].disk.root, found, since, others, now, kept); }
    }
  }

  /** Other processes write only where a release has retained data for them. */
  predicate Later(before: nat, now: nat, kept: set<Path>) {
    before <= now && (kept == {} ==> now == before)
  }

  class Volume {
    var disk: Disk
    var journal: Journal
    /** Whether steps may fail for reasons outside the model, such as a locked file. */
    var faulty: bool
    /** Retained paths: other processes write at and below them. */
    var kept: set<Path>
    /** What other processes leave there, one tree for each of their writes, whatever they are. */
    const others: seq<Tree>
    /** How many of these writes have been made. */
    var now: nat
    /** The tree whose retained data other processes found after the first `since` writes. */
    ghost var shared: Tree
    ghost var since: nat
    ghost var history: seq<Snapshot>
    /** The snapshots taken since then start here. */
    ghost var logged: nat

    /** The retained data at this moment. */
    ghost function Retained(): Tree
      requires since <= now <= |others|
      reads this`since, this`shared, this`now
    {
      RetainedAfter(shared, since, others, now)
    }

    /** The retained data on disk is that of the present moment, and every crash since it was found would
        have left that of some moment. */
    ghost predicate Valid()
      reads this
    {
      && disk.Sound() && since <= now <= |others| && logged <= |history|
      && SameInside(disk.root, Retained(), kept)
      && LogRemembers(history, logged, shared, since, others, now, kept)
    }

    /** Other processes write retained data, once there is any. */
    method Meanwhile()
      requires Valid()
      modifies this`disk, this`now
      ensures Valid() && Drifted(old(disk), disk, kept) && Later(old(now), now, kept)
    {
      var next: nat := *;
      if kept != {} && now < next <= |others| && WellFormed(Overwritten(disk.root, others[next - 1], kept)) {
        ghost var before := disk;
        disk, now := disk.(root := Overwritten(disk.root, others[next - 1], kept)), next;
        forall q
          ensures At(disk.root, q) == At(if Under(q, kept) then others[next - 1] else before.root, q)
        {
          OverwrittenAt(before.root, others[next - 1], kept, q);
        }
        LaterRemembers(history, logged, shared, since, others, old(now), now, kept);
      }
    }

    /** From now on other processes write at and below these paths. */
    method Share(paths: set<Path>)
      requires Valid()
      modifies this`kept, this`shared, this`since, this`logged
      ensures Valid() && kept == paths && shared == disk.root && since == now && logged == |history|
    {
      kept := paths;
      shared, since, logged := disk.root, now, |history|;
    }

    /** The whole root is written anew. */
    method Overwrite(next: Tree)
      requires Valid() && WellFormed(next)
      modifies this`disk, this`shared, this`since, this`logged
      ensures Valid() && disk == old(disk).(root := next) && shared == next && since == now && logged == |history|
    {
      disk := disk.(root := next);
      shared, since, logged := next, now, |history|;
    }

    /** What a crash would leave now. */
    ghost method Log()
      requires Valid()
      modifies this`history
      ensures Valid() && history == old(history) + [Snapshot(journal, disk)]
    {
      OneMoreRemembered(history, logged, shared, since, others, now, kept, Snapshot(journal, disk));
      history := history + [Snapshot(journal, disk)];
    }

    /** The information the operating system has about one path. A path below a link may lead to
        anything outside the tree. */
    method Lookup(side: Side, p: Path) returns (ok: bool, found: Option<Entry>)
      ensures !faulty ==> ok
      ensures ok && !ThroughLink(disk.On(side), p) ==> found == At(disk.On(side), p)
    {
      found := At(disk.On(side), p);
      if ThroughLink(disk.On(side), p) { found := *; }
      ok := true;
      if faulty { ok := *; }
    }

    /** The journal is written beside release.json, flushed, and renamed over it. */
    method WriteJournal(next: Journal) returns (ok: bool)
      requires Valid()
      modifies this`disk, this`now, this`journal, this`history
      ensures Later(old(now), now, kept)
      ensures Valid() && Drifted(old(disk), disk, kept)
      ensures journal == if ok then next else old(journal)
      ensures history == old(history) + [Snapshot(journal, disk)]
      ensures !faulty ==> ok
    {
      Meanwhile();
      ok := true;
      if faulty { ok := *; }
      if ok { journal := next; }
      Log();
    }

    /** An atomic rename. It is never asked to replace an existing entry nor to take retained data
        along; it fails without effect when the source or the destination's directory is missing. */
    method Rename(from: Side, to: Side, p: Path) returns (ok: bool, ghost mid: Disk)
      requires Valid() && from != to && p !in disk.On(to)
      requires !Under(p, kept) && !Above(p, kept)
      modifies this`disk, this`now, this`history
      ensures Later(old(now), now, kept)
      ensures Valid() && Drifted(old(disk), mid, kept)
      ensures ok ==> CanRename(mid, from, to, p)
      ensures disk == if ok then Renamed(mid, from, to, p) else mid
      ensures history == old(history) + [Snapshot(journal, disk)]
      ensures !CanRename(old(disk), from, to, p) ==> !ok
      ensures !faulty && CanRename(old(disk), from, to, p) ==> ok
    {
      hide LogRemembers, SameInside, Renamed;
      Meanwhile();
      mid := disk;
      DriftKeepsRoom(old(disk), disk, kept, p);
      ok := CanRename(disk, from, to, p);
      if ok && faulty { ok := *; }
      if ok {
        RenameMovesSubtree(disk, from, to, p);
        disk := Renamed(disk, from, to, p);
        RenameKeepsInside(mid, from, to, p, kept, Retained());
      }
      Log();
    }

    /** Creates one directory; fails without effect when something is there or the parent is missing. */
    method MakeDirectory(side: Side, p: Path) returns (ok: bool)
      requires Valid() && !Under(p, kept)
      modifies this`disk, this`now, this`history
      ensures Later(old(now), now, kept)
      ensures Valid() && GrownOn(old(disk), disk, side, p, kept)
      ensures history == old(history) + [Snapshot(journal, disk)]
      ensures ok ==> p !in old(disk).On(side) && IsDir(disk.On(side), p)
      ensures ok && p != [] ==> IsDir(disk.On(side), Parent(p))
      ensures forall q | q in disk.On(side) :: q in old(disk).On(side) || q == p || (side == Root && Under(q, kept))
      ensures !ok ==> Drifted(old(disk), disk, kept)
      ensures !faulty && Vacant(old(disk).On(side), p) ==> ok
    {
      hide LogRemembers, SameInside;
      Meanwhile();
      DriftKeepsRoom(old(disk), disk, kept, p);
      ok := Vacant(disk.On(side), p);
      if ok && faulty { ok := *; }
      DriftAddsOnlyKept(old(disk), disk, side, kept);
      DriftIsGrowth(old(disk), disk, side, p, kept);
      if ok {
        ghost var mid := disk;
        NewDirectoryIsGrowth(mid, side, p, kept);
        disk := disk.With(side, disk.On(side)[p := Dir]);
        GrowthComposes(old(disk), mid, disk, side, p, kept);
        NewDirectoryIsNotKept(mid, disk, side, p, kept);
        InsideStays(mid.root, disk.root, Retained(), kept);
      }
      Log();
    }

    method EnsureDirectory(side: Side, p: Path) returns (ok: bool)
      requires Valid() && !Under(p, kept)
      modifies this`disk, this`now, this`history
      ensures Later(old(now), now, kept)
      ensures Valid() && GrownOn(old(disk), disk, side, p, kept)
      ensures Extends(old(history), history) && GrowthLogged(old(disk), journal, history, |old(history)|, side, p, kept)
      ensures ok ==> IsDir(disk.On(side), p)
      ensures !faulty && (Vacant(old(disk).On(side), p) || IsDir(old(disk).On(side), p)) ==> ok
    {
      if p in disk.On(side) {
        ok := disk.On(side)[p] == Dir;
        assert Drifted(disk, disk, kept);
        DriftIsGrowth(disk, disk, side, p, kept);
      } else {
        ok := MakeDirectory(side, p);
      }
    }

    /** Creates the missing directories on the way to `p` and `p` itself, one at a time. */
    method MakeDirectories(side: Side, p: Path) returns (ok: bool)
      requires Valid() && !Under(p, kept)
      modifies this`disk, this`now, this`history
      ensures Later(old(now), now, kept)
      ensures Valid() && GrownOn(old(disk), disk, side, p, kept)
      ensures Extends(old(history), history) && GrowthLogged(old(disk), journal, history, |old(history)|, side, p, kept)
      ensures ok ==> IsDir(disk.On(side), p)
      ensures !faulty && ClearWay(old(disk).On(side), p) ==> ok
    {
      ghost var start, n := disk, |history|;
      ghost var clear := ClearWay(start.On(side), p);
      Meanwhile();
      DriftIsGrowth(start, disk, side, p, kept);
      ok := true;
      var i := 0;
      while i <= |p| && ok
        invariant 0 <= i <= |p| + 1
        invariant Valid() && GrownOn(start, disk, side, p, kept) && Later(old(now), now, kept)
        invariant Extends(old(history), history) && GrowthLogged(start, journal, history, n, side, p, kept)
        invariant ok && i > 0 ==> IsDir(disk.On(side), p[..i - 1])
        invariant !faulty && clear ==> ok
        decreases |p| - i, ok
      {
        ghost var log := history;
        ok := MakeStep(side, p, i, start);
        GrowthLogGrows(start, journal, log, history, n, side, p, kept);
        i := i + 1;
      }
      assert p[..|p|] == p;
    }

    method MakeStep(side: Side, p: Path, i: nat, ghost start: Disk) returns (ok: bool)
      requires i <= |p| && Valid() && !Under(p, kept) && GrownOn(start, disk, side, p, kept)
      requires i > 0 ==> IsDir(disk.On(side), p[..i - 1])
      modifies this`disk, this`now, this`history
      ensures Later(old(now), now, kept)
      ensures Valid() && GrownOn(start, disk, side, p, kept)
      ensures Extends(old(history), history) && GrowthLogged(start, journal, history, |old(history)|, side, p, kept)
      ensures ok ==> IsDir(disk.On(side), p[..i])
      ensures !faulty && (p[..i] in start.On(side) ==> start.On(side)[p[..i]] == Dir) ==> ok
    {
      var step := p[..i];
      ghost var before := disk;
      assert !Under(step, kept) by { assert forall r | r in kept && r <= step :: r <= p; }
      assert GrownAt(start, disk, side, step, side, p, kept);
      assert i > 0 ==> Parent(step) == p[..i - 1];
      ok := EnsureDirectory(side, step);
      forall k | |old(history)| <= k < |history|
        ensures GrownOn(start, history[k].disk, side, p, kept)
      {
        GrowthTowards(before, history[k].disk, side, step, p, kept);
        GrowthComposes(start, before, history[k].disk, side, p, kept);
      }
      GrowthTowards(before, disk, side, step, p, kept);
      GrowthComposes(start, before, disk, side, p, kept);
    }

    /** Removes one directory of the root if it is empty. */
    method RemoveDirectory(p: Path) returns (result: Removal, ghost mid: Disk)
      requires Valid() && !Under(p, kept)
      modifies this`disk, this`now, this`history
      ensures Later(old(now), now, kept)
      ensures Valid() && Drifted(old(disk), mid, kept)
      ensures history == old(history) + [Snapshot(journal, disk)]
      ensures disk == if result == Removed then mid.(root := mid.root - {p}) else mid
      ensures result == Removed ==> IsDir(mid.root, p) && forall q | q in mid.root && p <= q :: q == p
      ensures result == Missing ==> p !in mid.root
      ensures result == NotEmpty ==> exists q | q in mid.root :: p < q
      ensures !faulty && (p in old(disk).root ==> old(disk).root[p] == Dir) ==> result != Refused
    {
      Meanwhile();
      mid := disk;
      SameOutsideAt(old(disk).root, disk.root, kept, p);
      var fail := false;
      if faulty { fail := *; }
      if fail {
        result := Refused;
      } else if p !in disk.root {
        result := Missing;
      } else if disk.root[p] != Dir {
        result := Refused;
      } else if exists q | q in disk.root :: p < q {
        result := NotEmpty;
      } else {
        result := Removed;
        disk := disk.(root := disk.root - {p});
        LeafRemoved(mid.root, p);
        assert forall q | Under(q, kept) :: q != p;
        InsideStays(mid.root, disk.root, Retained(), kept);
      }
      Log();
    }
  }

  lemma NewDirectoryIsGrowth(d: Disk, side: Side, p: Path, kept: set<Path>)
    requires d.Sound() && Vacant(d.On(side), p)
    ensures GrownOn(d, d.With(side, d.On(side)[p := Dir]), side, p, kept)
  {
    var t := d.On(side)[p := Dir];
    forall q | q in t && q != []
      ensures IsDir(t, Parent(q))
    {
      if q == p { assert IsDir(d.On(side), Parent(p)); } else { assert IsDir(d.On(side), Parent(q)); }
    }
    forall s, q
      ensures GrownAt(d, d.With(side, t), s, q, side, p, kept)
    {
    }
  }

  lemma NewDirectoryIsNotKept(a: Disk, b: Disk, side: Side, p: Path, kept: set<Path>)
    requires !Under(p, kept) && b == a.With(side, a.On(side)[p := Dir])
    ensures forall q :: Under(q, kept) ==> At(b.root, q) == At(a.root, q)
  {
  }

  lemma LeafRemoved(t: Tree, p: Path)
    requires WellFormed(t) && !(exists q | q in t :: p < q)
    ensures WellFormed(t - {p})
    ensures forall q | q in t && p <= q :: q == p
  {
    forall q | q in t && p <= q
      ensures q == p
    {
      assert |p| == |q| ==> p == q;
    }
    forall q | q in t - {p} && q != []
      ensures IsDir(t - {p}, Parent(q))
    {
      assert p == Parent(q) ==> p < q;
    }
  }

  lemma GrowthTowards(a: Disk, b: Disk, side: Side, step: Path, p: Path, kept: set<Path>)
    requires step <= p && GrownOn(a, b, side, step, kept)
    ensures GrownOn(a, b, side, p, kept)
  {
    forall s, q
      ensures GrownAt(a, b, s, q, side, p, kept)
    {
      assert GrownAt(a, b, s, q, side, step, kept);
    }
  }

  lemma KeptIsNotBelow(p: Path, q: Path, kept: set<Path>)
    requires !Under(p, kept) && !Above(p, kept) && Under(q, kept)
    ensures !(p <= q)
  {
    var r :| r in kept && r <= q;
    if p <= q { PrefixesCompare(p, r, q); }
  }

  /** A rename of a path that is neither in the retained data nor above it leaves that data alone. */
  lemma RenameKeepsInside(d: Disk, from: Side, to: Side, p: Path, kept: set<Path>, retained: Tree)
    requires d.Sound() && CanRename(d, from, to, p) && !Under(p, kept) && !Above(p, kept)
    requires SameInside(d.root, retained, kept)
    ensures SameInside(Renamed(d, from, to, p).root, retained, kept)
  {
    var d' := Renamed(d, from, to, p);
    RenameTransfers(d, from, to, p);
    forall q | Under(q, kept)
      ensures At(d'.root, q) == At(d.root, q)
    {
      KeptIsNotBelow(p, q, kept);
      assert TransferredAt(d, d', from, to, p, q);
    }
    InsideStays(d.root, d'.root, retained, kept);
  }
}
