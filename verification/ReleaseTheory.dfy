/** What an activation by single moves does to the trees, independent of the code that performs it.

    `live` is the tree the release found at the root, `work` the candidate with whatever has been
    written to it since, `kept` the persistent paths that existed live. `displaced` are the paths moved
    from the root to the previous release, `installed` those moved from the candidate to the root. */
module ReleaseTheory {
  import opened Collections
  import opened Trees

  /** The containers of retained data, and the root itself: they stay where they are. */
  predicate Spine(p: Path, kept: set<Path>) {
    p == [] || Above(p, kept)
  }

  /** The paths a plan moves: the highest ones that neither hold nor belong to retained data. */
  predicate Frontier(p: Path, kept: set<Path>) {
    p != [] && Spine(Parent(p), kept) && !Spine(p, kept) && !Under(p, kept)
  }

  /** Two frontier paths never contain one another, so no move can disturb another one. */
  lemma FrontierIsAntichain(p: Path, q: Path, kept: set<Path>)
    requires Frontier(p, kept) && Frontier(q, kept) && p <= q
    ensures p == q
  {
  }

  /** No frontier path is at, above or below a retained one. */
  lemma FrontierAvoidsRetained(p: Path, kept: set<Path>, r: Path)
    requires Frontier(p, kept) && r in kept
    ensures !(p <= r) && !(r <= p)
  {
  }

  /** Every path outside the retained data and its containers lies at or below a frontier path. */
  lemma {:induction false} FrontierCovers(q: Path, kept: set<Path>) returns (p: Path)
    requires !Spine(q, kept) && !Under(q, kept)
    ensures p <= q && Frontier(p, kept)
    decreases |q|
  {
    if Spine(Parent(q), kept) {
      p := q;
    } else {
      assert forall r | r in kept && r <= Parent(q) :: r <= q;
      p := FrontierCovers(Parent(q), kept);
    }
  }

  /** The moves of two different frontier paths touch disjoint parts of every tree. */
  lemma FrontierIsNotUnder(p: Path, q: Path, s: set<Path>, kept: set<Path>)
    requires Frontier(p, kept) && (forall f | f in s :: Frontier(f, kept)) && p !in s && p <= q
    ensures !Under(q, s)
  {
    forall f | f in s && f <= q
      ensures f == p
    {
      PrefixesCompare(p, f, q);
      if p <= f { FrontierIsAntichain(p, f, kept); } else { FrontierIsAntichain(f, p, kept); }
    }
  }

  lemma SpineIsNotUnder(q: Path, s: set<Path>, kept: set<Path>)
    requires Spine(q, kept) && forall f | f in s :: Frontier(f, kept)
    ensures !Under(q, s)
  {
    forall f | f in s
      ensures !(f <= q)
    {
      assert f != [] && !Above(f, kept);
      assert forall r | r in kept && f <= q && q < r :: f < r;
    }
  }

  /** The trees an activation starts from; `aside` is what stood where the previous release belongs. */
  datatype Origin = Origin(live: Tree, work: Tree, aside: Tree, kept: set<Path>, existed: bool) {
    /** The root directory is ordinary, and the retained paths are independent of each other. */
    predicate Sound() {
      && WellFormed(live) && WellFormed(work)
      && Antichain(kept) && [] !in kept
      && (existed ==> IsDir(live, []))
      && (!existed ==> kept == {} && live.Keys != {[]})
    }
  }

  /** Where the entry at one relative path is, given which moves have been performed. Nothing is
      said about retained paths in the root, which belong to other processes, nor about paths in the
      root whose old content was displaced and not replaced. */
  ghost predicate PlacedAt(o: Origin, d: Disk, displaced: set<Path>, installed: set<Path>, q: Path) {
    && (Under(q, installed) ==> At(d.root, q) == At(o.work, q))
    && (q != [] && !Under(q, o.kept) && !Under(q, installed) && !Under(q, displaced) ==>
          At(d.root, q) == At(o.live, q))
    && At(d.candidate, q) == (if Under(q, installed) then None else At(o.work, q))
    && (Under(q, displaced) ==> At(d.previous, q) == At(o.live, q))
    && (!Under(q, displaced) ==> At(d.previous, q) == At(o.aside, q) || (IsDir(d.previous, q) && Spine(q, o.kept)))
  }

  /** The sets of performed moves explain the whole disk. `made` says that the release has recorded
      the root directory as its own creation. */
  ghost predicate Placed(o: Origin, d: Disk, displaced: set<Path>, installed: set<Path>, made: bool) {
    && o.Sound() && d.Sound()
    && (forall p | p in displaced :: Frontier(p, o.kept) && p in o.live)
    && (forall p | p in installed :: Frontier(p, o.kept) && IsDir(o.work, Parent(p)) && (p in displaced || p !in o.live))
    && (forall q :: PlacedAt(o, d, displaced, installed, q))
    && (o.existed ==> IsDir(d.root, []) && !made)
    && (!o.existed ==> displaced == {})
    && ([] in d.root ==> d.root[[]] == Dir)
    && (!made ==> At(d.root, []) == At(o.live, []))
  }

  /** Nothing is left where old content was displaced and not replaced. */
  ghost predicate Vacated(d: Disk, displaced: set<Path>, installed: set<Path>) {
    forall q | q in d.root :: Under(q, displaced) ==> Under(q, installed)
  }

  lemma UnderInsert(q: Path, s: set<Path>, p: Path)
    ensures Under(q, s + {p}) <==> Under(q, s) || p <= q
  {
    if p <= q { assert p in s + {p}; }
    assert forall f | f in s :: f in s + {p};
  }

  /** What one rename means for one relative path. */
  predicate TransferredAt(a: Disk, b: Disk, from: Side, to: Side, p: Path, q: Path) {
    if p <= q then At(b.On(from), q) == None && At(b.On(to), q) == At(a.On(from), q)
    else At(b.On(from), q) == At(a.On(from), q) && At(b.On(to), q) == At(a.On(to), q)
  }

  lemma RenameTransfers(d: Disk, from: Side, to: Side, p: Path)
    requires d.Sound() && CanRename(d, from, to, p)
    ensures Renamed(d, from, to, p).Sound()
    ensures forall side | side != from && side != to :: Renamed(d, from, to, p).On(side) == d.On(side)
    ensures forall q :: TransferredAt(d, Renamed(d, from, to, p), from, to, p, q)
  {
    RenameMovesSubtree(d, from, to, p);
  }

  lemma DisplaceAt(o: Origin, d: Disk, d': Disk, displaced: set<Path>, installed: set<Path>, p: Path, q: Path)
    requires PlacedAt(o, d, displaced, installed, q) && TransferredAt(d, d', Root, Previous, p, q) && d'.candidate == d.candidate
    requires Frontier(p, o.kept) && p !in displaced && p !in installed
    requires forall f | f in displaced + installed :: Frontier(f, o.kept)
    ensures PlacedAt(o, d', displaced + {p}, installed, q)
    ensures q in d'.root ==> q in d.root && !(p <= q)
  {
    UnderInsert(q, displaced, p);
    if p <= q {
      FrontierIsNotUnder(p, q, displaced, o.kept);
      FrontierIsNotUnder(p, q, installed, o.kept);
      FrontierBelowIsNotKept(p, q, o.kept);
    }
  }

  /** Moving live content aside. */
  lemma Displace(o: Origin, d: Disk, displaced: set<Path>, installed: set<Path>, made: bool, p: Path)
    requires Placed(o, d, displaced, installed, made)
    requires Frontier(p, o.kept) && p in o.live && p !in displaced && p !in installed
    requires IsDir(d.previous, Parent(p)) && o.existed && o.aside == map[]
    ensures CanRename(d, Root, Previous, p)
    ensures Placed(o, Renamed(d, Root, Previous, p), displaced + {p}, installed, made)
    ensures Vacated(d, displaced, installed) ==> Vacated(Renamed(d, Root, Previous, p), displaced + {p}, installed)
  {
    FrontierIsNotUnder(p, p, displaced, o.kept);
    FrontierIsNotUnder(p, p, installed, o.kept);
    assert PlacedAt(o, d, displaced, installed, p);
    RenameTransfers(d, Root, Previous, p);
    var d' := Renamed(d, Root, Previous, p);
    assert d'.On(Candidate) == d.On(Candidate);
    forall q
      ensures PlacedAt(o, d', displaced + {p}, installed, q)
      ensures q in d'.root ==> q in d.root && !(p <= q)
    {
      assert PlacedAt(o, d, displaced, installed, q) && TransferredAt(d, d', Root, Previous, p, q);
      DisplaceAt(o, d, d', displaced, installed, p, q);
    }
    assert TransferredAt(d, d', Root, Previous, p, []);
    forall q | q in d'.root && Under(q, displaced + {p}) && Vacated(d, displaced, installed)
      ensures Under(q, installed)
    {
      UnderInsert(q, displaced, p);
    }
  }

  lemma InstallAt(o: Origin, d: Disk, d': Disk, displaced: set<Path>, installed: set<Path>, p: Path, q: Path)
    requires PlacedAt(o, d, displaced, installed, q) && TransferredAt(d, d', Candidate, Root, p, q) && d'.previous == d.previous
    requires Frontier(p, o.kept) && p !in installed
    requires forall f | f in installed :: Frontier(f, o.kept)
    ensures PlacedAt(o, d', displaced, installed + {p}, q)
    ensures q in d'.root ==> q in d.root || Under(q, installed + {p})
  {
    UnderInsert(q, installed, p);
    if p <= q { FrontierIsNotUnder(p, q, installed, o.kept); }
  }

  /** Moving new content in, where nothing stands. */
  lemma Install(o: Origin, d: Disk, displaced: set<Path>, installed: set<Path>, made: bool, p: Path)
    requires Placed(o, d, displaced, installed, made)
    requires Frontier(p, o.kept) && p in o.work && p !in installed && (p in displaced || p !in o.live)
    requires p !in d.root && IsDir(d.root, Parent(p))
    ensures CanRename(d, Candidate, Root, p)
    ensures Placed(o, Renamed(d, Candidate, Root, p), displaced, installed + {p}, made)
    ensures Vacated(d, displaced, installed) ==> Vacated(Renamed(d, Candidate, Root, p), displaced, installed + {p})
  {
    FrontierIsNotUnder(p, p, installed, o.kept);
    assert PlacedAt(o, d, displaced, installed, p);
    RenameTransfers(d, Candidate, Root, p);
    var d' := Renamed(d, Candidate, Root, p);
    assert d'.On(Previous) == d.On(Previous);
    forall q
      ensures PlacedAt(o, d', displaced, installed + {p}, q)
      ensures q in d'.root ==> q in d.root || Under(q, installed + {p})
    {
      assert PlacedAt(o, d, displaced, installed, q) && TransferredAt(d, d', Candidate, Root, p, q);
      InstallAt(o, d, d', displaced, installed, p, q);
    }
    assert TransferredAt(d, d', Candidate, Root, p, []);
    forall q | Under(q, installed)
      ensures Under(q, installed + {p})
    {
      UnderInsert(q, installed, p);
    }
  }

  lemma UninstallAt(o: Origin, d: Disk, d': Disk, displaced: set<Path>, installed: set<Path>, p: Path, q: Path)
    requires PlacedAt(o, d, displaced, installed, q) && TransferredAt(d, d', Root, Candidate, p, q) && d'.previous == d.previous
    requires WellFormed(o.live) && p in installed && (p in displaced || p !in o.live)
    requires forall f | f in displaced + installed :: Frontier(f, o.kept)
    ensures PlacedAt(o, d', displaced, installed - {p}, q)
  {
    var others := installed - {p};
    assert others + {p} == installed;
    UnderInsert(q, others, p);
    if p <= q {
      FrontierIsNotUnder(p, q, others, o.kept);
      if p !in displaced {
        FrontierIsNotUnder(p, q, displaced, o.kept);
        if q in o.live { AncestorsPresent(o.live, p, q); }
      } else {
        assert Under(q, displaced);
      }
    }
  }

  /** Taking installed content back to the candidate. */
  lemma Uninstall(o: Origin, d: Disk, displaced: set<Path>, installed: set<Path>, made: bool, p: Path)
    requires Placed(o, d, displaced, installed, made)
    requires p in installed && p in d.root
    ensures CanRename(d, Root, Candidate, p)
    ensures Placed(o, Renamed(d, Root, Candidate, p), displaced, installed - {p}, made)
  {
    assert Under(p, installed);
    assert PlacedAt(o, d, displaced, installed, p);
    SpineIsNotUnder(Parent(p), installed, o.kept);
    assert PlacedAt(o, d, displaced, installed, Parent(p));
    RenameTransfers(d, Root, Candidate, p);
    var d' := Renamed(d, Root, Candidate, p);
    assert d'.On(Previous) == d.On(Previous);
    forall q
      ensures PlacedAt(o, d', displaced, installed - {p}, q)
    {
      assert PlacedAt(o, d, displaced, installed, q) && TransferredAt(d, d', Root, Candidate, p, q);
      UninstallAt(o, d, d', displaced, installed, p, q);
    }
    assert TransferredAt(d, d', Root, Candidate, p, []);
  }

  lemma ReinstateAt(o: Origin, d: Disk, d': Disk, displaced: set<Path>, installed: set<Path>, p: Path, q: Path)
    requires PlacedAt(o, d, displaced, installed, q) && TransferredAt(d, d', Previous, Root, p, q) && d'.candidate == d.candidate
    requires p in displaced && p !in installed && o.aside == map[]
    requires forall f | f in displaced + installed :: Frontier(f, o.kept)
    ensures PlacedAt(o, d', displaced - {p}, installed, q)
  {
    var others := displaced - {p};
    assert others + {p} == displaced;
    UnderInsert(q, others, p);
    if p <= q {
      FrontierIsNotUnder(p, q, others, o.kept);
      FrontierIsNotUnder(p, q, installed, o.kept);
    }
  }

  /** Putting displaced content back, where nothing stands. */
  lemma Reinstate(o: Origin, d: Disk, displaced: set<Path>, installed: set<Path>, made: bool, p: Path)
    requires Placed(o, d, displaced, installed, made)
    requires p in displaced && p !in installed && p !in d.root && o.aside == map[]
    ensures CanRename(d, Previous, Root, p)
    ensures Placed(o, Renamed(d, Previous, Root, p), displaced - {p}, installed, made)
  {
    assert Under(p, displaced);
    assert PlacedAt(o, d, displaced, installed, p);
    SpineIsNotUnder(Parent(p), installed, o.kept);
    SpineIsNotUnder(Parent(p), displaced, o.kept);
    assert PlacedAt(o, d, displaced, installed, Parent(p));
    SpineIsNotKept(Parent(p), o.kept);
    RenameTransfers(d, Previous, Root, p);
    var d' := Renamed(d, Previous, Root, p);
    assert d'.On(Candidate) == d.On(Candidate);
    forall q
      ensures PlacedAt(o, d', displaced - {p}, installed, q)
    {
      assert PlacedAt(o, d, displaced, installed, q) && TransferredAt(d, d', Previous, Root, p, q);
      ReinstateAt(o, d, d', displaced, installed, p, q);
    }
    assert TransferredAt(d, d', Previous, Root, p, []);
  }

  lemma SpineIsNotKept(q: Path, kept: set<Path>)
    requires Antichain(kept) && [] !in kept && Spine(q, kept)
    ensures !Under(q, kept)
  {
    if q != [] {
      var r :| r in kept && q < r;
      assert forall k | k in kept && k <= q :: k <= r && k != r;
    } else {
      assert forall k | k in kept && k <= q :: k == [];
    }
  }

  /** Trees that differ at most in what lies at or below the retained paths. */
  predicate SameOutside(a: Tree, b: Tree, kept: set<Path>) {
    forall q | q in a.Keys + b.Keys :: Under(q, kept) || At(a, q) == At(b, q)
  }

  /** The retained data of the two trees is the same. */
  predicate SameInside(a: Tree, b: Tree, kept: set<Path>) {
    forall q | q in a.Keys + b.Keys :: Under(q, kept) ==> At(a, q) == At(b, q)
  }

  lemma SameInsideAt(a: Tree, b: Tree, kept: set<Path>, q: Path)
    requires SameInside(a, b, kept) && Under(q, kept)
    ensures At(a, q) == At(b, q)
  {
    if q in a.Keys + b.Keys { assert At(a, q) == At(b, q); }
  }

  /** Where changes stay outside the retained data, it is the same before and after. */
  lemma InsideStays(a: Tree, b: Tree, c: Tree, kept: set<Path>)
    requires SameInside(a, c, kept) && forall q | Under(q, kept) :: At(b, q) == At(a, q)
    ensures SameInside(b, c, kept)
  {
    forall q | q in b.Keys + c.Keys && Under(q, kept)
      ensures At(b, q) == At(c, q)
    {
      SameInsideAt(a, c, kept, q);
    }
  }

  lemma FrontierBelowIsNotKept(p: Path, q: Path, kept: set<Path>)
    requires Frontier(p, kept) && p <= q
    ensures !Under(q, kept)
  {
    forall r | r in kept && r <= q
      ensures false
    {
      PrefixesCompare(p, r, q);
      FrontierAvoidsRetained(p, kept, r);
    }
  }

  /** One tree grew out of another through other processes writing retained data. */
  predicate Drifted(a: Disk, b: Disk, kept: set<Path>) {
    b == a.(root := b.root) && WellFormed(b.root) && SameOutside(a.root, b.root, kept)
  }

  lemma SameOutsideAt(a: Tree, b: Tree, kept: set<Path>, q: Path)
    requires SameOutside(a, b, kept) && !Under(q, kept)
    ensures At(a, q) == At(b, q)
  {
    if q in a.Keys + b.Keys { assert At(a, q) == At(b, q); }
  }

  lemma MovedPathIsNotKept(q: Path, moved: set<Path>, kept: set<Path>)
    requires (forall p | p in moved :: Frontier(p, kept)) && Under(q, moved)
    ensures !Under(q, kept)
  {
    var p :| p in moved && p <= q;
    FrontierBelowIsNotKept(p, q, kept);
  }

  /** Other processes may write retained data at any moment without disturbing the release. */
  lemma RetainedDataIsFree(o: Origin, d: Disk, displaced: set<Path>, installed: set<Path>, made: bool, root: Tree)
    requires Placed(o, d, displaced, installed, made)
    requires WellFormed(root) && SameOutside(d.root, root, o.kept)
    ensures Placed(o, d.(root := root), displaced, installed, made)
    ensures Vacated(d, displaced, installed) ==> Vacated(d.(root := root), displaced, installed)
  {
    assert !Under([], o.kept);
    SameOutsideAt(d.root, root, o.kept, []);
    forall q
      ensures PlacedAt(o, d.(root := root), displaced, installed, q)
    {
      assert PlacedAt(o, d, displaced, installed, q);
      if Under(q, installed) { MovedPathIsNotKept(q, installed, o.kept); }
      if !Under(q, o.kept) { SameOutsideAt(d.root, root, o.kept, q); }
    }
    if Vacated(d, displaced, installed) {
      forall q | q in root && Under(q, displaced)
        ensures Under(q, installed)
      {
        MovedPathIsNotKept(q, displaced, o.kept);
        SameOutsideAt(d.root, root, o.kept, q);
      }
    }
  }

  /** Directories on the way to `p` may have been added to a tree. */
  ghost predicate Grown(a: Tree, b: Tree, p: Path) {
    forall q :: At(b, q) == At(a, q) || (q <= p && q !in a && IsDir(b, q))
  }

  lemma GrowPrevious(o: Origin, d: Disk, displaced: set<Path>, installed: set<Path>, made: bool, s: Path, previous: Tree)
    requires Placed(o, d, displaced, installed, made)
    requires Spine(s, o.kept) && WellFormed(previous) && Grown(d.previous, previous, s)
    ensures Placed(o, d.(previous := previous), displaced, installed, made)
  {
    forall q
      ensures PlacedAt(o, d.(previous := previous), displaced, installed, q)
    {
      assert PlacedAt(o, d, displaced, installed, q);
      if At(previous, q) != At(d.previous, q) {
        if Above(s, o.kept) { var r :| r in o.kept && s < r; assert q < r; }
        SpineIsNotUnder(q, displaced, o.kept);
      }
    }
  }

  lemma MakeRoot(o: Origin, d: Disk, displaced: set<Path>, installed: set<Path>, made: bool, s: Path, root: Tree)
    requires Placed(o, d, displaced, installed, made)
    requires !o.existed && s == [] && WellFormed(root) && Grown(d.root, root, s)
    ensures Placed(o, d.(root := root), displaced, installed, true)
    ensures Vacated(d, displaced, installed) ==> Vacated(d.(root := root), displaced, installed)
  {
    SpineIsNotUnder([], installed, o.kept);
    forall q
      ensures PlacedAt(o, d.(root := root), displaced, installed, q)
    {
      assert PlacedAt(o, d, displaced, installed, q);
    }
  }

  /** Once every move of the plan is done the root is the candidate laid over the retained data: `shared` at
      and below the retained paths, live in their containers, and the candidate everywhere else; the previous
      release is what it displaced, and nothing more but containers. */
  ghost predicate Overlaid(o: Origin, d: Disk, shared: Tree) {
    && (forall q :: Under(q, o.kept) ==> At(d.root, q) == At(shared, q))
    && (forall q :: !Spine(q, o.kept) && !Under(q, o.kept) ==>
          At(d.root, q) == At(o.work, q) && At(d.previous, q) == At(o.live, q) && q !in d.candidate)
    && (forall q :: Spine(q, o.kept) && q != [] ==> At(d.root, q) == At(o.live, q))
    && (forall q | q in d.previous :: Spine(q, o.kept) || !Under(q, o.kept))
    && (o.existed ==> IsDir(d.root, []))
  }

  lemma CompleteActivationOverlays(
    o: Origin, d: Disk, displaced: set<Path>, installed: set<Path>, made: bool, shared: Tree)
    requires Placed(o, d, displaced, installed, made) && Vacated(d, displaced, installed) && o.aside == map[]
    requires SameInside(d.root, shared, o.kept)
    requires forall p :: Frontier(p, o.kept) && p in o.live ==> p in displaced
    requires forall p :: Frontier(p, o.kept) && p in o.work ==> p in installed
    ensures Overlaid(o, d, shared)
  {
    forall q | Under(q, o.kept)
      ensures At(d.root, q) == At(shared, q)
    {
      SameInsideAt(d.root, shared, o.kept, q);
    }
    forall q
      ensures !Spine(q, o.kept) && !Under(q, o.kept) ==>
                At(d.root, q) == At(o.work, q) && At(d.previous, q) == At(o.live, q) && q !in d.candidate
    {
      assert PlacedAt(o, d, displaced, installed, q);
      if !Spine(q, o.kept) && !Under(q, o.kept) {
        var p := FrontierCovers(q, o.kept);
        if q in o.live { AncestorsPresent(o.live, p, q); }
        if q in o.work { AncestorsPresent(o.work, p, q); }
      }
    }
    forall q
      ensures Spine(q, o.kept) && q != [] ==> At(d.root, q) == At(o.live, q)
      ensures q in d.previous ==> Spine(q, o.kept) || !Under(q, o.kept)
    {
      assert PlacedAt(o, d, displaced, installed, q);
      if Spine(q, o.kept) {
        SpineIsNotUnder(q, displaced, o.kept);
        SpineIsNotUnder(q, installed, o.kept);
        SpineIsNotKept(q, o.kept);
      } else if Under(q, displaced) {
        var p :| p in displaced && p <= q;
        FrontierBelowIsNotKept(p, q, o.kept);
      }
    }
  }

  /** With nothing displaced and nothing installed, everything but the retained data is as it was. */
  lemma NothingMovedIsOriginal(o: Origin, d: Disk, made: bool)
    requires Placed(o, d, {}, {}, made)
    ensures forall q :: q != [] && !Under(q, o.kept) ==> At(d.root, q) == At(o.live, q)
    ensures d.candidate == o.work
    ensures o.existed || !made ==> At(d.root, []) == At(o.live, [])
  {
    forall q
      ensures q != [] && !Under(q, o.kept) ==> At(d.root, q) == At(o.live, q)
      ensures At(d.candidate, q) == At(o.work, q)
    {
      assert PlacedAt(o, d, {}, {}, q);
    }
    assert d.candidate.Keys == o.work.Keys by {
      forall q ensures q in d.candidate <==> q in o.work { assert At(d.candidate, q) == At(o.work, q); }
    }
    forall q | q in o.work ensures d.candidate[q] == o.work[q] { assert At(d.candidate, q) == At(o.work, q); }
  }

  /** The root and the candidate put back in one stroke, from what is on disk alone. */
  function Recovered(d: Disk, displaced: set<Path>, installed: set<Path>): Disk {
    d.(root := (map q | q in d.root && !Under(q, installed) && !Under(q, displaced) :: d.root[q])
               + (map q | q in d.previous && Under(q, displaced) :: d.previous[q]),
       candidate := d.candidate + map q | q in d.root && Under(q, installed) :: d.root[q])
  }

  lemma RecoveredAt(d: Disk, displaced: set<Path>, installed: set<Path>, q: Path)
    ensures At(Recovered(d, displaced, installed).root, q) ==
            if Under(q, displaced) then At(d.previous, q)
            else if Under(q, installed) then None else At(d.root, q)
    ensures At(Recovered(d, displaced, installed).candidate, q) ==
            if Under(q, installed) && q in d.root then At(d.root, q) else At(d.candidate, q)
  {
  }

  /** Whatever has been performed, the original root (outside the retained data) and the candidate
      can be read off the disk. */
  lemma OriginalIsRecoverable(o: Origin, d: Disk, displaced: set<Path>, installed: set<Path>, made: bool)
    requires Placed(o, d, displaced, installed, made)
    ensures forall q :: q != [] && !Under(q, o.kept) ==> At(Recovered(d, displaced, installed).root, q) == At(o.live, q)
    ensures forall q :: Under(q, o.kept) ==> At(Recovered(d, displaced, installed).root, q) == At(d.root, q)
    ensures forall q :: At(Recovered(d, displaced, installed).candidate, q) == At(o.work, q)
  {
    forall q
      ensures q != [] && !Under(q, o.kept) ==> At(Recovered(d, displaced, installed).root, q) == At(o.live, q)
      ensures Under(q, o.kept) ==> At(Recovered(d, displaced, installed).root, q) == At(d.root, q)
      ensures At(Recovered(d, displaced, installed).candidate, q) == At(o.work, q)
    {
      OriginalIsRecoverableAt(o, d, displaced, installed, made, q);
    }
  }

  lemma OriginalIsRecoverableAt(o: Origin, d: Disk, displaced: set<Path>, installed: set<Path>, made: bool, q: Path)
    requires Placed(o, d, displaced, installed, made)
    ensures q != [] && !Under(q, o.kept) ==> At(Recovered(d, displaced, installed).root, q) == At(o.live, q)
    ensures Under(q, o.kept) ==> At(Recovered(d, displaced, installed).root, q) == At(d.root, q)
    ensures At(Recovered(d, displaced, installed).candidate, q) == At(o.work, q)
  {
    RecoveredAt(d, displaced, installed, q);
    assert PlacedAt(o, d, displaced, installed, q);
    if Under(q, installed) { MovedPathIsNotKept(q, installed, o.kept); }
    if Under(q, displaced) { MovedPathIsNotKept(q, displaced, o.kept); }
    if Under(q, installed) && !Under(q, displaced) { NewPathWasNotLive(o, d, displaced, installed, made, q); }
  }

  lemma NewPathWasNotLive(o: Origin, d: Disk, displaced: set<Path>, installed: set<Path>, made: bool, q: Path)
    requires Placed(o, d, displaced, installed, made) && Under(q, installed) && !Under(q, displaced)
    ensures q !in o.live
  {
    var p :| p in installed && p <= q;
    if q in o.live { AncestorsPresent(o.live, p, q); }
  }

  /** What a running application may leave in the root: anything, as long as the root and the
      containers of retained data stay directories. */
  ghost predicate LeavesContainers(o: Origin, root: Tree, next: Tree) {
    && WellFormed(next)
    && (IsDir(root, []) <==> IsDir(next, [])) && ([] in next ==> IsDir(next, []))
    && (forall q :: Spine(q, o.kept) && IsDir(root, q) ==> IsDir(next, q))
  }

  /** The origin as it looks after other processes have written to the root: what they left beside
      the moved paths belongs to the live tree, what they left in installed ones to the candidate. */
  function Absorbed(o: Origin, displaced: set<Path>, installed: set<Path>, next: Tree): Origin {
    var beside := map q | q in next && !Under(q, installed) && !Under(q, displaced) && !Under(q, o.kept) :: next[q];
    var live := beside + map q | q in o.live && Under(q, displaced) :: o.live[q];
    var work := (map q | q in o.work && !Under(q, installed) :: o.work[q])
                + map q | q in next && Under(q, installed) :: next[q];
    o.(live := if !o.existed && live.Keys == {[]} then map[] else live, work := work)
  }

  /** An application may write anywhere in the activated root; the release can still account for
      everything, and still knows the original content of every displaced path. */
  lemma ApplicationMayWrite(o: Origin, d: Disk, displaced: set<Path>, installed: set<Path>, made: bool, next: Tree)
    requires Placed(o, d, displaced, installed, made) && LeavesContainers(o, d.root, next)
    requires o.existed || made
    ensures Placed(Absorbed(o, displaced, installed, next), d.(root := next), displaced, installed, made)
  {
    var o' := Absorbed(o, displaced, installed, next);
    AbsorbedIsSound(o, d, displaced, installed, made, next);
    SpineIsNotUnder([], installed, o.kept);
    SpineIsNotUnder([], displaced, o.kept);
    forall p | p in installed
      ensures IsDir(o'.work, Parent(p)) && (p in displaced || p !in o'.live)
    {
      SpineIsNotUnder(Parent(p), installed, o.kept);
      assert Under(p, installed);
      if p !in displaced { FrontierIsNotUnder(p, p, displaced, o.kept); }
    }
    forall p | p in displaced
      ensures p in o'.live
    {
      assert Under(p, displaced);
    }
    forall q
      ensures PlacedAt(o', d.(root := next), displaced, installed, q)
    {
      assert PlacedAt(o, d, displaced, installed, q);
      AbsorbedAt(o, d, displaced, installed, next, q);
    }
    SpineIsNotUnder([], installed, o.kept);
    SpineIsNotUnder([], displaced, o.kept);
    SpineIsNotKept([], o.kept);
  }

  lemma AbsorbedAt(o: Origin, d: Disk, displaced: set<Path>, installed: set<Path>, next: Tree, q: Path)
    requires PlacedAt(o, d, displaced, installed, q)
    requires q == [] ==> !Under(q, installed) && !Under(q, displaced)
    ensures PlacedAt(Absorbed(o, displaced, installed, next), d.(root := next), displaced, installed, q)
  {
  }

  lemma AbsorbedIsSound(o: Origin, d: Disk, displaced: set<Path>, installed: set<Path>, made: bool, next: Tree)
    requires Placed(o, d, displaced, installed, made) && LeavesContainers(o, d.root, next)
    ensures Absorbed(o, displaced, installed, next).Sound()
  {
    var o' := Absorbed(o, displaced, installed, next);
    SpineIsNotUnder([], installed, o.kept);
    SpineIsNotUnder([], displaced, o.kept);
    SpineIsNotKept([], o.kept);
    forall q | q in o'.live && q != []
      ensures IsDir(o'.live, Parent(q))
    {
      AbsorbedLiveParent(o, d, displaced, installed, made, next, q);
    }
    forall q | q in o'.work && q != []
      ensures IsDir(o'.work, Parent(q))
    {
      AbsorbedWorkParent(o, d, displaced, installed, made, next, q);
    }
  }

  lemma AbsorbedLiveParent(o: Origin, d: Disk, displaced: set<Path>, installed: set<Path>, made: bool, next: Tree, q: Path)
    requires Placed(o, d, displaced, installed, made) && LeavesContainers(o, d.root, next)
    requires q in Absorbed(o, displaced, installed, next).live && q != []
    ensures IsDir(Absorbed(o, displaced, installed, next).live, Parent(q))
  {
    if Under(q, displaced) {
      if q in displaced {
        SpineIsNotUnder(Parent(q), displaced, o.kept);
        SpineIsNotUnder(Parent(q), installed, o.kept);
        SpineIsNotKept(Parent(q), o.kept);
        assert PlacedAt(o, d, displaced, installed, Parent(q));
        assert IsDir(d.root, Parent(q));
      } else {
        UnderProperly(q, displaced);
      }
    } else {
      UnderParent(q, displaced);
      UnderParent(q, installed);
      UnderParent(q, o.kept);
    }
  }

  lemma AbsorbedWorkParent(o: Origin, d: Disk, displaced: set<Path>, installed: set<Path>, made: bool, next: Tree, q: Path)
    requires Placed(o, d, displaced, installed, made) && LeavesContainers(o, d.root, next)
    requires q in Absorbed(o, displaced, installed, next).work && q != []
    ensures IsDir(Absorbed(o, displaced, installed, next).work, Parent(q))
  {
    if Under(q, installed) {
      if q in installed { SpineIsNotUnder(Parent(q), installed, o.kept); } else { UnderProperly(q, installed); }
    } else {
      UnderParent(q, installed);
    }
  }

  lemma UnderProperly(q: Path, s: set<Path>)
    requires q != [] && Under(q, s) && q !in s
    ensures Under(Parent(q), s)
  {
    var p :| p in s && p <= q;
    assert |p| == |q| ==> p == q;
    assert p == Parent(q)[..|p|];
  }

  lemma UnderParent(q: Path, s: set<Path>)
    requires q != [] && !Under(q, s)
    ensures !Under(Parent(q), s)
  {
    assert forall p | p in s && p <= Parent(q) :: p <= q;
  }

  /** Once the root exists, so does every container of retained data, as an ordinary directory. */
  ghost predicate Contained(o: Origin) {
    o.existed ==> forall q :: Spine(q, o.kept) ==> IsDir(o.live, q)
  }

  lemma ContainersStand(o: Origin, d: Disk, displaced: set<Path>, installed: set<Path>, made: bool, s: Path)
    requires Placed(o, d, displaced, installed, made) && Contained(o) && Spine(s, o.kept)
    ensures o.existed ==> IsDir(d.root, s)
    ensures !o.existed ==> s == []
    ensures o.aside == map[] && s in d.previous ==> d.previous[s] == Dir
    ensures s in d.root ==> d.root[s] == Dir
  {
    SpineIsNotUnder(s, displaced, o.kept);
    SpineIsNotUnder(s, installed, o.kept);
    SpineIsNotKept(s, o.kept);
    assert PlacedAt(o, d, displaced, installed, s);
    if !o.existed { assert !Above(s, o.kept); }
  }

  lemma SpineAbove(q: Path, s: Path, kept: set<Path>)
    requires Spine(s, kept) && q <= s
    ensures Spine(q, kept)
  {
    if q != [] {
      var r :| r in kept && s < r;
      assert q < r;
    }
  }

  /** No link stands on the way to a planned path. */
  lemma WayToFrontier(o: Origin, d: Disk, displaced: set<Path>, installed: set<Path>, made: bool, p: Path)
    requires Placed(o, d, displaced, installed, made) && Contained(o) && Frontier(p, o.kept)
    ensures !ThroughLink(d.root, p)
    ensures ClearWay(d.root, Parent(p))
    ensures o.aside == map[] ==> !ThroughLink(d.previous, p) && ClearWay(d.previous, Parent(p))
  {
    forall i | 0 <= i < |p|
      ensures p[..i] in d.root ==> d.root[p[..i]] == Dir
      ensures o.aside == map[] && p[..i] in d.previous ==> d.previous[p[..i]] == Dir
    {
      assert p[..i] <= Parent(p);
      SpineAbove(p[..i], Parent(p), o.kept);
      ContainersStand(o, d, displaced, installed, made, p[..i]);
    }
    forall i | 0 <= i <= |Parent(p)|
      ensures Parent(p)[..i] == p[..i]
    {
    }
  }

  /** A root directory the release made is settled either way: removed when it was still empty, or
      left because something else lies in it. */
  lemma CreatedRootResolved(o: Origin, d: Disk)
    requires Placed(o, d, {}, {}, true)
    requires [] !in d.root || exists q | q in d.root :: [] < q
    ensures Placed(o, d, {}, {}, false)
  {
    forall q
      ensures q != [] ==> At(d.root, q) == At(o.live, q)
    {
      assert PlacedAt(o, d, {}, {}, q);
    }
    if [] !in d.root {
      forall q | q in d.root ensures false { AncestorsPresent(d.root, [], q); }
      forall q | q in o.live
        ensures q == []
      {
        assert At(d.root, q) == None;
      }
      assert o.live.Keys <= {[]};
    } else {
      var q :| q in d.root && [] < q;
      assert At(d.root, q) == At(o.live, q);
      AncestorsPresent(o.live, [], q);
    }
  }

  lemma RemovingCreatedRoot(o: Origin, d: Disk)
    requires Placed(o, d, {}, {}, true) && d.root.Keys == {[]}
    ensures Placed(o, d.(root := map[]), {}, {}, true)
  {
    forall q
      ensures PlacedAt(o, d.(root := map[]), {}, {}, q)
    {
      assert PlacedAt(o, d, {}, {}, q);
    }
  }
}
