/** Planning the single moves of an activation: a walk over two trees at once. */
module ReleasePlanning {
  import opened Trees
  import opened ReleaseTheory
  import opened ReleasePlan
  import opened ReleaseVolume

  function NamesIn(t: Tree, p: Path): set<Name> {
    set q | q in t && |q| == |p| + 1 && p <= q :: q[|p|]
  }

  ghost function MaxLength(s: set<Path>): (n: nat)
    ensures forall p | p in s :: |p| <= n
  {
    if s == {} then 0 else
      var p :| p in s;
      var rest := MaxLength(s - {p});
      assert forall q | q in s :: q == p || q in s - {p};
      if |p| > rest then |p| else rest
  }

  /** How many more levels of containers a walk can meet below `p`. */
  ghost function Height(p: Path, kept: set<Path>): nat {
    if |p| <= MaxLength(kept) then MaxLength(kept) + 1 - |p| else 0
  }

  /** The moves for everything at and below `top`. */
  ghost predicate PlansBelow(root: Tree, candidate: Tree, kept: set<Path>, top: Path, plan: seq<ContentMove>) {
    && (forall m | m in plan :: top <= m.path && IsPlanned(root, candidate, kept, m))
    && (forall p | p in root && Frontier(p, kept) && top <= p :: ContentMove(p, Root, Previous, Planned) in plan)
    && (forall p | p in candidate && Frontier(p, kept) && top <= p :: ContentMove(p, Candidate, Root, Planned) in plan)
    && LiveFirst(plan)
  }

  predicate IsPlanned(root: Tree, candidate: Tree, kept: set<Path>, m: ContentMove) {
    && Frontier(m.path, kept) && m.state == Planned
    && ((m.from == Root && m.to == Previous && m.path in root) || (m.from == Candidate && m.to == Root && m.path in candidate))
  }

  ghost predicate LiveFirst(plan: seq<ContentMove>) {
    forall i, j | 0 <= i < j < |plan| :: plan[i].path == plan[j].path ==> plan[i].from == Root && plan[j].from == Candidate
  }

  ghost predicate ContainersAreDirectories(t: Tree, kept: set<Path>, top: Path) {
    forall q | q in t && top <= q && Spine(q, kept) :: t[q] == Dir
  }

  /** Every directory above `p` that exists is an ordinary one. */
  predicate OpenWay(t: Tree, p: Path) {
    forall i | 0 <= i < |p| :: p[..i] in t ==> t[p[..i]] == Dir
  }

  /** The same as PlansBelow, for the entries of the container `top` whose names have been visited. */
  ghost predicate PlansAmong(d: Disk, kept: set<Path>, top: Path, visited: set<Name>, plan: seq<ContentMove>) {
    && (forall m | m in plan :: top < m.path && m.path[|top|] in visited && IsPlanned(d.root, d.candidate, kept, m))
    && (forall p | p in d.root && Frontier(p, kept) && top < p && p[|top|] in visited :: ContentMove(p, Root, Previous, Planned) in plan)
    && (forall p | p in d.candidate && Frontier(p, kept) && top < p && p[|top|] in visited :: ContentMove(p, Candidate, Root, Planned) in plan)
    && LiveFirst(plan)
    && (forall q | q in d.root && top < q && q[|top|] in visited && Spine(q, kept) :: d.root[q] == Dir)
    && (forall q | q in d.candidate && top < q && q[|top|] in visited && Spine(q, kept) :: d.candidate[q] == Dir)
  }

  lemma VisitOneMore(d: Disk, kept: set<Path>, top: Path, visited: set<Name>, name: Name, plan: seq<ContentMove>, more: seq<ContentMove>)
    requires PlansAmong(d, kept, top, visited, plan) && name !in visited
    requires Walked(d, kept, top + [name], more)
    ensures PlansAmong(d, kept, top, visited + {name}, plan + more)
  {
    forall p: Path | top < p && p[|top|] == name
      ensures top + [name] <= p
    {
    }
    forall m | m in plan + more
      ensures top < m.path && m.path[|top|] in visited + {name} && IsPlanned(d.root, d.candidate, kept, m)
    {
    }
    forall a, b | a in plan && b in more
      ensures a.path != b.path
    {
      assert a.path[|top|] in visited && b.path[|top|] == name;
    }
  }

  lemma NamesCover(t: Tree, top: Path, q: Path)
    requires WellFormed(t) && q in t && top < q
    ensures top in t && q[|top|] in NamesIn(t, top)
  {
    AncestorsPresent(t, top, q);
    AncestorsPresent(t, q[..|top| + 1], q);
    assert q[..|top| + 1][|top|] == q[|top|];
  }

  lemma AllNamesVisited(d: Disk, kept: set<Path>, top: Path, visited: set<Name>, plan: seq<ContentMove>)
    requires d.Sound() && PlansAmong(d, kept, top, visited, plan) && Spine(top, kept)
    requires NamesIn(d.root, top) <= visited && NamesIn(d.candidate, top) <= visited
    requires Entered(d, top)
    ensures Walked(d, kept, top, plan)
  {
    forall q | q in d.root && top <= q && q != top
      ensures top < q && q[|top|] in visited
    {
      assert |top| == |q| ==> top == q;
      NamesCover(d.root, top, q);
    }
    forall q | q in d.candidate && top <= q && q != top
      ensures top < q && q[|top|] in visited
    {
      assert |top| == |q| ==> top == q;
      NamesCover(d.candidate, top, q);
    }
  }

  lemma KeptIsNotPlanned(d: Disk, kept: set<Path>, top: Path)
    requires Antichain(kept) && [] !in kept && Under(top, kept)
    ensures Walked(d, kept, top, [])
  {
    forall q: Path | top <= q
      ensures !Frontier(q, kept) && !Spine(q, kept)
    {
      var r :| r in kept && r <= top;
      assert r <= q;
      if Spine(q, kept) { SpineIsNotKept(q, kept); }
    }
  }

  lemma LeafIsPlanned(d: Disk, kept: set<Path>, top: Path, plan: seq<ContentMove>)
    requires Frontier(top, kept)
    requires plan == (if top in d.root then [ContentMove(top, Root, Previous, Planned)] else [])
                     + (if top in d.candidate then [ContentMove(top, Candidate, Root, Planned)] else [])
    ensures Walked(d, kept, top, plan)
  {
    forall q: Path | top <= q
      ensures Frontier(q, kept) ==> q == top
      ensures !Spine(q, kept)
    {
      if Frontier(q, kept) { FrontierIsAntichain(top, q, kept); }
      assert forall r | r in kept && q < r :: top < r;
    }
  }

  lemma WayStaysOpen(t: Tree, p: Path, name: Name)
    requires OpenWay(t, p) && (p in t ==> t[p] == Dir)
    ensures OpenWay(t, p + [name])
  {
    forall i | 0 <= i < |p + [name]| && (p + [name])[..i] in t
      ensures t[(p + [name])[..i]] == Dir
    {
      assert (p + [name])[..i] == p[..i];
      assert p[..|p|] == p;
    }
  }

  /** The container `p` and everything above it is an ordinary directory wherever it exists. */
  predicate Entered(d: Disk, p: Path) {
    && OpenWay(d.root, p) && (p in d.root ==> d.root[p] == Dir)
    && OpenWay(d.candidate, p) && (p in d.candidate ==> d.candidate[p] == Dir)
  }

  ghost predicate Walkable(d: Disk, kept: set<Path>, top: Path) {
    ContainersAreDirectories(d.root, kept, top) && ContainersAreDirectories(d.candidate, kept, top)
  }

  ghost predicate Walked(d: Disk, kept: set<Path>, top: Path, plan: seq<ContentMove>) {
    PlansBelow(d.root, d.candidate, kept, top, plan) && Walkable(d, kept, top)
  }

  lemma EnterContainer(d: Disk, kept: set<Path>, p: Path, name: Name)
    requires Entered(d, p) && Spine(p, kept)
    ensures OpenWay(d.root, p + [name]) && OpenWay(d.candidate, p + [name])
    ensures Spine(Parent(p + [name]), kept)
    ensures Walkable(d, kept, p) ==> Walkable(d, kept, p + [name])
    ensures Height(p + [name], kept) < Height(p, kept)
  {
    WayStaysOpen(d.root, p, name);
    WayStaysOpen(d.candidate, p, name);
    assert Parent(p + [name]) == p;
    ContainersNarrow(d.root, kept, p, name);
    ContainersNarrow(d.candidate, kept, p, name);
  }

  lemma ContainersNarrow(t: Tree, kept: set<Path>, p: Path, name: Name)
    ensures ContainersAreDirectories(t, kept, p) ==> ContainersAreDirectories(t, kept, p + [name])
  {
    forall q | q in t && p + [name] <= q
      ensures p <= q
    {
    }
  }

  lemma OpenWayHasNoLink(t: Tree, p: Path)
    requires OpenWay(t, p)
    ensures !ThroughLink(t, p)
  {
  }

  /** Walks the two trees together, down to the highest paths that neither hold nor belong to retained
      data. The names of a container are visited in some order; every order gives a valid plan. */
  method Visit(volume: Volume, kept: set<Path>, relative: Path) returns (ok: bool, plan: seq<ContentMove>)
    requires volume.Valid() && Antichain(kept) && [] !in kept
    requires relative != [] ==> Spine(Parent(relative), kept)
    requires OpenWay(volume.disk.root, relative) && OpenWay(volume.disk.candidate, relative)
    ensures ok ==> Walked(volume.disk, kept, relative, plan)
    ensures !volume.faulty && Walkable(volume.disk, kept, relative) ==> ok
    decreases Height(relative, kept), 1
  {
    ghost var d := volume.disk;
    ok, plan := true, [];
    if Under(relative, kept) {
      KeptIsNotPlanned(d, kept, relative);
      return;
    }
    OpenWayHasNoLink(d.root, relative);
    OpenWayHasNoLink(d.candidate, relative);
    var live, incoming;
    ok, live := volume.Lookup(Root, relative);
    if !ok { return; }
    ok, incoming := volume.Lookup(Candidate, relative);
    if !ok { return; }
    if relative == [] || Above(relative, kept) {
      if (live.Some? && live.value != Dir) || (incoming.Some? && incoming.value != Dir) {
        ok := false;
        return;
      }
      var names := (if live.Some? then NamesIn(volume.disk.root, relative) else {})
                   + (if incoming.Some? then NamesIn(volume.disk.candidate, relative) else {});
      NoNamesWithoutDirectory(d.root, relative);
      NoNamesWithoutDirectory(d.candidate, relative);
      ok, plan := VisitEntries(volume, kept, relative, names);
    } else {
      if live.Some? { plan := plan + [ContentMove(relative, Root, Previous, Planned)]; }
      if incoming.Some? { plan := plan + [ContentMove(relative, Candidate, Root, Planned)]; }
      LeafIsPlanned(d, kept, relative, plan);
    }
  }

  method VisitEntries(volume: Volume, kept: set<Path>, relative: Path, all: set<Name>) returns (ok: bool, plan: seq<ContentMove>)
    requires volume.Valid() && Antichain(kept) && [] !in kept && Spine(relative, kept)
    requires Entered(volume.disk, relative)
    requires NamesIn(volume.disk.root, relative) <= all && NamesIn(volume.disk.candidate, relative) <= all
    ensures ok ==> Walked(volume.disk, kept, relative, plan)
    ensures !volume.faulty && Walkable(volume.disk, kept, relative) ==> ok
    decreases Height(relative, kept), 0
  {
    ghost var d := volume.disk;
    ghost var sure := !volume.faulty && Walkable(d, kept, relative);
    ok, plan := true, [];
    var names := all;
    while names != {} && ok
      invariant names <= all
      invariant ok ==> PlansAmong(d, kept, relative, all - names, plan)
      invariant sure ==> ok
      decreases |names|, ok
    {
      var name :| name in names;
      var more;
      EnterContainer(d, kept, relative, name);
      ok, more := Visit(volume, kept, relative + [name]);
      if ok {
        VisitOneMore(d, kept, relative, all - names, name, plan, more);
        assert all - (names - {name}) == (all - names) + {name};
      }
      plan := plan + more;
      names := names - {name};
    }
    if ok {
      assert all - names == all;
      AllNamesVisited(d, kept, relative, all, plan);
    }
  }

  lemma NoNamesWithoutDirectory(t: Tree, p: Path)
    requires WellFormed(t)
    ensures p !in t ==> NamesIn(t, p) == {}
  {
    assert forall q | q in t && |q| == |p| + 1 && p <= q :: Parent(q) == p;
  }

  /** Only persistent paths that exist live are retained; new ones come with the candidate. */
  function RetainedIn(root: Tree, persistent: seq<Path>): set<Path> {
    set p | p in persistent && p in root
  }

  ghost predicate Independent(persistent: seq<Path>) {
    Antichain(set p | p in persistent) && [] !in persistent
  }

  /** The two trees allow a plan: no persistent path leads through a link, and every container of
      retained data is an ordinary directory in the candidate too. */
  ghost predicate Plannable(d: Disk, persistent: seq<Path>) {
    && (forall p | p in persistent :: !ThroughLink(d.root, p))
    && Walkable(d, RetainedIn(d.root, persistent), [])
  }

  lemma RetainedAreReal(d: Disk, persistent: seq<Path>, kept: set<Path>)
    requires d.Sound() && Walkable(d, kept, [])
    requires forall p | p in kept :: p in d.root || ThroughLink(d.root, p)
    ensures forall p | p in kept :: p in d.root
  {
    forall p, i | p in kept && 0 <= i < |p| && p[..i] in d.root
      ensures !d.root[p[..i]].Link?
    {
      assert p[..i] < p;
      assert Spine(p[..i], kept);
    }
  }

  method PlanContentMoves(volume: Volume, persistent: seq<Path>) returns (ok: bool, kept: set<Path>, plan: seq<ContentMove>)
    requires volume.Valid() && Independent(persistent)
    ensures ok ==> kept == RetainedIn(volume.disk.root, persistent) && Walked(volume.disk, kept, [], plan)
    ensures !volume.faulty && Plannable(volume.disk, persistent) ==> ok
  {
    ghost var d := volume.disk;
    kept, plan := {}, [];
    for i := 0 to |persistent|
      invariant forall p | p in kept :: p in persistent && (p in d.root || ThroughLink(d.root, p))
      invariant forall k | 0 <= k < i && persistent[k] in d.root :: persistent[k] in kept
    {
      var value := persistent[i];
      var found;
      ok, found := volume.Lookup(Root, value);
      if !ok { return; }
      if value in d.root { PresentIsNotThroughLink(d.root, value); }
      if found.Some? { kept := kept + {value}; }
    }
    if !volume.faulty && Plannable(d, persistent) {
      assert kept == RetainedIn(d.root, persistent);
    }
    assert kept <= set p | p in persistent;
    ok, plan := Visit(volume, kept, []);
    if ok {
      RetainedAreReal(d, persistent, kept);
      assert kept == RetainedIn(d.root, persistent);
    }
  }

  /** The walk finds everything that has to move, and only that. */
  lemma WalkIsPlan(d: Disk, kept: set<Path>, plan: seq<ContentMove>)
    requires d.Sound() && Walked(d, kept, [], plan)
    ensures var o := Origin(d.root, d.candidate, map[], kept, [] in d.root);
            IsPlan(o, plan) && Covers(o, plan)
  {
    var o := Origin(d.root, d.candidate, map[], kept, [] in d.root);
    forall m | m in plan
      ensures IsMove(o, m)
    {
      if m.path in d.root { AncestorsPresent(d.root, [], m.path); }
    }
    forall j | 0 <= j < |plan| && plan[j].from == Candidate && plan[j].path in o.live
      ensures exists i | 0 <= i < j :: plan[i].path == plan[j].path && plan[i].from == Root
    {
      assert plan[j] in plan;
      LiveComesFirst(plan, j);
    }
    assert forall m | m in plan :: m.state == Planned;
  }

  lemma LiveComesFirst(plan: seq<ContentMove>, j: nat)
    requires LiveFirst(plan) && j < |plan| && plan[j].from == Candidate
    requires ContentMove(plan[j].path, Root, Previous, Planned) in plan
    ensures exists i | 0 <= i < j :: plan[i].path == plan[j].path && plan[i].from == Root
  {
    var i :| 0 <= i < |plan| && plan[i] == ContentMove(plan[j].path, Root, Previous, Planned);
    assert i < j;
  }

  predicate IsLink(t: Tree, p: Path) {
    p in t && t[p].Link?
  }

  /** No directory strictly above `p`, other than the root of the tree, is a link. */
  ghost predicate NoLinkAbove(t: Tree, p: Path, n: nat) {
    forall i | 0 < i < n && i <= |p| :: !IsLink(t, p[..i])
  }

  ghost predicate NoLinkedPlaces(t: Tree, persistent: seq<Path>) {
    forall k | 0 <= k < |persistent| :: NoLinkAbove(t, persistent[k], |persistent[k]|)
  }

  lemma NoLinkMeansNotThrough(t: Tree, p: Path, n: nat)
    requires NoLinkAbove(t, p, |p|) && !IsLink(t, []) && n < |p|
    ensures !ThroughLink(t, p[..n])
  {
    forall i | 0 <= i < n
      ensures !IsLink(t, p[..n][..i])
    {
      assert p[..n][..i] == p[..i];
    }
  }

  ghost predicate Startable(d: Disk, persistent: seq<Path>) {
    [] in d.candidate && !IsLink(d.candidate, []) && NoLinkedPlaces(d.candidate, persistent)
  }

  /** What an activation needs: a candidate, room for the previous release, and a plan. */
  ghost predicate Activatable(d: Disk, persistent: seq<Path>) {
    && Startable(d, persistent)
    && [] !in d.previous && Plannable(d, persistent)
  }
}
