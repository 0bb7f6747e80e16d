/** What the whole-directory renames of a release do to the trees, independent of the code that
    performs them. */
module DirectoryTheory {
  import opened Collections
  import opened Trees
  import opened ReleaseTheory
  import opened ReleaseVolume
  import opened ReleasePlanning

  function Elements(s: seq<Path>): set<Path> {
    set p | p in s
  }

  ghost predicate Distinct(s: seq<Path>) {
    forall i, j | 0 <= i < j < |s| :: s[i] != s[j]
  }

  /** The tree a rollback restores: what was live, with the latest data of every path carried over. */
  function Restored(live: Tree, current: Tree, carried: set<Path>): Tree {
    (map q | q in live && !Under(q, carried) :: live[q]) + map q | q in current && Under(q, carried) :: current[q]
  }

  /** Where the three trees are while a directory activation or its rollback is under way. */
  ghost predicate Whereabouts(live: Tree, d: Disk, moved: seq<Path>, originalMoved: bool, candidateMoved: bool) {
    && d.Sound() && WellFormed(live)
    && Distinct(moved) && Antichain(Elements(moved)) && [] !in moved
    && (forall v | v in moved :: v in live)
    && (moved != [] ==> originalMoved)
    && (originalMoved ==> [] in live && forall q :: At(d.previous, q) == if Under(q, Elements(moved)) then None else At(live, q))
    && (originalMoved && !candidateMoved ==> d.root == map[])
    && (!originalMoved && !candidateMoved ==> d.root == live)
    && (!originalMoved && candidateMoved ==> live == map[])
    && (candidateMoved ==> d.candidate == map[])
  }

  lemma NothingIsElsewhere(d: Disk)
    requires d.Sound()
    ensures Whereabouts(d.root, d, [], false, false)
  {
  }

  lemma NoDrift(a: Disk, b: Disk)
    requires Drifted(a, b, {})
    ensures a == b
  {
    forall q
      ensures At(a.root, q) == At(b.root, q)
    {
      SameOutsideAt(a.root, b.root, {}, q);
    }
    SameAtSameTree(a.root, b.root);
  }

  lemma RestoredAt(live: Tree, current: Tree, carried: set<Path>, q: Path)
    ensures At(Restored(live, current, carried), q) == At(if Under(q, carried) then current else live, q)
  {
  }

  /** A whole tree moves with its root. */
  lemma RenameWhole(d: Disk, from: Side, to: Side)
    requires d.Sound() && from != to && [] in d.On(from) && d.On(to) == map[]
    ensures CanRename(d, from, to, [])
    ensures Renamed(d, from, to, []) == d.With(from, map[]).With(to, d.On(from))
    ensures Renamed(d, from, to, []).Sound()
  {
    assert Below(d.On(from), []) == d.On(from);
    assert Without(d.On(from), []) == map[];
    assert d.On(to) + Below(d.On(from), []) == d.On(from);
  }

  lemma UnderLast(moved: seq<Path>, q: Path)
    requires moved != []
    ensures Under(q, Elements(moved)) <==> Under(q, Elements(moved[..|moved| - 1])) || moved[|moved| - 1] <= q
  {
    var rest, v := moved[..|moved| - 1], moved[|moved| - 1];
    assert moved == rest + [v];
    assert Elements(moved) == Elements(rest) + {v};
    UnderInsert(q, Elements(rest), v);
  }

  /** The place a carried path came from is still there and still free. */
  lemma OldPlaceStands(live: Tree, d: Disk, moved: seq<Path>, originalMoved: bool, candidateMoved: bool)
    requires Whereabouts(live, d, moved, originalMoved, candidateMoved) && moved != []
    ensures originalMoved
    ensures var v := moved[|moved| - 1]; v != [] && v !in d.previous && IsDir(d.previous, Parent(v)) && IsDir(live, Parent(v))
  {
    var v := moved[|moved| - 1];
    assert v in Elements(moved) && Under(v, Elements(moved));
    forall w | w in Elements(moved)
      ensures !(w <= Parent(v))
    {
      assert w <= Parent(v) ==> w <= v;
    }
    assert At(d.previous, Parent(v)) == At(live, Parent(v));
  }

  /** Carrying the last path back puts its latest data where it was; what a rollback will restore
      stays the same. */
  lemma CarryBack(live: Tree, d: Disk, moved: seq<Path>, originalMoved: bool, candidateMoved: bool)
    requires Whereabouts(live, d, moved, originalMoved, candidateMoved) && moved != []
    requires moved[|moved| - 1] in d.On(if candidateMoved then Root else Candidate)
    ensures var side := if candidateMoved then Root else Candidate; var v := moved[|moved| - 1]; var rest := moved[..|moved| - 1];
            var live' := Restored(live, d.On(side), {v}); var d' := Renamed(d, side, Previous, v);
            && CanRename(d, side, Previous, v)
            && Whereabouts(live', d', rest, originalMoved, candidateMoved)
            && Restored(live', d'.On(side), Elements(rest)) == Restored(live, d.On(side), Elements(moved))
  {
    var side := if candidateMoved then Root else Candidate;
    var v, rest := moved[|moved| - 1], moved[..|moved| - 1];
    var live', d' := Restored(live, d.On(side), {v}), Renamed(d, side, Previous, v);
    OldPlaceStands(live, d, moved, originalMoved, candidateMoved);
    RenameTransfers(d, side, Previous, v);
    RestoredIsWellFormed(live, d.On(side), v);
    forall q
      ensures At(d'.previous, q) == if Under(q, Elements(rest)) then None else At(live', q)
      ensures At(Restored(live', d'.On(side), Elements(rest)), q) == At(Restored(live, d.On(side), Elements(moved)), q)
    {
      CarryBackAt(live, d, d', moved, side, q);
    }
    SameAtSameTree(Restored(live', d'.On(side), Elements(rest)), Restored(live, d.On(side), Elements(moved)));
    RestIsStillLive(live, d.On(side), moved);
  }

  lemma RestIsStillLive(live: Tree, current: Tree, moved: seq<Path>)
    requires moved != [] && Distinct(moved) && Antichain(Elements(moved)) && forall w | w in moved :: w in live
    ensures var v := moved[|moved| - 1]; var rest := moved[..|moved| - 1];
            && (forall w | w in rest :: w in Restored(live, current, {v}))
            && Distinct(rest) && Antichain(Elements(rest)) && Elements(rest) <= Elements(moved)
  {
    var v, rest := moved[|moved| - 1], moved[..|moved| - 1];
    assert moved == rest + [v];
    assert Elements(rest) <= Elements(moved);
    forall w | w in rest
      ensures w in Restored(live, current, {v})
    {
      assert w in moved && w in Elements(moved) && v in Elements(moved);
      assert !(v <= w);
      RestoredAt(live, current, {v}, w);
    }
  }

  lemma CarryBackAt(live: Tree, d: Disk, d': Disk, moved: seq<Path>, side: Side, q: Path)
    requires moved != [] && Distinct(moved) && Antichain(Elements(moved)) && side != Previous
    requires TransferredAt(d, d', side, Previous, moved[|moved| - 1], q)
    requires At(d.previous, q) == if Under(q, Elements(moved)) then None else At(live, q)
    ensures var v := moved[|moved| - 1]; var rest := moved[..|moved| - 1]; var live' := Restored(live, d.On(side), {v});
            && At(d'.previous, q) == (if Under(q, Elements(rest)) then None else At(live', q))
            && At(Restored(live', d'.On(side), Elements(rest)), q) == At(Restored(live, d.On(side), Elements(moved)), q)
  {
    var v, rest := moved[|moved| - 1], moved[..|moved| - 1];
    assert moved == rest + [v];
    UnderLast(moved, q);
    RestoredAt(live, d.On(side), {v}, q);
    RestoredAt(live, d.On(side), Elements(moved), q);
    RestoredAt(Restored(live, d.On(side), {v}), d'.On(side), Elements(rest), q);
    assert v in {v};
    if v <= q {
      forall w | w in Elements(rest)
        ensures !(w <= q)
      {
        assert w in Elements(moved) && v in Elements(moved);
        assert w != v by { var i :| 0 <= i < |rest| && rest[i] == w; assert moved[i] == w; }
        if w <= q { PrefixesCompare(v, w, q); }
      }
    }
  }

  lemma RestoredIsWellFormed(live: Tree, current: Tree, v: Path)
    requires WellFormed(live) && WellFormed(current) && v != [] && IsDir(live, Parent(v))
    ensures WellFormed(Restored(live, current, {v}))
  {
    var t := Restored(live, current, {v});
    forall q | q in t && q != []
      ensures IsDir(t, Parent(q))
    {
      RestoredAt(live, current, {v}, q);
      RestoredAt(live, current, {v}, Parent(q));
      if Under(q, {v}) && q != v { UnderProperly(q, {v}); }
      if !Under(q, {v}) { UnderParent(q, {v}); }
    }
  }

  /** A candidate into which live data has been carried: live at and below the carried paths, and
      elsewhere as built, but for directories added to hold them. */
  ghost predicate Assembled(live: Tree, built: Tree, t: Tree, carried: set<Path>) {
    forall q :: AssembledAt(live, built, t, carried, q)
  }

  ghost predicate AssembledAt(live: Tree, built: Tree, t: Tree, carried: set<Path>, q: Path) {
    if Under(q, carried) then At(t, q) == At(live, q)
    else At(t, q) == At(built, q) || (Above(q, carried) && IsDir(t, q) && q !in built)
  }

  /** `v` is independent of the paths carried so far. */
  ghost predicate Fresh(v: Path, moved: seq<Path>) {
    v != [] && forall w | w in moved :: !(v <= w) && !(w <= v)
  }

  lemma FreshIsNotUnder(v: Path, moved: seq<Path>, q: Path)
    requires Fresh(v, moved)
    ensures v <= q ==> !Under(q, Elements(moved))
    ensures q <= v ==> !Under(q, Elements(moved))
  {
    if v <= q {
      forall w | w in Elements(moved)
        ensures !(w <= q)
      {
        assert w in moved;
        if w <= q { PrefixesCompare(v, w, q); }
      }
    }
    assert forall w | w in Elements(moved) && q <= v && w <= q :: w in moved && w <= v;
  }

  /** What has not been carried over is in the previous release as it was live. */
  lemma FreshIsLive(live: Tree, d: Disk, moved: seq<Path>, v: Path)
    requires Whereabouts(live, d, moved, true, false) && Fresh(v, moved)
    ensures At(d.previous, v) == At(live, v) && d.Sound()
  {
    FreshIsNotUnder(v, moved, v);
  }

  lemma ElementsAppend(moved: seq<Path>, v: Path)
    ensures Elements(moved + [v]) == Elements(moved) + {v}
  {
  }

  /** Carrying one more path from the previous release into the candidate. */
  lemma CarryOver(live: Tree, d: Disk, moved: seq<Path>, v: Path)
    requires Whereabouts(live, d, moved, true, false) && Fresh(v, moved) && v in d.previous && Vacant(d.candidate, v)
    ensures CanRename(d, Previous, Candidate, v)
    ensures Whereabouts(live, Renamed(d, Previous, Candidate, v), moved + [v], true, false)
  {
    var d' := Renamed(d, Previous, Candidate, v);
    RenameTransfers(d, Previous, Candidate, v);
    assert d'.On(Root) == d.On(Root);
    ElementsAppend(moved, v);
    forall q
      ensures At(d'.previous, q) == if Under(q, Elements(moved + [v])) then None else At(live, q)
    {
      assert TransferredAt(d, d', Previous, Candidate, v, q);
      UnderInsert(q, Elements(moved), v);
    }
    FreshIsNotUnder(v, moved, v);
    assert At(d.previous, v) == At(live, v);
    forall w | w in Elements(moved)
      ensures w in moved
    {
    }
  }

  lemma AboveInsert(q: Path, s: set<Path>, p: Path)
    ensures Above(q, s + {p}) <==> Above(q, s) || q < p
  {
    if q < p { assert p in s + {p}; }
    assert forall f | f in s :: f in s + {p};
  }

  /** Everything in the tree is near one of the given paths: at, below or above it. */
  ghost predicate NearBy(t: Tree, done: seq<Path>) {
    forall q | q in t :: exists v | v in done :: q <= v || v <= q
  }

  lemma NearByMore(t: Tree, done: seq<Path>, v: Path)
    ensures NearBy(t, done) ==> NearBy(t, done + [v])
  {
    if NearBy(t, done) {
      forall q | q in t
        ensures exists w | w in done + [v] :: q <= w || w <= q
      {
        var w :| w in done && (q <= w || w <= q);
        assert w in done + [v];
      }
    }
  }

  lemma GrowsNearBy(a: Tree, b: Tree, done: seq<Path>, v: Path)
    requires v != [] && NearBy(a, done) && forall q | q in b :: q in a || q <= Parent(v)
    ensures NearBy(b, done + [v])
    ensures v !in a ==> v !in b
  {
    assert v in done + [v];
    forall q | q in b
      ensures exists w | w in done + [v] :: q <= w || w <= q
    {
      if q in a {
        var w :| w in done && (q <= w || w <= q);
        assert w in done + [v];
      }
    }
  }

  lemma MovedNearBy(a: Disk, b: Disk, done: seq<Path>, v: Path)
    requires NearBy(a.local, done + [v]) && forall q :: TransferredAt(a, b, Candidate, Local, v, q)
    ensures NearBy(b.local, done + [v])
    ensures forall q :: v <= q ==> q !in b.candidate
    ensures forall q :: !(v <= q) ==> At(b.candidate, q) == At(a.candidate, q) && At(b.local, q) == At(a.local, q)
  {
    assert v in done + [v];
    forall q
      ensures q in b.local ==> q in a.local || v <= q
      ensures !(v <= q) ==> At(b.local, q) == At(a.local, q)
      ensures if v <= q then q !in b.candidate else At(b.candidate, q) == At(a.candidate, q)
    {
      assert TransferredAt(a, b, Candidate, Local, v, q);
    }
  }

  /** While no other process writes, creating directories changes one tree only. */
  lemma GrowthAlone(a: Disk, b: Disk, side: Side, p: Path)
    requires GrownOn(a, b, side, p, {}) && side != Root
    ensures b == a.With(side, b.On(side))
    ensures forall q :: At(b.On(side), q) == At(a.On(side), q) || (q <= p && q !in a.On(side) && IsDir(b.On(side), q))
    ensures forall q | q in b.On(side) :: q in a.On(side) || q <= p
  {
    GrowthElsewhere(a, b, side, p, {});
    assert forall s | s != side && s != Root :: a.On(s) == b.On(s);
    assert side != Candidate ==> a.On(Candidate) == b.On(Candidate);
    assert side != Previous ==> a.On(Previous) == b.On(Previous);
    assert side != Local ==> a.On(Local) == b.On(Local);
    forall q ensures At(a.root, q) == At(b.root, q) { SameOutsideAt(a.root, b.root, {}, q); }
    SameAtSameTree(a.root, b.root);
    forall q
      ensures At(b.On(side), q) == At(a.On(side), q) || (q <= p && q !in a.On(side) && IsDir(b.On(side), q))
    {
      assert GrownAt(a, b, side, q, side, p, {});
    }
  }

  /** The candidate before a path arrives: assembled, but for what was taken from the path's place. */
  ghost predicate Roomy(live: Tree, built: Tree, t: Tree, moved: seq<Path>, v: Path) {
    forall q :: !(v <= q) ==> AssembledAt(live, built, t, Elements(moved), q)
  }

  lemma ArrivedIsAssembled(live: Tree, d: Disk, roomy: Disk, moved: seq<Path>, v: Path)
    requires Whereabouts(live, roomy, moved, true, false) && Fresh(v, moved) && CanRename(roomy, Previous, Candidate, v)
    requires forall q :: At(roomy.candidate, q) == At(d.candidate, q) || (q <= Parent(v) && q !in d.candidate && IsDir(roomy.candidate, q))
    ensures forall built | Roomy(live, built, d.candidate, moved, v) ::
              Assembled(live, built, Renamed(roomy, Previous, Candidate, v).candidate, Elements(moved + [v]))
  {
    var d' := Renamed(roomy, Previous, Candidate, v);
    RenameTransfers(roomy, Previous, Candidate, v);
    ElementsAppend(moved, v);
    forall built, q | Roomy(live, built, d.candidate, moved, v)
      ensures AssembledAt(live, built, d'.candidate, Elements(moved + [v]), q)
    {
      assert TransferredAt(roomy, d', Previous, Candidate, v, q);
      UnderInsert(q, Elements(moved), v);
      FreshIsNotUnder(v, moved, q);
      if v <= q {
        assert At(roomy.previous, q) == At(live, q);
      } else {
        AboveInsert(q, Elements(moved), v);
        assert AssembledAt(live, built, d.candidate, Elements(moved), q);
      }
    }
  }

  /** Nothing is lost while the carried data is as it was live: that is what a rollback puts back. */
  lemma IntactIsHome(live: Tree, current: Tree, moved: seq<Path>)
    requires SameInside(current, live, Elements(moved)) && forall v | v in moved :: v in live
    ensures Restored(live, current, Elements(moved)) == live
    ensures forall v | v in moved :: v in current
  {
    forall q
      ensures At(Restored(live, current, Elements(moved)), q) == At(live, q)
    {
      RestoredAt(live, current, Elements(moved), q);
      if Under(q, Elements(moved)) { SameInsideAt(current, live, Elements(moved), q); }
    }
    SameAtSameTree(Restored(live, current, Elements(moved)), live);
    forall v | v in moved
      ensures v in current
    {
      assert v in Elements(moved) && Under(v, Elements(moved));
      SameInsideAt(current, live, Elements(moved), v);
    }
  }

  /** Changes above and below the place of the next path do not touch what was carried before. */
  lemma CarriedStays(live: Tree, a: Tree, b: Tree, moved: seq<Path>, v: Path)
    requires SameInside(a, live, Elements(moved)) && Fresh(v, moved)
    requires forall q :: At(b, q) == At(a, q) || q <= v || v <= q
    ensures SameInside(b, live, Elements(moved))
  {
    forall q | Under(q, Elements(moved))
      ensures At(b, q) == At(a, q)
    {
      FreshIsNotUnder(v, moved, q);
    }
    InsideStays(a, b, live, Elements(moved));
  }

  /** A path arrives as it was live, beside those that arrived before. */
  lemma CarriedMore(live: Tree, d: Disk, moved: seq<Path>, v: Path)
    requires Whereabouts(live, d, moved, true, false) && Fresh(v, moved) && CanRename(d, Previous, Candidate, v)
    requires SameInside(d.candidate, live, Elements(moved))
    ensures SameInside(Renamed(d, Previous, Candidate, v).candidate, live, Elements(moved + [v]))
  {
    var d' := Renamed(d, Previous, Candidate, v);
    RenameTransfers(d, Previous, Candidate, v);
    ElementsAppend(moved, v);
    forall q | q in d'.candidate.Keys + live.Keys && Under(q, Elements(moved + [v]))
      ensures At(d'.candidate, q) == At(live, q)
    {
      assert TransferredAt(d, d', Previous, Candidate, v, q);
      UnderInsert(q, Elements(moved), v);
      if v <= q {
        FreshIsNotUnder(v, moved, q);
        assert At(d.previous, q) == At(live, q);
      } else {
        SameInsideAt(d.candidate, live, Elements(moved), q);
      }
    }
  }

  /** No link is on the way to live data, and no file on the way to the place it will be carried to. */
  ghost predicate Carriable(live: Tree, built: Tree, persistent: seq<Path>) {
    forall v | v in persistent :: !ThroughLink(live, v) && (v != [] && v in live ==> ClearWay(built, Parent(v)))
  }

  /** What an activation by whole directories needs: a candidate, room for the previous release, and nothing
      in the way of the retained data. */
  ghost predicate Replaceable(d: Disk, persistent: seq<Path>) {
    && Startable(d, persistent)
    && ([] in d.root ==> [] !in d.previous && Carriable(d.root, d.candidate, persistent))
  }

  /** There is room to put aside what stands at the place of any of these paths. */
  ghost predicate Room(local: Tree, persistent: seq<Path>) {
    forall v | v in persistent && v != [] :: ClearWay(local, Parent(v))
  }

  lemma RoomStays(a: Tree, b: Tree, persistent: seq<Path>, v: Path)
    requires Room(a, persistent) && v in persistent && Antichain(Elements(persistent)) && [] !in persistent
    requires forall q :: !(v <= q) ==> At(b, q) == At(a, q) || IsDir(b, q)
    ensures Room(b, persistent)
  {
    forall w, i | w in persistent && w != [] && 0 <= i <= |Parent(w)| && Parent(w)[..i] in b
      ensures b[Parent(w)[..i]] == Dir
    {
      var q := Parent(w)[..i];
      assert q <= w && |q| < |w|;
      assert w in Elements(persistent) && v in Elements(persistent);
      assert v <= q ==> v <= w;
      assert At(b, q) == At(a, q) || IsDir(b, q);
    }
  }

  /** The way to the next path is as clear as it was before anything was carried. */
  lemma NextWayIsClear(live: Tree, built: Tree, d: Disk, moved: seq<Path>, v: Path)
    requires Whereabouts(live, d, moved, true, false) && Fresh(v, moved) && Assembled(live, built, d.candidate, Elements(moved))
    ensures !ThroughLink(live, v) ==> !ThroughLink(d.previous, v)
    ensures ClearWay(built, Parent(v)) ==> ClearWay(d.candidate, Parent(v))
  {
    forall i | 0 <= i < |v|
      ensures At(d.previous, v[..i]) == At(live, v[..i])
      ensures At(d.candidate, v[..i]) == At(built, v[..i]) || IsDir(d.candidate, v[..i])
    {
      FreshIsNotUnder(v, moved, v[..i]);
      assert AssembledAt(live, built, d.candidate, Elements(moved), v[..i]);
    }
    assert forall i | 0 <= i <= |Parent(v)| :: Parent(v)[..i] == v[..i];
    if ClearWay(built, Parent(v)) {
      forall i | 0 <= i <= |Parent(v)| && Parent(v)[..i] in d.candidate
        ensures d.candidate[Parent(v)[..i]] == Dir
      {
        assert Parent(v)[..i] in built ==> built[Parent(v)[..i]] == Dir;
      }
    }
  }

  lemma WayStaysClear(a: Tree, b: Tree, v: Path)
    requires v != [] && ClearWay(a, Parent(v)) && forall q :: !(v <= q) ==> At(b, q) == At(a, q)
    ensures ClearWay(b, Parent(v))
  {
    forall i | 0 <= i <= |Parent(v)| && Parent(v)[..i] in b
      ensures b[Parent(v)[..i]] == Dir
    {
      assert |Parent(v)[..i]| < |v|;
      assert At(b, Parent(v)[..i]) == At(a, Parent(v)[..i]);
    }
  }

  lemma NextIsFresh(live: Tree, d: Disk, persistent: seq<Path>, moved: seq<Path>, i: nat)
    requires Independent(persistent) && Distinct(persistent) && i < |persistent|
    requires Elements(moved) == RetainedIn(live, persistent[..i]) && NearBy(d.local, persistent[..i])
    ensures Fresh(persistent[i], moved) && persistent[i] !in d.local
  {
    var v := persistent[i];
    assert v in persistent && v in Elements(persistent);
    forall w | w in persistent[..i]
      ensures !(v <= w) && !(w <= v)
    {
      var k :| 0 <= k < i && persistent[k] == w;
      assert w in Elements(persistent);
    }
    forall w | w in moved
      ensures w in persistent[..i]
    {
      assert w in Elements(moved);
    }
  }

  lemma RetainedInMore(live: Tree, persistent: seq<Path>, i: nat)
    requires i < |persistent|
    ensures persistent[..i + 1] == persistent[..i] + [persistent[i]]
    ensures RetainedIn(live, persistent[..i + 1]) ==
            RetainedIn(live, persistent[..i]) + (if persistent[i] in live then {persistent[i]} else {})
  {
  }

  lemma PlaceIsNotLinked(live: Tree, built: Tree, t: Tree, moved: seq<Path>, v: Path)
    requires Assembled(live, built, t, Elements(moved)) && Fresh(v, moved)
    requires IsDir(built, []) && NoLinkAbove(built, v, |v|)
    ensures !ThroughLink(t, v)
  {
    forall i | 0 <= i < |v|
      ensures !IsLink(t, v[..i])
    {
      FreshIsNotUnder(v, moved, v[..i]);
      assert AssembledAt(live, built, t, Elements(moved), v[..i]);
    }
  }

  lemma RoomIsRoomy(live: Tree, built: Tree, a: Tree, b: Tree, moved: seq<Path>, v: Path)
    requires Assembled(live, built, a, Elements(moved)) && forall q :: !(v <= q) ==> At(b, q) == At(a, q)
    ensures Roomy(live, built, b, moved, v)
  {
    forall q | !(v <= q)
      ensures AssembledAt(live, built, b, Elements(moved), q)
    {
      assert AssembledAt(live, built, a, Elements(moved), q);
    }
  }

  lemma NothingCarried(live: Tree, built: Tree)
    ensures Assembled(live, built, built, {}) && Elements([]) == {}
  {
  }

  lemma AssembledHasRoot(live: Tree, built: Tree, t: Tree, moved: seq<Path>)
    requires Assembled(live, built, t, Elements(moved)) && [] in built && [] !in moved
    ensures [] in t
  {
    assert AssembledAt(live, built, t, Elements(moved), []);
    assert forall v | v in Elements(moved) && v <= [] :: v == [];
  }

  lemma NothingToRestore(live: Tree, current: Tree)
    ensures Elements([]) == {} && Restored(live, current, {}) == live
  {
  }

  lemma PreviousIsLive(live: Tree, d: Disk, candidateMoved: bool)
    requires Whereabouts(live, d, [], true, candidateMoved)
    ensures d.previous == live
  {
    SameAtSameTree(d.previous, live);
  }

  /** Returning one carried path does not affect whether the others can return. */
  lemma ReturnKeepsReturnable(live: Tree, d: Disk, moved: seq<Path>, originalMoved: bool, candidateMoved: bool)
    requires Whereabouts(live, d, moved, originalMoved, candidateMoved) && moved != []
    requires CanRename(d, if candidateMoved then Root else Candidate, Previous, moved[|moved| - 1])
    ensures var side := if candidateMoved then Root else Candidate; var v := moved[|moved| - 1]; var rest := moved[..|moved| - 1];
            && ((forall w | w in rest :: w in Renamed(d, side, Previous, v).On(side)) <==> (forall w | w in moved :: w in d.On(side)))
            && ([] in Renamed(d, side, Previous, v).On(side) <==> [] in d.On(side))
  {
    var side := if candidateMoved then Root else Candidate;
    var v, rest := moved[|moved| - 1], moved[..|moved| - 1];
    var d' := Renamed(d, side, Previous, v);
    assert moved == rest + [v];
    RenameTransfers(d, side, Previous, v);
    assert TransferredAt(d, d', side, Previous, v, []);
    assert forall w | w in moved :: w in rest || w == v;
    assert forall w | w in rest :: w in moved;
    forall w | w in rest
      ensures w in d'.On(side) <==> w in d.On(side)
    {
      assert TransferredAt(d, d', side, Previous, v, w);
      assert w in Elements(moved) && v in Elements(moved);
      var i :| 0 <= i < |rest| && rest[i] == w;
      assert moved[i] == w;
    }
  }

  /** The tree a rollback would restore, read off the trees alone: the candidate tells whether it has reached
      the root, the root whether the original has left it, and the two ends of a path whether it was carried. */
  function Readable(d: Disk, persistent: seq<Path>): Tree {
    var current := if [] in d.candidate then d.candidate else d.root;
    if [] in d.candidate && [] in d.root then d.root
    else Restored(d.previous, current, set v | v in persistent && v !in d.previous && v in current)
  }

  /** However an activation of a live tree or its rollback is interrupted, the trees alone tell what to restore
      exactly when no persistent path is supplied by the candidate only. */
  lemma TreesTell(live: Tree, d: Disk, moved: seq<Path>, originalMoved: bool, candidateMoved: bool, persistent: seq<Path>)
    requires Whereabouts(live, d, moved, originalMoved, candidateMoved) && (candidateMoved || [] in d.candidate)
    requires [] in live && [] !in persistent && Antichain(Elements(persistent))
    requires forall v | v in moved :: v in persistent && v in d.On(if candidateMoved then Root else Candidate)
    ensures candidateMoved <==> [] !in d.candidate
    ensures originalMoved <==> !([] in d.candidate && [] in d.root)
    ensures var current := d.On(if candidateMoved then Root else Candidate);
            Readable(d, persistent) == Restored(live, current, Elements(moved)) <==>
            (originalMoved ==> forall v | v in persistent && v in current :: v in live)
  {
    var current := d.On(if candidateMoved then Root else Candidate);
    if originalMoved {
      var seen := set v | v in persistent && v !in d.previous && v in current;
      forall v | v in persistent
        ensures v in moved ==> v in seen
        ensures v !in moved ==> !Under(v, Elements(moved)) && (v in seen <==> v !in live && v in current)
      {
        assert At(d.previous, v) == if Under(v, Elements(moved)) then None else At(live, v);
        assert v in Elements(persistent);
        forall w | w in Elements(moved) && w <= v
          ensures w == v
        {
          assert w in moved && w in Elements(persistent);
        }
        if v in moved { assert v in Elements(moved) && v <= v; }
      }
      if forall v | v in persistent && v in current :: v in live {
        assert seen == Elements(moved);
        forall q
          ensures At(Restored(d.previous, current, seen), q) == At(Restored(live, current, seen), q)
        {
          RestoredAt(d.previous, current, seen, q);
          RestoredAt(live, current, seen, q);
        }
        SameAtSameTree(Restored(d.previous, current, seen), Restored(live, current, seen));
      } else {
        var v :| v in persistent && v in current && v !in live;
        assert v in seen && v !in moved;
        RestoredAt(d.previous, current, seen, v);
        RestoredAt(live, current, Elements(moved), v);
      }
    } else {
      assert moved == [];
      NothingToRestore(live, current);
    }
  }
}
