/** Where the record of a whole-directory activation does not suffice: two different starts that pass through
    the same journal and the same trees. */
module DirectoryDoubts {
  import opened Collections
  import opened Trees
  import opened ReleaseTheory
  import opened ReleasePlan
  import opened ReleaseVolume
  import opened ReleasePlanning
  import opened DirectoryTheory
  import opened DirectoryRecords

  /** The candidate supplies a persistent path that is not live although its directory is. */
  predicate Doubtful(d: Disk, persistent: seq<Path>, v: Path) {
    v in persistent && v != [] && v in d.candidate && IsDir(d.root, Parent(v)) && v !in d.root
  }

  /** The same trees, had that been live data. */
  function HadBeenLive(d: Disk, v: Path): Disk {
    d.(root := d.root + Below(d.candidate, v), candidate := Without(d.candidate, v))
  }

  /** The same trees, had what stands where the previous release belongs been live. */
  function HadBeenRoot(d: Disk): Disk {
    d.(root := d.previous, previous := map[])
  }

  ghost predicate LookAlike(d: Disk, other: Disk, persistent: seq<Path>) {
    || (exists v :: Doubtful(d, persistent, v) && other == HadBeenLive(d, v))
    || ([] !in d.root && IsDir(d.previous, []) && other == HadBeenRoot(d))
  }

  /** `a` has live data at `v` in the previous release where `b` has it in the candidate. */
  ghost predicate Alike(a: Disk, b: Disk, v: Path) {
    && a.root == b.root && a.local == b.local
    && (forall q :: AlikeAt(a, b, v, q))
    && (forall q :: q <= v ==> q in b.candidate)
  }

  predicate AlikeAt(a: Disk, b: Disk, v: Path, q: Path) {
    if v <= q then q !in a.candidate && q !in b.previous && At(a.previous, q) == At(b.candidate, q)
    else At(a.candidate, q) == At(b.candidate, q) && At(a.previous, q) == At(b.previous, q)
  }

  lemma RenamedAt(d: Disk, from: Side, to: Side, p: Path, q: Path)
    requires from != to
    ensures At(Renamed(d, from, to, p).On(from), q) == if p <= q then None else At(d.On(from), q)
    ensures At(Renamed(d, from, to, p).On(to), q) == if p <= q && q in d.On(from) then At(d.On(from), q) else At(d.On(to), q)
    ensures forall side | side != from && side != to :: Renamed(d, from, to, p).On(side) == d.On(side)
  {
  }

  lemma RoomMadeAt(d: Disk, w: Path, q: Path)
    requires w != []
    ensures RoomMade(d, w).root == d.root && RoomMade(d, w).previous == d.previous
    ensures At(RoomMade(d, w).candidate, q) == if w <= q && w in d.candidate then None else At(d.candidate, q)
    ensures At(RoomMade(d, w).local, q) ==
            if w !in d.candidate then At(d.local, q)
            else if w <= q && q in d.candidate then At(d.candidate, q) else At(WithWay(d.local, Parent(w)), q)
  {
    if w in d.candidate {
      var d' := d.(local := WithWay(d.local, Parent(w)));
      RenamedAt(d', Candidate, Local, w, q);
      assert Renamed(d', Candidate, Local, w).On(Root) == d'.On(Root);
      assert Renamed(d', Candidate, Local, w).On(Previous) == d'.On(Previous);
    }
  }

  lemma BroughtOverAt(d: Disk, w: Path, q: Path)
    requires w != []
    ensures BroughtOver(d, w).root == d.root && BroughtOver(d, w).local == d.local
    ensures At(BroughtOver(d, w).previous, q) == if w <= q then None else At(d.previous, q)
    ensures At(BroughtOver(d, w).candidate, q) ==
            if w <= q && q in d.previous then At(d.previous, q)
            else if q < w && q !in d.candidate then Some(Dir) else At(d.candidate, q)
  {
    var d' := d.(candidate := WithWay(d.candidate, Parent(w)));
    RenamedAt(d', Previous, Candidate, w, q);
    WithWayAt(d.candidate, Parent(w), q);
    assert q <= Parent(w) <==> q < w;
    assert Renamed(d', Previous, Candidate, w).On(Root) == d'.On(Root);
    assert Renamed(d', Previous, Candidate, w).On(Local) == d'.On(Local);
  }

  lemma ApartAt(v: Path, w: Path, q: Path)
    requires !(v <= w) && !(w <= v)
    ensures v <= q ==> !(w <= q) && !(q <= w)
    ensures q <= v ==> !(w <= q)
  {
    if v <= q && w <= q { PrefixesCompare(v, w, q); }
    assert v <= q && q <= w ==> v <= w;
    assert q <= v && w <= q ==> w <= v;
  }

  /** Carrying any other path does not tell the two apart. */
  lemma RoomMadeAlike(a: Disk, b: Disk, v: Path, w: Path)
    requires Alike(a, b, v) && !(v <= w) && !(w <= v) && w != []
    ensures Alike(RoomMade(a, w), RoomMade(b, w), v)
  {
    assert AlikeAt(a, b, v, w);
    forall q
      ensures AlikeAt(RoomMade(a, w), RoomMade(b, w), v, q)
      ensures At(RoomMade(a, w).local, q) == At(RoomMade(b, w).local, q)
      ensures q <= v ==> q in RoomMade(b, w).candidate
    {
      ApartAt(v, w, q);
      RoomMadeAt(a, w, q);
      RoomMadeAt(b, w, q);
      assert AlikeAt(a, b, v, q);
    }
    SameAtSameTree(RoomMade(a, w).local, RoomMade(b, w).local);
    RoomMadeAt(a, w, w);
    RoomMadeAt(b, w, w);
  }

  lemma BroughtOverAlike(a: Disk, b: Disk, v: Path, w: Path)
    requires Alike(a, b, v) && !(v <= w) && !(w <= v) && w != []
    ensures Alike(BroughtOver(a, w), BroughtOver(b, w), v)
  {
    forall q
      ensures AlikeAt(BroughtOver(a, w), BroughtOver(b, w), v, q)
      ensures q <= v ==> q in BroughtOver(b, w).candidate
    {
      ApartAt(v, w, q);
      BroughtOverAt(a, w, q);
      BroughtOverAt(b, w, q);
      assert AlikeAt(a, b, v, q);
    }
    BroughtOverAt(a, w, w);
    BroughtOverAt(b, w, w);
  }

  lemma CarriedAlike(a: Disk, b: Disk, v: Path, w: Path)
    requires Alike(a, b, v) && !(v <= w) && !(w <= v)
    ensures Alike(Carried(a, w), Carried(b, w), v)
  {
    hide Alike, RoomMade, BroughtOver;
    AlikeHas(a, b, v, w);
    if w != [] && w in b.previous {
      RoomMadeAlike(a, b, v, w);
      BroughtOverAlike(RoomMade(a, w), RoomMade(b, w), v, w);
    }
  }

  lemma AlikeHas(a: Disk, b: Disk, v: Path, w: Path)
    requires Alike(a, b, v) && !(v <= w)
    ensures w in a.previous <==> w in b.previous
  {
    assert AlikeAt(a, b, v, w);
  }

  lemma StartAlike(d: Disk, persistent: seq<Path>, v: Path)
    requires d.Sound() && Doubtful(d, persistent, v)
    ensures Alike(Turn(HadBeenLive(d, v), persistent, 0), Turn(d, persistent, 0), v)
  {
    forall q
      ensures AlikeAt(Turn(HadBeenLive(d, v), persistent, 0), Turn(d, persistent, 0), v, q)
      ensures q <= v ==> q in d.candidate
    {
      if v <= q && q in d.root { AncestorsPresent(d.root, v, q); }
      if q <= v { AncestorsPresent(d.candidate, q, v); }
    }
  }

  lemma {:induction false} TurnsAlike(d: Disk, persistent: seq<Path>, v: Path, i: nat, k: nat)
    requires d.Sound() && Doubtful(d, persistent, v) && k <= i < |persistent| && persistent[i] == v
    requires Antichain(Elements(persistent)) && Distinct(persistent)
    ensures Alike(Turn(HadBeenLive(d, v), persistent, k), Turn(d, persistent, k), v)
    decreases k
  {
    if k == 0 {
      StartAlike(d, persistent, v);
    } else {
      TurnsAlike(d, persistent, v, i, k - 1);
      var w := persistent[k - 1];
      assert w in Elements(persistent) && v in Elements(persistent) && w != v;
      CarriedAlike(Turn(HadBeenLive(d, v), persistent, k - 1), Turn(d, persistent, k - 1), v, w);
    }
  }

  /** Once the live data has been brought over, the two are the same. */
  lemma BroughtOverIsSame(a: Disk, b: Disk, v: Path)
    requires Alike(a, b, v) && v != []
    ensures Carried(a, v) == b
  {
    assert AlikeAt(a, b, v, v);
    assert RoomMade(a, v) == a;
    forall q
      ensures At(BroughtOver(a, v).candidate, q) == At(b.candidate, q)
      ensures At(BroughtOver(a, v).previous, q) == At(b.previous, q)
    {
      BroughtOverAt(a, v, q);
      assert AlikeAt(a, b, v, q);
      assert q < v ==> q <= v && !(v <= q);
    }
    BroughtOverAt(a, v, v);
    SameAtSameTree(BroughtOver(a, v).candidate, b.candidate);
    SameAtSameTree(BroughtOver(a, v).previous, b.previous);
  }

  lemma {:induction false} LiveOfSame(a: Tree, b: Tree, paths: seq<Path>)
    requires forall w | w in paths :: w in a <==> w in b
    ensures LiveOf(a, paths) == LiveOf(b, paths)
  {
    if paths != [] { LiveOfSame(a, b, paths[..|paths| - 1]); }
  }

  /** The crash in which carried live data is not recorded yet, and the one in which the candidate's own data is
      about to be passed over, leave the same journal and the same trees. */
  lemma SameAtTurn(d: Disk, persistent: seq<Path>, v: Path, i: nat)
    requires d.Sound() && Doubtful(d, persistent, v) && i < |persistent| && persistent[i] == v
    requires Antichain(Elements(persistent)) && Distinct(persistent)
    ensures Turn(HadBeenLive(d, v), persistent, i + 1) == Turn(d, persistent, i)
    ensures LiveOf(HadBeenLive(d, v).root, persistent[..i]) == LiveOf(d.root, persistent[..i])
  {
    TurnsAlike(d, persistent, v, i, i);
    BroughtOverIsSame(Turn(HadBeenLive(d, v), persistent, i), Turn(d, persistent, i), v);
    forall w | w in persistent[..i]
      ensures w in HadBeenLive(d, v).root <==> w in d.root
    {
      var k :| 0 <= k < i && persistent[k] == w;
      assert w in Elements(persistent) && v in Elements(persistent) && w != v;
    }
    LiveOfSame(HadBeenLive(d, v).root, d.root, persistent[..i]);
  }

  lemma HadBeenLiveAt(d: Disk, v: Path, q: Path)
    requires d.Sound() && v !in d.root
    ensures At(HadBeenLive(d, v).root, q) == if v <= q then At(d.candidate, q) else At(d.root, q)
    ensures At(HadBeenLive(d, v).candidate, q) == if v <= q then None else At(d.candidate, q)
  {
    if v <= q && q in d.root { AncestorsPresent(d.root, v, q); }
  }

  /** The other start is as good as the first: nothing keeps its activation from succeeding. */
  lemma HadBeenLiveIsReplaceable(d: Disk, persistent: seq<Path>, v: Path)
    requires d.Sound() && Doubtful(d, persistent, v) && Replaceable(d, persistent) && Antichain(Elements(persistent))
    ensures HadBeenLive(d, v).Sound() && [] in d.root && HadBeenLive(d, v).root != d.root
    ensures Replaceable(HadBeenLive(d, v), persistent)
  {
    var d' := HadBeenLive(d, v);
    AncestorsPresent(d.root, [], Parent(v));
    GraftIsWellFormed(d.root, d.candidate, v);
    CutIsWellFormed(d.candidate, v);
    HadBeenLiveAt(d, v, v);
    HadBeenLiveAt(d, v, []);
    forall k | 0 <= k < |persistent|
      ensures NoLinkAbove(d'.candidate, persistent[k], |persistent[k]|)
    {
      assert NoLinkAbove(d.candidate, persistent[k], |persistent[k]|);
    }
    forall w | w in persistent
      ensures !ThroughLink(d'.root, w) && (w != [] && w in d'.root ==> ClearWay(d'.candidate, Parent(w)))
    {
      assert w in Elements(persistent) && v in Elements(persistent);
      HadBeenLiveAt(d, v, w);
      forall i | 0 <= i < |w| && w[..i] in d'.root
        ensures !d'.root[w[..i]].Link?
      {
        HadBeenLiveAt(d, v, w[..i]);
        assert v <= w[..i] ==> v <= w;
      }
      if w != [] && w in d'.root {
        if w == v { AncestorsPresent(d.candidate, Parent(v), v); PresentIsClear(d.candidate, Parent(v)); }
        assert ClearWay(d.candidate, Parent(w));
      }
    }
  }

  lemma HadBeenRootIsAside(d: Disk)
    requires d.Sound() && [] !in d.root
    ensures Aside(HadBeenRoot(d)) == d
  {
    forall q | q in d.root
      ensures false
    {
      AncestorsPresent(d.root, [], q);
    }
    assert d.root == map[];
  }

  /** The crash is the same for both starts. */
  ghost predicate IsCommon(d: Disk, other: Disk, persistent: seq<Path>, j: Journal, crash: Snapshot) {
    || (crash == Snapshot(j, d) && [] !in d.root && [] in other.root && [] !in other.previous && Aside(other) == d
        && other.candidate == d.candidate)
    || (exists i | 0 <= i < |persistent| ::
          && [] in d.root && [] in other.root && Replaceable(other, persistent)
          && crash == Snapshot(j.(originalMoved := true, moved := LiveOf(d.root, persistent[..i])), Turn(d, persistent, i))
          && crash == Snapshot(j.(originalMoved := true, moved := LiveOf(other.root, persistent[..i])), Turn(other, persistent, i + 1)))
  }

  lemma CommonCrash(d: Disk, other: Disk, persistent: seq<Path>, j: Journal) returns (crash: Snapshot)
    requires LookAlike(d, other, persistent) && d.Sound() && Replaceable(d, persistent)
    requires Antichain(Elements(persistent)) && Distinct(persistent)
    ensures IsCommon(d, other, persistent, j, crash) && d.root != other.root
  {
    if v :| Doubtful(d, persistent, v) && other == HadBeenLive(d, v) {
      HadBeenLiveIsReplaceable(d, persistent, v);
      HadBeenLiveAt(d, v, []);
      var i :| 0 <= i < |persistent| && persistent[i] == v;
      SameAtTurn(d, persistent, v, i);
      crash := Snapshot(j.(originalMoved := true, moved := LiveOf(d.root, persistent[..i])), Turn(d, persistent, i));
    } else {
      HadBeenRootIsAside(d);
      crash := Snapshot(j, d);
    }
  }

  lemma CommonCrashIsLogged(
    h: seq<Snapshot>, n: nat, h': seq<Snapshot>, n': nat, d: Disk, other: Disk, persistent: seq<Path>, j: Journal,
    crash: Snapshot, first: bool, second: bool)
    requires IsCommon(d, other, persistent, j, crash) && Replaceable(d, persistent)
    requires ActivationLogged(h, n, j, d, persistent, false, first) && ActivationLogged(h', n', j, other, persistent, false, second)
    requires Replaceable(d, persistent) ==> first
    requires Replaceable(other, persistent) ==> second
    ensures Logged(h, n, crash) && Logged(h', n', crash)
  {
    hide Logged, Turn, LiveOf;
    if crash == Snapshot(j, d) && [] !in d.root && [] in other.root && [] !in other.previous && Aside(other) == d
       && other.candidate == d.candidate {
      assert Startable(other, persistent);
    } else {
      var i :| 0 <= i < |persistent|
        && crash == Snapshot(j.(originalMoved := true, moved := LiveOf(d.root, persistent[..i])), Turn(d, persistent, i))
        && crash == Snapshot(j.(originalMoved := true, moved := LiveOf(other.root, persistent[..i])), Turn(other, persistent, i + 1))
        && [] in d.root && [] in other.root && Replaceable(other, persistent);
      assert TurnLogged(h, n, j.(originalMoved := true), d, persistent, i);
      assert TurnLogged(h', n', j.(originalMoved := true), other, persistent, i);
    }
  }

  /** Wherever there is doubt there is such another start, as ordinary as the first. */
  lemma DoubtHasLookAlike(d: Disk, persistent: seq<Path>) returns (other: Disk)
    requires d.Sound() && IsDir(d.candidate, []) && ([] in d.root ==> IsDir(d.root, [])) && Replaceable(d, persistent)
    requires !Undoubted(d.root, d, persistent) && Antichain(Elements(persistent))
    ensures LookAlike(d, other, persistent) && other.root != d.root
    ensures other.Sound() && IsDir(other.candidate, []) && IsDir(other.root, []) && other.local == d.local
  {
    if v :| Doubtful(d, persistent, v) {
      other := HadBeenLive(d, v);
      HadBeenLiveIsReplaceable(d, persistent, v);
      HadBeenLiveAt(d, v, []);
    } else {
      assert forall v | v in persistent && v != [] && v in d.candidate && IsDir(d.root, Parent(v)) :: !Doubtful(d, persistent, v);
      other := HadBeenRoot(d);
    }
  }
}
