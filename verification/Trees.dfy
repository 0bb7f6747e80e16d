/** Directory trees as finite maps from relative paths to entries, and the one operation that
    moves a subtree between two trees of a release without changing its relative path. */
module Trees {
  import opened Collections

  type Name = string
  type Path = seq<Name>

  datatype Entry = Dir | File(data: string) | Link(target: string)

  /** `[]` is the directory the tree is rooted at; a tree without it does not exist on disk. */
  type Tree = map<Path, Entry>

  function At(t: Tree, p: Path): Option<Entry> {
    if p in t then Some(t[p]) else None
  }

  function Parent(p: Path): Path
    requires p != []
  {
    p[..|p| - 1]
  }

  predicate IsDir(t: Tree, p: Path) {
    p in t && t[p] == Dir
  }

  /** Every entry but the root of the tree lies in an ordinary directory of the tree. */
  predicate WellFormed(t: Tree) {
    forall p {:trigger Parent(p), p in t} | p in t && p != [] :: IsDir(t, Parent(p))
  }

  /** `q` is one of the paths in `s` or lies below one of them. */
  predicate Under(q: Path, s: set<Path>) {
    exists p | p in s :: p <= q
  }

  /** `q` lies strictly above one of the paths in `s`. */
  predicate Above(q: Path, s: set<Path>) {
    exists p | p in s :: q < p
  }

  predicate Antichain(s: set<Path>) {
    forall p, q | p in s && q in s && p <= q :: p == q
  }

  function Below(t: Tree, p: Path): Tree {
    map q | q in t && p <= q :: t[q]
  }

  function Without(t: Tree, p: Path): Tree {
    map q | q in t && !(p <= q) :: t[q]
  }

  /** The four trees a release works with. All of its renames keep the relative path. */
  datatype Side = Root | Candidate | Previous | Local

  datatype Disk = Disk(root: Tree, candidate: Tree, previous: Tree, local: Tree) {
    function On(side: Side): Tree {
      match side
      case Root => root
      case Candidate => candidate
      case Previous => previous
      case Local => local
    }

    function With(side: Side, t: Tree): Disk {
      match side
      case Root => this.(root := t)
      case Candidate => this.(candidate := t)
      case Previous => this.(previous := t)
      case Local => this.(local := t)
    }

    predicate Sound() {
      WellFormed(root) && WellFormed(candidate) && WellFormed(previous) && WellFormed(local)
    }
  }

  /** A directory entry can be created at `p`: nothing is there and its parent is a directory.
      The root of a tree hangs in a directory outside the tree, which always exists. */
  predicate Vacant(t: Tree, p: Path) {
    p !in t && (p == [] || IsDir(t, Parent(p)))
  }

  /** What the operating system demands of a rename that must not replace anything. */
  predicate CanRename(d: Disk, from: Side, to: Side, p: Path) {
    from != to && p in d.On(from) && Vacant(d.On(to), p)
  }

  function Renamed(d: Disk, from: Side, to: Side, p: Path): Disk {
    d.With(from, Without(d.On(from), p)).With(to, d.On(to) + Below(d.On(from), p))
  }

  lemma {:induction false} AncestorsPresent(t: Tree, p: Path, q: Path)
    requires WellFormed(t) && q in t && p <= q
    ensures p in t
    ensures p != q ==> t[p] == Dir
    decreases |q|
  {
    if p != q {
      assert p <= Parent(q);
      AncestorsPresent(t, p, Parent(q));
    }
  }

  predicate ThroughLink(t: Tree, p: Path) {
    exists i | 0 <= i < |p| :: p[..i] in t && t[p[..i]].Link?
  }

  /** No file or link stands where a directory on the way to `p` would have to be. */
  ghost predicate ClearWay(t: Tree, p: Path) {
    forall i | 0 <= i <= |p| :: p[..i] in t ==> t[p[..i]] == Dir
  }

  lemma PresentIsNotThroughLink(t: Tree, p: Path)
    requires WellFormed(t) && (p in t || p == [] || IsDir(t, Parent(p)))
    ensures !ThroughLink(t, p)
  {
    forall i | 0 <= i < |p| && p[..i] in t
      ensures !t[p[..i]].Link?
    {
      var q := if p in t then p else Parent(p);
      AncestorsPresent(t, p[..i], q);
    }
  }

  lemma SameAtSameTree(a: Tree, b: Tree)
    requires forall q :: At(a, q) == At(b, q)
    ensures a == b
  {
    forall q
      ensures q in a <==> q in b
      ensures q in a ==> a[q] == b[q]
    {
      assert At(a, q) == At(b, q);
    }
  }

  lemma PresentIsClear(t: Tree, p: Path)
    requires WellFormed(t) && IsDir(t, p)
    ensures ClearWay(t, p)
  {
    forall i | 0 <= i <= |p| && p[..i] in t
      ensures t[p[..i]] == Dir
    {
      AncestorsPresent(t, p[..i], p);
    }
  }

  lemma CutIsWellFormed(t: Tree, p: Path)
    requires WellFormed(t)
    ensures WellFormed(Without(t, p))
    ensures forall q :: At(Without(t, p), q) == if p <= q then None else At(t, q)
  {
    forall q | q in Without(t, p) && q != []
      ensures IsDir(Without(t, p), Parent(q))
    {
      assert p <= Parent(q) ==> p <= q;
    }
  }

  lemma GraftIsWellFormed(target: Tree, source: Tree, p: Path)
    requires WellFormed(target) && WellFormed(source) && Vacant(target, p)
    ensures WellFormed(target + Below(source, p))
    ensures forall q :: At(target + Below(source, p), q) == if p <= q then At(source, q) else At(target, q)
  {
    forall q | q in target
      ensures !(p <= q)
    {
      if p <= q { AncestorsPresent(target, p, q); }
    }
    forall q | q in target + Below(source, p) && q != []
      ensures IsDir(target + Below(source, p), Parent(q))
    {
      if p <= q {
        if p != q {
          assert p <= Parent(q);
          assert Parent(q) in Below(source, p);
        }
      } else {
        assert q in target && !(p <= Parent(q));
      }
    }
  }

  /** A rename moves exactly the entries at and below `p`, and no tree loses its shape. */
  lemma RenameMovesSubtree(d: Disk, from: Side, to: Side, p: Path)
    requires d.Sound() && CanRename(d, from, to, p)
    ensures Renamed(d, from, to, p).Sound()
    ensures forall q :: At(Renamed(d, from, to, p).On(from), q) == if p <= q then None else At(d.On(from), q)
    ensures forall q :: At(Renamed(d, from, to, p).On(to), q) == if p <= q then At(d.On(from), q) else At(d.On(to), q)
    ensures forall side | side != from && side != to :: Renamed(d, from, to, p).On(side) == d.On(side)
  {
    CutIsWellFormed(d.On(from), p);
    GraftIsWellFormed(d.On(to), d.On(from), p);
  }
}
