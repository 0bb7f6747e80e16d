/** Which persistent paths a release retains: the highest admissible ones, as strings and as paths. */
module RetainedPaths {
  const ARTIFACTS: set<string> := {"node_modules", "vendor", ".next", ".next.backup", "dist", ".angular", ".turbo", "app.exe"}

  datatype Selection = Selected(paths: seq<string>) | InvalidPath

  /** The components between slashes; never empty. */
  function Components(s: string): (parts: seq<string>)
    ensures parts != []
  {
    if s == "" then [""]
    else if s[0] == '/' then [""] + Components(s[1..])
    else
      var rest := Components(s[1..]);
      [[s[0]] + rest[0]] + rest[1..]
  }

  /** Backslashes become slashes and one trailing slash is dropped. */
  function Normalized(s: string): string {
    var t := seq(|s|, i requires 0 <= i < |s| => if s[i] == '\\' then '/' else s[i]);
    if t != "" && t[|t| - 1] == '/' then t[..|t| - 1] else t
  }

  /** An absolute path has an empty first component or a colon, so it is refused here as well. */
  predicate Relative(s: string) {
    ':' !in s && forall part | part in Components(s) :: part !in {"", "..", "."}
  }

  predicate Admissible(s: string) {
    Components(s)[0] !in ARTIFACTS && !(".manager-" <= s) && !(".git" <= s)
  }

  /** `s` names something inside `parent`, as the program tests it. */
  predicate Inside(s: string, parent: string) {
    parent + "/" <= s
  }

  function Candidates(paths: seq<string>): (values: seq<string>)
    ensures forall v :: v in values <==> v != "" && exists p :: p in paths && Normalized(p) == v
  {
    if paths == [] then []
    else
      var first := Normalized(paths[0]);
      var rest := Candidates(paths[1..]);
      assert forall p :: p in paths <==> p == paths[0] || p in paths[1..];
      if first == "" then rest else [first] + rest
  }

  /** Shorter strings first; every parent comes before what lies inside it. */
  predicate ByLength(s: seq<string>) {
    forall i, j | 0 <= i < j < |s| :: |s[i]| <= |s[j]|
  }

  predicate NoRepeats(s: seq<string>) {
    forall i, j | 0 <= i < j < |s| :: s[i] != s[j]
  }

  function Insert(s: seq<string>, v: string): (r: seq<string>)
    requires ByLength(s) && NoRepeats(s)
    ensures ByLength(r) && NoRepeats(r)
    ensures forall x :: x in r <==> x == v || x in s
  {
    if v in s then s
    else if s == [] then [v]
    else if |v| < |s[0]| then [v] + s
    else
      assert s == [s[0]] + s[1..];
      var rest := Insert(s[1..], v);
      assert forall x | x in rest :: |s[0]| <= |x| && x != s[0] by {
        forall x | x in rest
          ensures |s[0]| <= |x| && x != s[0]
        {
          if x in s[1..] { var i :| 0 <= i < |s[1..]| && s[1..][i] == x; assert s[i + 1] == x; }
        }
      }
      [s[0]] + rest
  }

  /** The admissible ones among the values, each once, shorter ones first. */
  function Sorted(values: seq<string>): (r: seq<string>)
    ensures ByLength(r) && NoRepeats(r)
    ensures forall x :: x in r <==> x in values && Admissible(x)
  {
    if values == [] then []
    else
      assert forall x :: x in values <==> x == values[0] || x in values[1..];
      if Admissible(values[0]) then Insert(Sorted(values[1..]), values[0]) else Sorted(values[1..])
  }

  predicate HasParent(v: string, all: seq<string>) {
    exists i | 0 <= i < |all| :: Inside(v, all[i])
  }

  /** Keeps the first `n` entries of `all` that have no parent before them. */
  function Highest(all: seq<string>, n: nat): (r: seq<string>)
    requires n <= |all|
  {
    if n == 0 then []
    else
      var rest := Highest(all, n - 1);
      if HasParent(all[n - 1], all[..n - 1]) then rest else rest + [all[n - 1]]
  }

  function Retained(paths: seq<string>): Selection {
    var values := Candidates(paths);
    if exists v | v in values :: !Relative(v) then InvalidPath
    else
      var all := Sorted(values);
      Selected(Highest(all, |all|))
  }

  /** The program's prefix test on strings is the containment of paths. */
  lemma {:induction false} InsideIsBelow(s: string, parent: string)
    ensures Inside(s, parent) <==> Components(parent) < Components(s)
    decreases |parent|
  {
    if parent == "" {
      StartsWithSlash(s);
    } else if s == "" {
      assert |parent + "/"| > 0;
    } else {
      InsideIsBelow(s[1..], parent[1..]);
      assert parent + "/" == [parent[0]] + (parent[1..] + "/");
      assert s == [s[0]] + s[1..];
      var cs, cp := Components(s[1..]), Components(parent[1..]);
      if s[0] == parent[0] {
        assert Inside(s, parent) <==> Inside(s[1..], parent[1..]);
        if s[0] == '/' {
          assert Components(s) == [""] + cs && Components(parent) == [""] + cp;
          assert Components(s)[1..] == cs && Components(parent)[1..] == cp;
          PrefixTail("", cp, cs);
        } else {
          HeadPrefix(cp, cs, s[0]);
        }
      } else {
        assert !Inside(s, parent);
        assert s[0] != '/' ==> Components(s)[0][0] == s[0];
        assert parent[0] != '/' ==> Components(parent)[0][0] == parent[0];
        assert Components(s)[0] != Components(parent)[0];
      }
    }
  }

  lemma HeadPrefix(p: seq<string>, s: seq<string>, c: char)
    requires p != [] && s != []
    ensures ([[c] + p[0]] + p[1..]) < ([[c] + s[0]] + s[1..]) <==> p < s
  {
    PrefixTail(p[0], p[1..], s[1..]);
    PrefixTail([c] + p[0], p[1..], s[1..]);
    assert p == [p[0]] + p[1..] && s == [s[0]] + s[1..];
    assert ([c] + p[0])[1..] == p[0] && ([c] + s[0])[1..] == s[0];
    if p[0] == s[0] {
    } else {
      assert ([[c] + p[0]] + p[1..])[0] != ([[c] + s[0]] + s[1..])[0];
    }
  }

  lemma PrefixTail(head: string, p: seq<string>, s: seq<string>)
    ensures [head] + p < [head] + s <==> p < s
  {
    assert ([head] + p)[1..] == p && ([head] + s)[1..] == s;
    if [head] + p < [head] + s {
      assert [head] + p == ([head] + s)[..|p| + 1];
      assert p == s[..|p|];
    }
    if p < s {
      assert p == s[..|p|];
      assert [head] + p == ([head] + s)[..|p| + 1];
    }
  }

  lemma StartsWithSlash(s: string)
    ensures Inside(s, "") <==> [""] < Components(s)
  {
  }

  lemma {:induction false} HighestHaveNoParent(all: seq<string>, n: nat)
    requires n <= |all| && ByLength(all) && NoRepeats(all)
    ensures forall v :: v in Highest(all, n) <==> v in all[..n] && !HasParent(v, all[..n])
    ensures NoRepeats(Highest(all, n))
  {
    if n > 0 {
      HighestHaveNoParent(all, n - 1);
      var last := all[n - 1];
      assert all[..n] == all[..n - 1] + [last];
      forall v | v in all[..n]
        ensures !Inside(v, last)
      {
        var i :| 0 <= i < n && all[i] == v;
        assert i < n - 1 ==> |v| <= |last|;
      }
    }
  }

  /** What is retained: exactly the admissible inputs that lie inside no other admissible input. The
      order of the inputs, repetitions and the way of breaking ties between equal lengths do not matter. */
  lemma RetainsTheHighest(paths: seq<string>)
    ensures Retained(paths).InvalidPath? <==> exists p | p in paths :: Normalized(p) != "" && !Relative(Normalized(p))
    ensures Retained(paths).Selected? ==> NoRepeats(Retained(paths).paths)
    ensures Retained(paths).Selected? ==> forall v ::
              v in Retained(paths).paths <==>
                IsInput(paths, v) && !exists parent :: IsInput(paths, parent) && Inside(v, parent)
  {
    var values := Candidates(paths);
    assert (exists v | v in values :: !Relative(v)) <==> exists p | p in paths :: Normalized(p) != "" && !Relative(Normalized(p)) by {
      if p :| p in paths && Normalized(p) != "" && !Relative(Normalized(p)) { assert Normalized(p) in values; }
    }
    var all := Sorted(values);
    HighestHaveNoParent(all, |all|);
    assert all[..|all|] == all;
    assert forall v :: v in all <==> IsInput(paths, v);
  }

  ghost predicate IsInput(paths: seq<string>, v: string) {
    v != "" && Admissible(v) && exists p :: p in paths && Normalized(p) == v
  }

  /** The retained paths are independent of one another, and every admissible input is at or below
      one of them. */
  lemma RetainedIsAntichain(paths: seq<string>)
    requires Retained(paths).Selected?
    ensures forall v, w | v in Retained(paths).paths && w in Retained(paths).paths && Components(v) <= Components(w) :: v == w
    ensures forall v | IsInput(paths, v) :: exists w | w in Retained(paths).paths :: Components(w) <= Components(v)
  {
    RetainsTheHighest(paths);
    forall v, w | v in Retained(paths).paths && w in Retained(paths).paths && Components(v) <= Components(w)
      ensures v == w
    {
      InsideIsBelow(w, v);
      if Components(v) == Components(w) { ComponentsDetermine(v, w); }
    }
    forall v | IsInput(paths, v)
      ensures exists w | w in Retained(paths).paths :: Components(w) <= Components(v)
    {
      var w := HighestAbove(paths, v);
    }
  }

  lemma {:induction false} HighestAbove(paths: seq<string>, v: string) returns (w: string)
    requires Retained(paths).Selected? && IsInput(paths, v)
    ensures w in Retained(paths).paths && Components(w) <= Components(v)
    decreases |v|
  {
    RetainsTheHighest(paths);
    if v in Retained(paths).paths {
      w := v;
    } else {
      var parent :| IsInput(paths, parent) && Inside(v, parent);
      InsideIsBelow(v, parent);
      w := HighestAbove(paths, parent);
    }
  }

  lemma {:induction false} ComponentsDetermine(a: string, b: string)
    requires Components(a) == Components(b)
    ensures a == b
  {
    if a == "" || b == "" {
      assert forall x | x in [a, b] && x != "" :: Components(x)[0] == "" ==> |Components(x)| > 1;
    } else {
      var ca, cb := Components(a[1..]), Components(b[1..]);
      if a[0] == '/' {
        assert b[0] == '/';
        assert Components(a)[1..] == ca && Components(b)[1..] == cb;
      } else {
        assert b[0] != '/';
        assert Components(a)[0][1..] == ca[0] && Components(b)[0][1..] == cb[0];
        assert Components(a)[1..] == ca[1..] && Components(b)[1..] == cb[1..];
        assert ca == [ca[0]] + ca[1..] && cb == [cb[0]] + cb[1..];
      }
      ComponentsDetermine(a[1..], b[1..]);
      assert a == [a[0]] + a[1..] && b == [b[0]] + b[1..];
    }
  }

  // ---- In terms of the characters ----

  /** Every backslash is read as a slash, and a slash at the end is dropped, as Git writes one after a directory. */
  lemma NormalizedMeans(s: string)
    ensures var t := Normalized(s); var ends := s != "" && s[|s| - 1] in {'/', '\\'};
      && |t| == (if ends then |s| - 1 else |s|)
      && forall i | 0 <= i < |t| :: t[i] == if s[i] == '\\' then '/' else s[i]
  {
  }

  function Rejoined(parts: seq<string>): string {
    if parts == [] then "" else if |parts| == 1 then parts[0] else parts[0] + "/" + Rejoined(parts[1..])
  }

  /** The components are what stands between the slashes. */
  lemma {:induction false} ComponentsRejoin(s: string)
    ensures Rejoined(Components(s)) == s && forall part | part in Components(s) :: '/' !in part
  {
    if s != "" {
      ComponentsRejoin(s[1..]);
      var rest := Components(s[1..]);
      hide Rejoined;
      if s[0] == '/' { SlashRejoins(rest); } else { CharacterRejoins(s[0], rest); }
    }
  }

  lemma SlashRejoins(rest: seq<string>)
    requires rest != []
    ensures Rejoined([""] + rest) == ['/'] + Rejoined(rest)
  {
    assert ([""] + rest)[1..] == rest;
    assert "" + "/" == ['/'];
  }

  lemma CharacterRejoins(c: char, rest: seq<string>)
    requires rest != []
    ensures Rejoined([[c] + rest[0]] + rest[1..]) == [c] + Rejoined(rest)
  {
    var parts := [[c] + rest[0]] + rest[1..];
    assert parts[1..] == rest[1..];
    if |rest| > 1 {
      var tail := "/" + Rejoined(rest[1..]);
      assert ([c] + rest[0]) + tail == [c] + (rest[0] + tail);
      assert Rejoined(rest) == rest[0] + tail && Rejoined(parts) == ([c] + rest[0]) + tail;
    }
  }

  lemma {:induction false} FirstComponentIs(s: string, a: string)
    requires '/' !in a
    ensures Components(s)[0] == a <==> s == a || a + "/" <= s
    decreases |s|
  {
    if s == "" {
    } else if s[0] == '/' {
      assert a != "" ==> a[0] != '/';
      assert a == "" ==> a + "/" == "/" && "/" <= s;
    } else if a != "" {
      FirstComponentIs(s[1..], a[1..]);
      assert s == [s[0]] + s[1..] && a == [a[0]] + a[1..];
      assert a + "/" == [a[0]] + (a[1..] + "/");
      assert (a + "/" <= s) <==> (a[0] == s[0] && a[1..] + "/" <= s[1..]);
    }
  }

  /** Git's own files, the manager's and build output are never retained. */
  ghost predicate Excluded(v: string) {
    ".git" <= v || ".manager-" <= v || exists a | a in ARTIFACTS :: v == a || a + "/" <= v
  }

  lemma AdmissibleMeans(v: string)
    ensures Admissible(v) <==> !Excluded(v)
  {
    forall a | a in ARTIFACTS
      ensures Components(v)[0] == a <==> v == a || a + "/" <= v
    {
      FirstComponentIs(v, a);
    }
  }

  /** The path is absolute, has a colon, or steps through an empty, a current or a parent directory. */
  ghost predicate Irregular(v: string) {
    ':' in v || exists part | part in Components(v) :: part == "" || part == "." || part == ".."
  }

  lemma RelativeMeans(v: string)
    ensures Relative(v) <==> !Irregular(v)
  {
  }

  /** Nothing excluded is retained, and everything else is, itself or as part of something larger; one
      irregular path spoils the selection. */
  lemma RetainedInFull(paths: seq<string>)
    ensures Retained(paths).InvalidPath? <==> exists p | p in paths :: Normalized(p) != "" && Irregular(Normalized(p))
    ensures Retained(paths).Selected? ==> forall v | v in Retained(paths).paths :: !Excluded(v) && exists p | p in paths :: Normalized(p) == v
    ensures Retained(paths).Selected? ==>
              forall p | p in paths && Normalized(p) != "" && !Excluded(Normalized(p)) ::
                exists w | w in Retained(paths).paths :: w == Normalized(p) || w + "/" <= Normalized(p)
  {
    RetainsTheHighest(paths);
    forall v ensures Relative(v) <==> !Irregular(v) { RelativeMeans(v); }
    if Retained(paths).Selected? {
      forall v | v in Retained(paths).paths
        ensures !Excluded(v)
      {
        AdmissibleMeans(v);
      }
      forall p | p in paths && Normalized(p) != "" && !Excluded(Normalized(p))
        ensures exists w | w in Retained(paths).paths :: w == Normalized(p) || w + "/" <= Normalized(p)
      {
        AdmissibleMeans(Normalized(p));
        assert IsInput(paths, Normalized(p));
        var w := HighestAbove(paths, Normalized(p));
        InsideIsBelow(Normalized(p), w);
        if Components(w) == Components(Normalized(p)) { ComponentsDetermine(w, Normalized(p)); }
      }
    }
  }
}
