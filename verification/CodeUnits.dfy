/** Text as the program's runtime sees it: a sequence of 16-bit code units. */
module CodeUnits {
  newtype CodeUnit = c: int | 0 <= c < 0x1_0000

  type Text = seq<CodeUnit>

  /** White space and line terminators. */
  predicate IsSpace(c: CodeUnit) {
    || 0x09 <= c <= 0x0d || c == 0x20 || c == 0xa0 || c == 0x1680 || 0x2000 <= c <= 0x200a
    || c == 0x2028 || c == 0x2029 || c == 0x202f || c == 0x205f || c == 0x3000 || c == 0xfeff
  }

  function TrimmedFront(t: Text): Text {
    if t != [] && IsSpace(t[0]) then TrimmedFront(t[1..]) else t
  }

  function TrimmedBack(t: Text): Text {
    if t != [] && IsSpace(t[|t| - 1]) then TrimmedBack(t[..|t| - 1]) else t
  }

  function Trimmed(t: Text): Text {
    TrimmedBack(TrimmedFront(t))
  }

  /** The white space and the line terminators of sections 12.2 and 12.3 of ECMA-262, one by one. */
  lemma SpacesAre(c: CodeUnit)
    ensures IsSpace(c) <==> c in {
      0x09, 0x0a, 0x0b, 0x0c, 0x0d, 0x20, 0xa0, 0x1680,
      0x2000, 0x2001, 0x2002, 0x2003, 0x2004, 0x2005, 0x2006, 0x2007, 0x2008, 0x2009, 0x200a,
      0x2028, 0x2029, 0x202f, 0x205f, 0x3000, 0xfeff}
  {
  }

  lemma {:induction false} FrontIsTrimmed(t: Text) returns (front: Text)
    ensures t == front + TrimmedFront(t) && forall c | c in front :: IsSpace(c)
    ensures TrimmedFront(t) != [] ==> !IsSpace(TrimmedFront(t)[0])
  {
    if t != [] && IsSpace(t[0]) {
      var rest := FrontIsTrimmed(t[1..]);
      front := [t[0]] + rest;
      assert t == [t[0]] + (rest + TrimmedFront(t[1..]));
    } else {
      front := [];
    }
  }

  lemma {:induction false} BackIsTrimmed(t: Text) returns (back: Text)
    ensures t == TrimmedBack(t) + back && forall c | c in back :: IsSpace(c)
    ensures TrimmedBack(t) != [] ==> !IsSpace(TrimmedBack(t)[|TrimmedBack(t)| - 1])
  {
    if t != [] && IsSpace(t[|t| - 1]) {
      var rest := BackIsTrimmed(t[..|t| - 1]);
      back := rest + [t[|t| - 1]];
      assert t == (TrimmedBack(t[..|t| - 1]) + rest) + [t[|t| - 1]];
    } else {
      back := [];
    }
  }

  /** Trimming takes white space off both ends, and all of it. */
  lemma TrimmedIsCore(t: Text) returns (front: Text, back: Text)
    ensures t == front + Trimmed(t) + back && forall c | c in front + back :: IsSpace(c)
    ensures Trimmed(t) != [] ==> !IsSpace(Trimmed(t)[0]) && !IsSpace(Trimmed(t)[|Trimmed(t)| - 1])
  {
    front := FrontIsTrimmed(t);
    back := BackIsTrimmed(TrimmedFront(t));
    assert TrimmedFront(t) == Trimmed(t) + back;
    if Trimmed(t) != [] { assert Trimmed(t)[0] == TrimmedFront(t)[0]; }
  }

  lemma TrimmedIsNothing(t: Text)
    ensures Trimmed(t) != [] <==> exists c :: c in t && !IsSpace(c)
  {
    var front, back := TrimmedIsCore(t);
    if Trimmed(t) != [] { assert Trimmed(t)[0] in t; }
  }
}
