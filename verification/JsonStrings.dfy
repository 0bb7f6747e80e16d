/** Strings as JSON writes and reads them: section 7 of RFC 8259, on code units, with lone surrogates
    escaped on the way out and accepted on the way in. */
module JsonStrings {
  import opened Collections
  import opened CodeUnits

  const QUOTE: CodeUnit := 0x22
  const BACKSLASH: CodeUnit := 0x5c

  predicate IsLead(c: CodeUnit) {
    0xd800 <= c <= 0xdbff
  }

  predicate IsTrail(c: CodeUnit) {
    0xdc00 <= c <= 0xdfff
  }

  function HexDigit(n: int): (c: CodeUnit)
    requires 0 <= n < 16
    ensures HexValue(c) == Some(n)
  {
    if n < 10 then (0x30 + n) as CodeUnit else (0x61 + n - 10) as CodeUnit
  }

  function HexValue(c: CodeUnit): (n: Option<int>)
    ensures n.Some? ==> 0 <= n.value < 16
  {
    if 0x30 <= c <= 0x39 then Some(c as int - 0x30)
    else if 0x41 <= c <= 0x46 then Some(c as int - 0x41 + 10)
    else if 0x61 <= c <= 0x66 then Some(c as int - 0x61 + 10)
    else None
  }

  function UnicodeEscape(c: CodeUnit): Text {
    var n := c as int;
    var n1, n2 := n / 16, n / 16 / 16;
    [BACKSLASH, 0x75, HexDigit(n2 / 16), HexDigit(n2 % 16), HexDigit(n1 % 16), HexDigit(n % 16)]
  }

  /** The letter of a two-character escape, for the units that have one. */
  function ShortEscape(c: CodeUnit): Option<CodeUnit> {
    if c == 0x08 then Some(0x62)
    else if c == 0x09 then Some(0x74)
    else if c == 0x0a then Some(0x6e)
    else if c == 0x0c then Some(0x66)
    else if c == 0x0d then Some(0x72)
    else if c == QUOTE || c == BACKSLASH then Some(c)
    else None
  }

  function EscapedUnit(c: CodeUnit): Text {
    if ShortEscape(c).Some? then [BACKSLASH, ShortEscape(c).value]
    else if c < 0x20 || IsLead(c) || IsTrail(c) then UnicodeEscape(c)
    else [c]
  }

  predicate StartsWithPair(v: Text) {
    |v| >= 2 && IsLead(v[0]) && IsTrail(v[1])
  }

  /** The inside of the quoted string. */
  function Escaped(v: Text): Text {
    if v == [] then []
    else if StartsWithPair(v) then v[..2] + Escaped(v[2..])
    else EscapedUnit(v[0]) + Escaped(v[1..])
  }

  function Quoted(v: Text): Text {
    [QUOTE] + Escaped(v) + [QUOTE]
  }

  /** What a two-character escape stands for. */
  function ShortUnescape(c: CodeUnit): Option<CodeUnit> {
    if c == 0x62 then Some(0x08)
    else if c == 0x74 then Some(0x09)
    else if c == 0x6e then Some(0x0a)
    else if c == 0x66 then Some(0x0c)
    else if c == 0x72 then Some(0x0d)
    else if c == QUOTE || c == BACKSLASH || c == 0x2f then Some(c)
    else None
  }

  /** The code unit at the front of the inside of a string, and how many units spell it. */
  function FirstUnit(s: Text): (u: Option<(CodeUnit, nat)>)
    ensures u.Some? ==> 0 < u.value.1 <= |s|
  {
    if s == [] || s[0] < 0x20 || s[0] == QUOTE then None
    else if s[0] != BACKSLASH then Some((s[0], 1))
    else if |s| < 2 then None
    else if s[1] != 0x75 then
      if ShortUnescape(s[1]).Some? then Some((ShortUnescape(s[1]).value, 2)) else None
    else if |s| < 6 then None
    else
      var a, b, c, d := HexValue(s[2]), HexValue(s[3]), HexValue(s[4]), HexValue(s[5]);
      if a.None? || b.None? || c.None? || d.None? then None
      else Some(((a.value * 0x1000 + b.value * 0x100 + c.value * 16 + d.value) as CodeUnit, 6))
  }

  /** Reads up to the closing quote, which must be the end. */
  function Unescaped(s: Text): Option<Text>
    decreases |s|
  {
    if s == [QUOTE] then Some([])
    else
      var u := FirstUnit(s);
      if u.None? then None
      else
        var rest := Unescaped(s[u.value.1..]);
        if rest.None? then None else Some([u.value.0] + rest.value)
  }

  /** Reads a quoted string. */
  function Unquoted(s: Text): Option<Text>
    requires s != [] && s[0] == QUOTE
  {
    Unescaped(s[1..])
  }

  lemma EscapeReadsBack(c: CodeUnit, rest: Text)
    ensures FirstUnit(EscapedUnit(c) + rest) == Some((c, |EscapedUnit(c)|))
  {
    if ShortEscape(c).None? && (c < 0x20 || IsLead(c) || IsTrail(c)) {
      UnicodeReadsBack(c, rest);
    }
  }

  lemma UnicodeReadsBack(c: CodeUnit, rest: Text)
    ensures FirstUnit(UnicodeEscape(c) + rest) == Some((c, 6))
  {
    var n := c as int;
    var n1, n2 := n / 16, n / 16 / 16;
    var s := UnicodeEscape(c) + rest;
    assert s[0] == BACKSLASH && s[1] == 0x75;
    assert HexValue(s[2]) == Some(n2 / 16) && HexValue(s[3]) == Some(n2 % 16);
    assert HexValue(s[4]) == Some(n1 % 16) && HexValue(s[5]) == Some(n % 16);
    hide HexValue, HexDigit, UnicodeEscape;
    assert n == n2 / 16 * 0x1000 + n2 % 16 * 0x100 + n1 % 16 * 16 + n % 16;
  }

  lemma {:induction false} EscapedReadsBack(v: Text)
    ensures Unescaped(Escaped(v) + [QUOTE]) == Some(v)
    decreases |v|
  {
    hide FirstUnit, EscapedUnit, Unescaped;
    if v == [] {
      NothingReadsBack();
      assert Escaped(v) + [QUOTE] == [QUOTE];
    } else if StartsWithPair(v) {
      EscapedReadsBack(v[2..]);
      var tail := Escaped(v[2..]) + [QUOTE];
      assert Escaped(v) + [QUOTE] == [v[0]] + ([v[1]] + tail);
      FrontUnit(v[0], [v[1]] + tail);
      FrontUnit(v[1], tail);
      assert v == [v[0]] + ([v[1]] + v[2..]);
    } else {
      EscapedReadsBack(v[1..]);
      var tail := Escaped(v[1..]) + [QUOTE];
      assert Escaped(v) + [QUOTE] == EscapedUnit(v[0]) + tail;
      FrontEscape(v[0], tail);
      assert v == [v[0]] + v[1..];
    }
  }

  lemma NothingReadsBack()
    ensures Unescaped([QUOTE]) == Some([])
  {
  }

  lemma FrontEscape(c: CodeUnit, tail: Text)
    requires tail != []
    ensures Unescaped(EscapedUnit(c) + tail) == if Unescaped(tail).None? then None else Some([c] + Unescaped(tail).value)
  {
    EscapeReadsBack(c, tail);
    var e := EscapedUnit(c);
    assert (e + tail)[|e|..] == tail;
    assert e != [] && |e + tail| > 1;
  }

  lemma FrontUnit(c: CodeUnit, tail: Text)
    requires c >= 0x20 && c != QUOTE && c != BACKSLASH && tail != []
    ensures Unescaped([c] + tail) == if Unescaped(tail).None? then None else Some([c] + Unescaped(tail).value)
  {
    var s := [c] + tail;
    assert FirstUnit(s) == Some((c, 1)) && s[1..] == tail;
  }

  /** Writing a string and reading it back gives the same code units, whatever they are. */
  lemma QuotedReadsBack(v: Text)
    ensures Quoted(v)[0] == QUOTE && Unquoted(Quoted(v)) == Some(v)
  {
    EscapedReadsBack(v);
    assert Quoted(v)[1..] == Escaped(v) + [QUOTE];
  }

  /** Which code units a quoted string shows as they are. */
  lemma {:induction false} RawUnits(v: Text, c: CodeUnit)
    requires c < 0x20 || c == 0x2028 || c == 0x2029
    ensures c in Escaped(v) <==> c >= 0x20 && c in v
    decreases |v|
  {
    if v != [] {
      if StartsWithPair(v) {
        RawUnits(v[2..], c);
        assert v == v[..2] + v[2..];
      } else {
        RawUnits(v[1..], c);
        EscapedUnitRaw(v[0], c);
        assert v == [v[0]] + v[1..];
      }
    }
  }

  lemma EscapedUnitRaw(u: CodeUnit, c: CodeUnit)
    requires c < 0x20 || c == 0x2028 || c == 0x2029
    ensures c in EscapedUnit(u) <==> c >= 0x20 && c == u
  {
  }

  // ---- What is read, by the grammar ----

  /** One character of a string as section 7 of RFC 8259 lets it be written. */
  datatype Unit = Raw(c: CodeUnit) | Short(letter: CodeUnit) | Hex(a: CodeUnit, b: CodeUnit, c: CodeUnit, d: CodeUnit)

  predicate IsHex(c: CodeUnit) {
    c in {0x30, 0x31, 0x32, 0x33, 0x34, 0x35, 0x36, 0x37, 0x38, 0x39,
          0x41, 0x42, 0x43, 0x44, 0x45, 0x46, 0x61, 0x62, 0x63, 0x64, 0x65, 0x66}
  }

  predicate ValidUnit(u: Unit) {
    match u
    case Raw(c) => c >= 0x20 && c != 0x22 && c != 0x5c
    case Short(letter) => letter in {0x22, 0x5c, 0x2f, 0x62, 0x66, 0x6e, 0x72, 0x74}
    case Hex(a, b, c, d) => IsHex(a) && IsHex(b) && IsHex(c) && IsHex(d)
  }

  function Written(u: Unit): Text {
    match u
    case Raw(c) => [c]
    case Short(letter) => [0x5c, letter]
    case Hex(a, b, c, d) => [0x5c, 0x75, a, b, c, d]
  }

  /** The digits count from zero, and the letters of either size from ten. */
  function Digit(c: CodeUnit): int {
    if c < 0x40 then c as int - 0x30 else if c < 0x60 then c as int - 0x37 else c as int - 0x57
  }

  function Meaning(u: Unit): int {
    match u
    case Raw(c) => c as int
    case Short(letter) =>
      var means := map[0x22 := 0x22, 0x5c := 0x5c, 0x2f := 0x2f, 0x62 := 8, 0x66 := 12, 0x6e := 10, 0x72 := 13, 0x74 := 9];
      if letter in means then means[letter] else 0
    case Hex(a, b, c, d) => ((Digit(a) * 16 + Digit(b)) * 16 + Digit(c)) * 16 + Digit(d)
  }

  function WrittenUnits(units: seq<Unit>): Text {
    if units == [] then [] else Written(units[0]) + WrittenUnits(units[1..])
  }

  /** The text is what the characters mean, one by one. */
  ghost predicate Means(units: seq<Unit>, v: Text) {
    |v| == |units| && forall i | 0 <= i < |v| :: ValidUnit(units[i]) && v[i] as int == Meaning(units[i])
  }

  lemma HexValueIs(c: CodeUnit)
    ensures HexValue(c) == if IsHex(c) then Some(Digit(c)) else None
  {
  }

  lemma UnitIsRead(u: Unit, rest: Text)
    requires ValidUnit(u)
    ensures FirstUnit(Written(u) + rest).Some?
    ensures FirstUnit(Written(u) + rest).value.0 as int == Meaning(u) && FirstUnit(Written(u) + rest).value.1 == |Written(u)|
  {
    var s := Written(u) + rest;
    match u
    case Raw(c) => assert s[0] == c;
    case Short(letter) => assert s[0] == 0x5c && s[1] == letter;
    case Hex(a, b, c, d) =>
      assert s[0] == 0x5c && s[1] == 0x75 && s[2] == a && s[3] == b && s[4] == c && s[5] == d;
      HexValueIs(a);
      HexValueIs(b);
      HexValueIs(c);
      HexValueIs(d);
      hide HexValue, IsHex, Digit;
  }

  lemma FirstIsUnit(s: Text) returns (u: Unit)
    requires FirstUnit(s).Some?
    ensures ValidUnit(u) && Written(u) == s[..FirstUnit(s).value.1] && Meaning(u) == FirstUnit(s).value.0 as int
  {
    if s[0] != BACKSLASH {
      u := Raw(s[0]);
    } else if s[1] != 0x75 {
      u := Short(s[1]);
    } else {
      u := Hex(s[2], s[3], s[4], s[5]);
      HexValueIs(s[2]);
      HexValueIs(s[3]);
      HexValueIs(s[4]);
      HexValueIs(s[5]);
      hide HexValue, IsHex, Digit;
    }
  }

  lemma {:induction false} UnitsAreRead(units: seq<Unit>, v: Text)
    requires Means(units, v)
    ensures Unescaped(WrittenUnits(units) + [QUOTE]) == Some(v)
    decreases |units|
  {
    if units == [] {
      assert WrittenUnits(units) + [QUOTE] == [QUOTE];
    } else {
      var u, tail := units[0], WrittenUnits(units[1..]) + [QUOTE];
      UnitsAreRead(units[1..], v[1..]);
      UnitIsRead(u, tail);
      assert Written(u) != [] && (Written(u) + tail)[|Written(u)|..] == tail;
      hide FirstUnit, Written, Meaning;
      assert WrittenUnits(units) + [QUOTE] == Written(u) + tail;
      assert v == [v[0]] + v[1..];
    }
  }

  lemma OneUnitRead(s: Text)
    requires Unescaped(s).Some? && s != [QUOTE]
    ensures FirstUnit(s).Some? && Unescaped(s[FirstUnit(s).value.1..]).Some?
    ensures Unescaped(s).value == [FirstUnit(s).value.0] + Unescaped(s[FirstUnit(s).value.1..]).value
  {
  }

  lemma OneUnitMore(u: Unit, units: seq<Unit>, c: CodeUnit, v: Text)
    requires ValidUnit(u) && Meaning(u) == c as int && Means(units, v)
    ensures Means([u] + units, [c] + v) && WrittenUnits([u] + units) == Written(u) + WrittenUnits(units)
  {
    assert ([u] + units)[1..] == units;
    hide ValidUnit, Meaning, Written;
  }

  lemma {:induction false} ReadIsUnits(s: Text) returns (units: seq<Unit>)
    requires Unescaped(s).Some?
    ensures s == WrittenUnits(units) + [QUOTE] && Means(units, Unescaped(s).value)
    decreases |s|
  {
    hide FirstUnit, Written, Meaning, ValidUnit, Unescaped, Means;
    if s == [QUOTE] {
      units := [];
      NothingReadsBack();
      NothingMeans();
    } else {
      OneUnitRead(s);
      var first := FirstUnit(s).value;
      var u := FirstIsUnit(s);
      var rest := ReadIsUnits(s[first.1..]);
      units := [u] + rest;
      OneUnitMore(u, rest, first.0, Unescaped(s[first.1..]).value);
      assert s == s[..first.1] + s[first.1..];
    }
  }

  lemma NothingMeans()
    ensures WrittenUnits([]) == [] && Means([], [])
  {
  }

  /** What is read is exactly what the grammar derives: a text is accepted when its characters are written so up to
      the quote at the end, and it then is what they mean. */
  lemma ReadsExactlyTheGrammar(s: Text, v: Text)
    requires s != [] && s[0] == QUOTE
    ensures Unquoted(s) == Some(v) <==> exists units :: s == [0x22] + (WrittenUnits(units) + [0x22]) && Means(units, v)
  {
    if Unquoted(s) == Some(v) {
      var units := ReadIsUnits(s[1..]);
      assert s == [0x22] + s[1..];
    }
    if units :| s == [0x22] + (WrittenUnits(units) + [0x22]) && Means(units, v) {
      UnitsAreRead(units, v);
      assert s[1..] == WrittenUnits(units) + [QUOTE];
    }
  }

  // ---- What is written, unit by unit ----

  predicate Surrogates(c: CodeUnit, next: CodeUnit) {
    0xd800 <= c < 0xdc00 && 0xdc00 <= next < 0xe000
  }

  /** A pair of surrogates is written as it is. Any other unit is written by itself: seven with their letters, the
      other control characters and lone surrogates by four small digits, and all others as they are. */
  lemma WritesUnitByUnit(c: CodeUnit, rest: Text)
    ensures if rest != [] && Surrogates(c, rest[0])
      then Escaped([c] + rest) == [c, rest[0]] + Escaped(rest[1..])
      else Escaped([c] + rest) == EscapedUnit(c) + Escaped(rest)
    ensures match EscapedUnit(c)
            case e =>
              if c in {0x08, 0x09, 0x0a, 0x0c, 0x0d, 0x22, 0x5c} then |e| == 2 && e[0] == 0x5c && Meaning(Short(e[1])) == c as int
              else if c < 0x20 || 0xd800 <= c < 0xe000 then
                && |e| == 6 && e[..2] == [0x5c, 0x75] && (forall d | d in e[2..] :: IsHex(d) && !(0x41 <= d <= 0x46))
                && Meaning(Hex(e[2], e[3], e[4], e[5])) == c as int
              else e == [c]
  {
    var v := [c] + rest;
    assert v[1..] == rest;
    if rest != [] && Surrogates(c, rest[0]) {
      assert v[..2] == [c, rest[0]] && v[2..] == rest[1..];
    }
    UnitIsWritten(c);
    hide Escaped, EscapedUnit, Meaning, IsHex;
  }

  lemma UnitIsWritten(c: CodeUnit)
    ensures match EscapedUnit(c)
            case e =>
              if c in {0x08, 0x09, 0x0a, 0x0c, 0x0d, 0x22, 0x5c} then |e| == 2 && e[0] == 0x5c && Meaning(Short(e[1])) == c as int
              else if c < 0x20 || 0xd800 <= c < 0xe000 then
                && |e| == 6 && e[..2] == [0x5c, 0x75] && (forall d | d in e[2..] :: IsHex(d) && !(0x41 <= d <= 0x46))
                && Meaning(Hex(e[2], e[3], e[4], e[5])) == c as int
              else e == [c]
  {
    if ShortEscape(c).None? && (c < 0x20 || IsLead(c) || IsTrail(c)) {
      HexIsWritten(c);
    }
  }

  lemma FourDigits(n: int)
    requires 0 <= n < 0x1_0000
    ensures var n1, n2 := n / 16, n / 16 / 16;
      0 <= n2 / 16 < 16 && ((n2 / 16 * 16 + n2 % 16) * 16 + n1 % 16) * 16 + n % 16 == n
  {
    var n1, n2 := n / 16, n / 16 / 16;
    assert n2 / 16 * 16 + n2 % 16 == n2;
    assert n2 * 16 + n1 % 16 == n1;
  }

  lemma HexIsWritten(c: CodeUnit)
    ensures var e := UnicodeEscape(c);
      && |e| == 6 && e[..2] == [0x5c, 0x75] && (forall d | d in e[2..] :: IsHex(d) && !(0x41 <= d <= 0x46))
      && Meaning(Hex(e[2], e[3], e[4], e[5])) == c as int
  {
    var n := c as int;
    var n1, n2 := n / 16, n / 16 / 16;
    FourDigits(n);
    HexDigitIs(n2 / 16);
    HexDigitIs(n2 % 16);
    HexDigitIs(n1 % 16);
    HexDigitIs(n % 16);
    SixUnits(HexDigit(n2 / 16), HexDigit(n2 % 16), HexDigit(n1 % 16), HexDigit(n % 16));
    hide IsHex, Digit, HexDigit;
    assert UnicodeEscape(c) == Written(Hex(HexDigit(n2 / 16), HexDigit(n2 % 16), HexDigit(n1 % 16), HexDigit(n % 16)));
  }

  lemma SixUnits(a: CodeUnit, b: CodeUnit, c: CodeUnit, d: CodeUnit)
    ensures Written(Hex(a, b, c, d))[..2] == [0x5c, 0x75] && Written(Hex(a, b, c, d))[2..] == [a, b, c, d]
  {
  }

  lemma HexDigitIs(n: int)
    requires 0 <= n < 16
    ensures IsHex(HexDigit(n)) && Digit(HexDigit(n)) == n && !(0x41 <= HexDigit(n) <= 0x46)
  {
  }
}
