/** What the lines of an environment file mean, written down as a grammar, and that the parser reads
    every line of it so, and no other. */
module EnvironmentLines {
  import opened Collections
  import opened CodeUnits
  import opened JsonStrings
  import opened EnvironmentText

  /** A value in single quotes, bare with an optional comment, or as a JSON string. */
  datatype Form =
    | Single(text: Text)
    | Bare(text: Text, comment: Option<Comment>)
    | Double(text: Text, units: seq<Unit>)

  /** The space before a comment and what follows its hash. */
  datatype Comment = Comment(gap: Text, words: Text)

  datatype Line =
    | Blank
    | Note(words: Text)
    | Assign(keyword: Option<Text>, name: Text, left: Text, right: Text, form: Form)

  predicate Spaces(t: Text) {
    forall c | c in t :: IsSpace(c)
  }

  predicate Plain(t: Text) {
    forall c | c in t :: !LineTerminator(c)
  }

  predicate EndsInSpace(t: Text) {
    t != [] && IsSpace(t[|t| - 1])
  }

  /** No hash comes after a space, which would make it a comment. */
  predicate NoNote(t: Text) {
    forall i | 0 < i < |t| :: t[i] == HASH ==> !IsSpace(t[i - 1])
  }

  ghost predicate ValidForm(f: Form) {
    match f
    case Single(text) => Plain(text)
    case Double(text, units) => Means(units, text) && Plain(WrittenUnits(units))
    case Bare(text, comment) =>
      && Plain(text) && (text != [] ==> !IsSpace(text[0]) && text[0] != QUOTE && text[0] != APOSTROPHE)
      && !EndsInSpace(text) && NoNote(text)
      && (comment.Some? ==> text != [] && ValidComment(comment.value))
  }

  predicate ValidComment(c: Comment) {
    c.gap != [] && Spaces(c.gap) && Plain(c.gap) && Plain(c.words) && !EndsInSpace(c.words)
  }

  ghost predicate ValidLine(l: Line) {
    match l
    case Blank => true
    case Note(words) => !EndsInSpace(words)
    case Assign(keyword, name, left, right, form) =>
      && ValidName(name) && Spaces(left) && Spaces(right) && ValidForm(form)
      && (keyword.Some? ==> keyword.value != [] && Spaces(keyword.value))
      && (WrittenForm(form) == [] ==> right == [])
  }

  function WrittenForm(f: Form): Text {
    match f
    case Single(text) => [APOSTROPHE] + text + [APOSTROPHE]
    case Double(_, units) => [QUOTE] + (WrittenUnits(units) + [QUOTE])
    case Bare(text, comment) => text + (if comment.Some? then comment.value.gap + [HASH] + comment.value.words else [])
  }

  /** The line as it is written, without the space around it. */
  function Written(l: Line): Text {
    match l
    case Blank => []
    case Note(words) => [HASH] + words
    case Assign(keyword, name, left, right, form) =>
      (if keyword.Some? then EXPORT + keyword.value else []) + (name + (left + ([EQUALS] + (right + WrittenForm(form)))))
  }

  /** What a line defines: at most one variable. */
  function Meant(l: Line): Environment {
    if l.Assign? then [Variable(l.name, l.form.text)] else []
  }

  // ---- Space ----

  lemma {:induction false} SkipsFront(space: Text, t: Text)
    requires Spaces(space) && (t != [] ==> !IsSpace(t[0]))
    ensures TrimmedFront(space + t) == t
    decreases |space|
  {
    if space == [] {
      assert space + t == t;
    } else {
      assert (space + t)[1..] == space[1..] + t;
      SkipsFront(space[1..], t);
    }
  }

  lemma {:induction false} SkipsBack(t: Text, space: Text)
    requires Spaces(space) && !EndsInSpace(t)
    ensures TrimmedBack(t + space) == t
    decreases |space|
  {
    if space == [] {
      assert t + space == t;
    } else {
      assert (t + space)[..|t + space| - 1] == t + space[..|space| - 1];
      SkipsBack(t, space[..|space| - 1]);
    }
  }

  lemma SpaceAroundIsSkipped(before: Text, t: Text, after: Text)
    requires Spaces(before) && Spaces(after) && !EndsInSpace(t) && (t != [] ==> !IsSpace(t[0]))
    ensures Trimmed(before + t + after) == t
  {
    if t == [] {
      assert before + t + after == (before + after) + [];
      SkipsFront(before + after, []);
    } else {
      assert before + t + after == before + (t + after);
      SkipsFront(before, t + after);
      SkipsBack(t, after);
    }
  }

  // ---- Values ----

  /** Nothing is cut from a text without comments. */
  lemma {:induction false} NothingIsCut(text: Text)
    requires NoNote(text) && !EndsInSpace(text)
    ensures WithoutComment(text) == text
    decreases |text|
  {
    if text != [] {
      assert forall i | 0 < i < |text[1..]| :: text[1..][i] == text[i + 1] && text[1..][i - 1] == text[i];
      NothingIsCut(text[1..]);
      if StartsComment(text) { var gap, words := CommentShows(text); }
      assert text == [text[0]] + text[1..];
    }
  }

  /** Where a comment starts there are spaces and then a hash. */
  lemma CommentShows(text: Text) returns (gap: Text, words: Text)
    requires StartsComment(text)
    ensures text == gap + [HASH] + words && gap != [] && Spaces(gap)
    ensures text[|gap|] == HASH && IsSpace(text[|gap| - 1])
  {
    gap := FrontIsTrimmed(text);
    words := TrimmedFront(text)[1..];
    assert gap == [] ==> text == TrimmedFront(text);
    assert gap[|gap| - 1] in gap;
  }

  /** A comment starts where the bare text ends. */
  lemma {:induction false} CommentIsCut(text: Text, c: Comment)
    requires WithoutComment(text) == text && !EndsInSpace(text) && ValidComment(c)
    ensures WithoutComment(text + (c.gap + [HASH] + c.words)) == text
    decreases |text|
  {
    var tail := c.gap + [HASH] + c.words;
    if text == [] {
      assert tail == c.gap + ([HASH] + c.words) && tail[0] == c.gap[0] && c.gap[0] in c.gap;
      SkipsFront(c.gap, [HASH] + c.words);
      assert text + tail == tail;
    } else {
      var whole := text + tail;
      assert whole[1..] == text[1..] + tail;
      assert WithoutComment(text[1..]) == text[1..] && !StartsComment(text) by {
        assert WithoutComment(text)[1..] == WithoutComment(text[1..]);
      }
      CommentIsCut(text[1..], c);
      if IsSpace(text[0]) { NoCommentYet(text, tail); }
    }
  }

  /** A space inside the text is followed by something other than a hash. */
  lemma NoCommentYet(text: Text, tail: Text)
    requires text != [] && IsSpace(text[0]) && !EndsInSpace(text) && !StartsComment(text)
    ensures !StartsComment(text + tail)
  {
    FrontSurvives(text, tail);
  }

  lemma {:induction false} FrontSurvives(text: Text, tail: Text)
    requires text != [] && !EndsInSpace(text)
    ensures TrimmedFront(text) != [] && TrimmedFront(text + tail) == TrimmedFront(text) + tail
    decreases |text|
  {
    if IsSpace(text[0]) {
      assert |text| > 1;
      assert (text + tail)[1..] == text[1..] + tail;
      FrontSurvives(text[1..], tail);
    }
  }

  lemma BareValueIsRead(text: Text, comment: Option<Comment>)
    requires ValidForm(Bare(text, comment))
    ensures ReadValue(WrittenForm(Bare(text, comment))) == Value(text)
  {
    NothingIsCut(text);
    if comment.Some? {
      CommentIsCut(text, comment.value);
    } else {
      assert text + [] == text;
    }
    SpaceAroundIsSkipped([], text, []);
    assert [] + text + [] == text;
  }

  lemma ValueIsRead(f: Form)
    requires ValidForm(f)
    ensures ReadValue(WrittenForm(f)) == Value(f.text)
  {
    match f
    case Single(text) => assert WrittenForm(f)[1..|text| + 1] == text;
    case Double(text, units) => ReadsExactlyTheGrammar(WrittenForm(f), text);
    case Bare(text, comment) => BareValueIsRead(text, comment);
  }

  /** No value is written with space in front, at its end, or a line end inside. */
  lemma FormIsPlain(f: Form)
    requires ValidForm(f)
    ensures Plain(WrittenForm(f)) && !EndsInSpace(WrittenForm(f))
    ensures WrittenForm(f) != [] ==> !IsSpace(WrittenForm(f)[0])
  {
    assert !LineTerminator(APOSTROPHE) && !LineTerminator(HASH) && !LineTerminator(QUOTE);
    assert !IsSpace(APOSTROPHE) && !IsSpace(QUOTE) && !IsSpace(HASH);
  }

  // ---- Lines ----

  lemma KeywordIsDropped(keyword: Text, name: Text, rest: Text)
    requires keyword != [] && Spaces(keyword) && ValidName(name)
    ensures WithoutExport(EXPORT + keyword + (name + rest)) == name + rest
  {
    var line := EXPORT + keyword + (name + rest);
    assert line[|EXPORT|..] == keyword + (name + rest) && line[|EXPORT|] == keyword[0] && keyword[0] in keyword;
    assert EXPORT <= line by { assert line[..|EXPORT|] == EXPORT; }
    assert !IsSpace(name[0]) && (name + rest)[0] == name[0];
    SkipsFront(keyword, name + rest);
  }

  /** Without the keyword the name is taken as it stands, whatever it begins with. */
  lemma NameIsNoKeyword(name: Text, left: Text, rest: Text)
    requires ValidName(name) && Spaces(left)
    ensures WithoutExport(name + (left + ([EQUALS] + rest))) == name + (left + ([EQUALS] + rest))
  {
    var line := name + (left + ([EQUALS] + rest));
    if EXPORT <= line && |line| > 6 && IsSpace(line[6]) {
      KeywordAlone(name, left, rest);
      assert line[6..] == left + ([EQUALS] + rest);
      SkipsFront(left, [EQUALS] + rest);
    }
  }

  /** Then the name is the keyword itself. */
  lemma KeywordAlone(name: Text, left: Text, rest: Text)
    requires ValidName(name) && Spaces(left)
    requires var line := name + (left + ([EQUALS] + rest)); EXPORT <= line && |line| > 6 && IsSpace(line[6])
    ensures |name| == 6
  {
    var line := name + (left + ([EQUALS] + rest));
    var after := left + ([EQUALS] + rest);
    NameStops(left, rest);
    assert line[|name|] == after[0];
    assert forall i | 0 <= i < |name| :: line[i] == name[i] && NamePart(line[i]);
    assert forall i | 0 <= i < 6 :: line[i] == EXPORT[i] && NamePart(line[i]);
  }

  /** What follows a name cannot be part of it. */
  lemma NameStops(left: Text, rest: Text)
    requires Spaces(left)
    ensures var after := left + ([EQUALS] + rest);
      !NamePart(after[0]) && (left == [] ==> after[0] == EQUALS) && (left != [] ==> IsSpace(after[0]))
  {
    if left != [] { assert left[0] in left; }
  }

  lemma AssignmentSplitsSo(name: Text, left: Text, right: Text, raw: Text, line: Text)
    requires ValidName(name) && Spaces(left) && Spaces(right) && Plain(raw) && (raw != [] ==> !IsSpace(raw[0]))
    requires WithoutExport(line) == name + (left + ([EQUALS] + (right + raw)))
    ensures Split(line) == Some((name, raw))
  {
    var value := right + raw;
    var after := left + ([EQUALS] + value);
    NameStops(left, value);
    NameEnds(name, after);
    assert (name + after)[|name|..] == after && (name + after)[..|name|] == name;
    SkipsFront(left, [EQUALS] + value);
    assert ([EQUALS] + value)[1..] == value;
    SkipsFront(right, raw);
  }

  lemma LineIsSplit(l: Line)
    requires l.Assign? && ValidLine(l)
    ensures Split(Written(l)) == Some((l.name, WrittenForm(l.form)))
  {
    FormIsPlain(l.form);
    var rest := AfterName(l);
    if l.keyword.Some? {
      KeywordIsDropped(l.keyword.value, l.name, rest);
    } else {
      NameIsNoKeyword(l.name, l.left, l.right + WrittenForm(l.form));
      assert [] + (l.name + rest) == l.name + rest;
    }
    AssignmentSplitsSo(l.name, l.left, l.right, WrittenForm(l.form), Written(l));
  }

  function AfterName(l: Line): Text
    requires l.Assign?
  {
    l.left + ([EQUALS] + (l.right + WrittenForm(l.form)))
  }

  /** A written line begins and ends with something to see. */
  lemma LineIsTrimmed(l: Line)
    requires ValidLine(l)
    ensures !EndsInSpace(Written(l)) && (Written(l) != [] ==> !IsSpace(Written(l)[0]))
    ensures l.Assign? ==> Written(l) != [] && Written(l)[0] != HASH
  {
    assert !IsSpace(HASH) && !IsSpace(EXPORT[0]) && EXPORT[0] != HASH;
    if l.Assign? {
      FormIsPlain(l.form);
      var keyword := if l.keyword.Some? then EXPORT + l.keyword.value else [];
      var rest := AfterName(l);
      RestEndsVisibly(l);
      assert Written(l) == keyword + (l.name + rest);
      hide Written, AfterName, WrittenForm, ValidForm;
      assert !IsSpace(l.name[0]) && l.name[0] != HASH;
      Ends(keyword, l.name, rest);
    }
  }

  lemma RestEndsVisibly(l: Line)
    requires l.Assign? && ValidLine(l)
    ensures AfterName(l) != [] && !EndsInSpace(AfterName(l))
  {
    FormIsPlain(l.form);
    var t := WrittenForm(l.form);
    assert !IsSpace(EQUALS);
    hide WrittenForm, ValidForm;
    if t == [] {
      assert l.left + ([EQUALS] + ([] + [])) == l.left + [EQUALS];
    } else {
      Ends(l.left + [EQUALS], l.right, t);
      assert AfterName(l) == (l.left + [EQUALS]) + (l.right + t);
    }
  }

  lemma Ends(a: Text, b: Text, c: Text)
    requires c != [] && !EndsInSpace(c)
    ensures !EndsInSpace(a + (b + c)) && a + (b + c) != []
    ensures a == [] && b != [] ==> (a + (b + c))[0] == b[0]
    ensures a != [] ==> (a + (b + c))[0] == a[0]
  {
    assert (a + (b + c))[|a + (b + c)| - 1] == c[|c| - 1];
  }

  /** Whatever space surrounds it, a line is read as what it means: nothing, or one variable, unless its name
      was used before. */
  lemma LineMeans(env: Environment, number: nat, before: Text, l: Line, after: Text)
    requires ValidLine(l) && Spaces(before) && Spaces(after)
    ensures ReadLine(env, number, before + Written(l) + after) ==
      if l.Assign? && Defines(env, l.name) then Bad(number, Duplicate(l.name)) else Ok(env + Meant(l))
  {
    LineIsTrimmed(l);
    SpaceAroundIsSkipped(before, Written(l), after);
    if l.Assign? {
      LineIsSplit(l);
      ValueIsRead(l.form);
    } else {
      assert env + [] == env;
    }
  }

  // ---- And no other line is read ----

  /** A bare value is cut where the first comment starts. */
  lemma {:induction false} CutAt(value: Text) returns (k: nat)
    ensures k <= |value| && WithoutComment(value) == value[..k]
    ensures k < |value| ==> StartsComment(value[k..])
    ensures forall j | 0 <= j < k :: !StartsComment(value[j..])
    decreases |value|
  {
    if value == [] || StartsComment(value) {
      k := 0;
      assert value[0..] == value;
    } else {
      var n := CutAt(value[1..]);
      k := n + 1;
      assert value[..k] == [value[0]] + value[1..][..n];
      assert value[k..] == value[1..][n..];
      forall j | 0 <= j < k
        ensures !StartsComment(value[j..])
      {
        if j == 0 { assert value[0..] == value; } else { assert value[j..] == value[1..][j - 1..]; }
      }
    }
  }

  lemma HashAfterSpaceStartsComment(value: Text, i: nat)
    requires 0 < i < |value| && value[i] == HASH && IsSpace(value[i - 1])
    ensures StartsComment(value[i - 1..])
  {
    assert !IsSpace(HASH);
    SkipsFront([value[i - 1]], value[i..]);
    assert value[i - 1..] == [value[i - 1]] + value[i..];
  }

  /** What stays of a bare value ends where it is cut. */
  lemma CutIsClean(value: Text, k: nat)
    requires k <= |value| && !EndsInSpace(value) && (value != [] ==> !IsSpace(value[0]))
    requires k < |value| ==> StartsComment(value[k..])
    requires forall j | 0 <= j < k :: !StartsComment(value[j..])
    ensures NoNote(value[..k]) && !EndsInSpace(value[..k]) && (value != [] ==> k > 0)
  {
    forall i | 0 < i < k && value[i] == HASH
      ensures !IsSpace(value[i - 1])
    {
      if IsSpace(value[i - 1]) { HashAfterSpaceStartsComment(value, i); }
    }
    if 0 < k < |value| && IsSpace(value[k - 1]) { SpaceBeforeComment(value, k); }
  }

  lemma SpaceBeforeComment(value: Text, k: nat)
    requires 0 < k < |value| && IsSpace(value[k - 1]) && StartsComment(value[k..])
    ensures StartsComment(value[k - 1..])
  {
    assert value[k - 1..][1..] == value[k..];
  }

  lemma BareIsForm(value: Text) returns (f: Form)
    requires Plain(value) && !EndsInSpace(value)
    requires value != [] ==> !IsSpace(value[0]) && value[0] != QUOTE && value[0] != APOSTROPHE
    ensures ValidForm(f) && WrittenForm(f) == value
  {
    var k := CutAt(value);
    CutIsClean(value, k);
    var text := value[..k];
    assert value == text + value[k..];
    if k == |value| {
      f := Bare(text, None);
      assert text + [] == text;
    } else {
      var gap, words := CommentShows(value[k..]);
      f := Bare(text, Some(Comment(gap, words)));
      TailIsComment(value, k, gap, words);
    }
  }

  lemma TailIsComment(value: Text, k: nat, gap: Text, words: Text)
    requires k < |value| && Plain(value) && !EndsInSpace(value)
    requires value[k..] == gap + [HASH] + words && gap != [] && Spaces(gap)
    ensures ValidComment(Comment(gap, words)) && value == value[..k] + (gap + [HASH] + words)
  {
    var tail := value[k..];
    assert value == value[..k] + tail;
    assert Plain(tail) by {
      assert forall c | c in tail :: c in value;
    }
    assert !EndsInSpace(tail) by {
      assert tail[|tail| - 1] == value[|value| - 1];
    }
    PartsArePlain(gap, words);
  }

  lemma PartsArePlain(gap: Text, words: Text)
    requires Plain(gap + [HASH] + words) && !EndsInSpace(gap + [HASH] + words)
    ensures Plain(gap) && Plain(words) && !EndsInSpace(words)
  {
    var tail := gap + [HASH] + words;
    assert forall c | c in gap || c in words :: c in tail;
    assert words != [] ==> tail[|tail| - 1] == words[|words| - 1];
  }

  /** Every value the parser accepts has one of the forms. */
  lemma ReadIsForm(value: Text) returns (f: Form)
    requires Plain(value) && !EndsInSpace(value) && (value != [] ==> !IsSpace(value[0])) && ReadValue(value).Value?
    ensures ValidForm(f) && WrittenForm(f) == value
  {
    if value != [] && value[0] == QUOTE {
      var units := ReadIsUnits(value[1..]);
      f := Double(ReadValue(value).value, units);
      assert value == [QUOTE] + value[1..];
      assert forall c | c in WrittenUnits(units) :: c in value[1..];
    } else if value != [] && value[0] == APOSTROPHE {
      f := Single(value[1..|value| - 1]);
      assert value == [APOSTROPHE] + value[1..|value| - 1] + [APOSTROPHE];
    } else {
      f := BareIsForm(value);
    }
  }

  /** What follows a name: space, the sign, space and the value. */
  lemma AfterNameShows(tail: Text) returns (left: Text, right: Text)
    requires var after := TrimmedFront(tail); after != [] && after[0] == EQUALS
    ensures var value := TrimmedFront(TrimmedFront(tail)[1..]);
      && Spaces(left) && Spaces(right) && tail == left + ([EQUALS] + (right + value)) && (value != [] ==> !IsSpace(value[0]))
  {
    left := FrontIsTrimmed(tail);
    var after := TrimmedFront(tail);
    right := FrontIsTrimmed(after[1..]);
    assert after == [EQUALS] + after[1..];
  }

  lemma SplitShows(line: Text) returns (left: Text, right: Text)
    requires Split(line).Some? && !EndsInSpace(WithoutExport(line))
    ensures var (name, value) := Split(line).value;
      && ValidName(name) && Spaces(left) && Spaces(right) && Plain(value) && !EndsInSpace(value)
      && (value != [] ==> !IsSpace(value[0])) && (value == [] ==> right == [])
      && WithoutExport(line) == name + (left + ([EQUALS] + (right + value)))
  {
    SplitNames(line);
    var rest := WithoutExport(line);
    var n := NameLength(rest);
    assert rest == rest[..n] + rest[n..];
    left, right := AfterNameShows(rest[n..]);
    var value := Split(line).value.1;
    hide TrimmedFront, WithoutExport, NameLength, ValidName, IsSpace;
    Associate(rest[..n], left, right, value);
    LastIs(rest[..n] + (left + [EQUALS]), right, value);
  }

  lemma Associate(a: Text, left: Text, right: Text, value: Text)
    ensures a + (left + ([EQUALS] + (right + value))) == (a + (left + [EQUALS])) + (right + value)
  {
  }

  lemma EndOf(a: Text, b: Text)
    requires b != []
    ensures EndsInSpace(a + b) <==> EndsInSpace(b)
  {
    assert (a + b)[|a + b| - 1] == b[|b| - 1];
  }

  lemma LastIs(a: Text, right: Text, value: Text)
    requires !EndsInSpace(a + (right + value)) && Spaces(right)
    ensures !EndsInSpace(value) && (value == [] ==> right == [])
  {
    if right + value != [] { EndOf(a, right + value); }
    if value != [] { EndOf(right, value); } else { assert right + value == right; }
    assert right != [] ==> right[|right| - 1] in right;
  }

  /** The keyword and the space after it, if they are dropped. */
  lemma KeywordShows(line: Text) returns (keyword: Option<Text>)
    ensures match keyword
            case None => WithoutExport(line) == line
            case Some(space) => space != [] && Spaces(space) && line == EXPORT + space + WithoutExport(line)
    ensures line != [] && !EndsInSpace(line) ==> !EndsInSpace(WithoutExport(line))
  {
    if WithoutExport(line) == line {
      keyword := None;
    } else {
      var tail := line[|EXPORT|..];
      var space := FrontIsTrimmed(tail);
      var rest := WithoutExport(line);
      assert line == line[..|EXPORT|] + tail;
      assert line[..|EXPORT|] == EXPORT;
      assert space == [] ==> rest == tail;
      keyword := Some(space);
      assert rest != [] && line == (EXPORT + space) + rest;
      assert line[|line| - 1] == rest[|rest| - 1];
    }
  }

  lemma AssignmentIsLine(line: Text) returns (l: Line)
    requires line != [] && !EndsInSpace(line)
    requires Split(line).Some? && ReadValue(Split(line).value.1).Value?
    ensures ValidLine(l) && l.Assign? && Written(l) == line
  {
    var (name, value) := Split(line).value;
    var keyword := KeywordShows(line);
    var left, right := SplitShows(line);
    var form := ReadIsForm(value);
    l := Assign(keyword, name, left, right, form);
    hide ReadValue, Split, WithoutExport, ValidForm, WrittenForm, ValidName, Written, Plain, EndsInSpace, IsSpace;
    Assembled(l, WithoutExport(line), line);
  }

  lemma Assembled(l: Line, rest: Text, line: Text)
    requires l.Assign? && rest == l.name + AfterName(l)
    requires line == if l.keyword.Some? then EXPORT + l.keyword.value + rest else rest
    ensures Written(l) == line
  {
    hide WrittenForm;
    if l.keyword.None? { assert [] + rest == rest; }
  }

  /** The text is the line, with space around it. */
  ghost predicate IsWritten(raw: Text, before: Text, l: Line, after: Text) {
    ValidLine(l) && Spaces(before) && Spaces(after) && raw == before + Written(l) + after
  }

  lemma ReadIsLine(env: Environment, number: nat, raw: Text) returns (before: Text, l: Line, after: Text)
    requires ReadLine(env, number, raw).Ok?
    ensures IsWritten(raw, before, l, after) && (l.Assign? ==> !Defines(env, l.name))
  {
    before, after := TrimmedIsCore(raw);
    var line := Trimmed(raw);
    assert forall c | c in before || c in after :: c in before + after;
    if line == [] {
      l := Blank;
    } else if line[0] == HASH {
      l := Note(line[1..]);
      assert line == [HASH] + line[1..];
    } else {
      l := AssignmentIsLine(line);
      LineIsSplit(l);
      hide Split, ReadValue, Written, IsSpace;
    }
  }

  /** The parser accepts exactly the lines of the grammar that define no name again. */
  lemma ReadsExactlyTheLines(env: Environment, number: nat, raw: Text)
    ensures ReadLine(env, number, raw).Ok? <==>
      exists before, l, after :: IsWritten(raw, before, l, after) && (l.Assign? ==> !Defines(env, l.name))
  {
    if before, l, after :| IsWritten(raw, before, l, after) && (l.Assign? ==> !Defines(env, l.name)) {
      LineMeans(env, number, before, l, after);
    }
    if ReadLine(env, number, raw).Ok? { var before, l, after := ReadIsLine(env, number, raw); }
  }
}
