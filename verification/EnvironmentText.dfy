/** Printing environment variables as text, and the parser of that text. */
module EnvironmentText {
  import opened Collections
  import opened CodeUnits
  import opened JsonStrings

  datatype Variable = Variable(name: Text, value: Text)

  type Environment = seq<Variable>

  datatype Reason = NotAnAssignment | Duplicate(name: Text) | BadString | Unclosed

  datatype Parsed = Ok(env: Environment) | Bad(line: nat, reason: Reason)

  const LF: CodeUnit := 0x0a
  const CR: CodeUnit := 0x0d
  const APOSTROPHE: CodeUnit := 0x27
  const HASH: CodeUnit := 0x23
  const EQUALS: CodeUnit := 0x3d
  /** The word "export". */
  const EXPORT: Text := [0x65, 0x78, 0x70, 0x6f, 0x72, 0x74]

  // ---- Names and environments ----

  predicate NameStart(c: CodeUnit) {
    0x41 <= c <= 0x5a || 0x61 <= c <= 0x7a || c == 0x5f
  }

  predicate NamePart(c: CodeUnit) {
    NameStart(c) || 0x30 <= c <= 0x39
  }

  /** The letters of either size and the underscore, and anywhere but in front the digits. */
  lemma NamesAre(c: CodeUnit)
    ensures NameStart(c) <==> 0 <= c as int - 0x41 < 26 || 0 <= c as int - 0x61 < 26 || c as int == 0x5f
    ensures NamePart(c) <==> NameStart(c) || 0 <= c as int - 0x30 < 10
  {
  }

  predicate ValidName(name: Text) {
    name != [] && NameStart(name[0]) && forall c | c in name :: NamePart(c)
  }

  predicate Defines(env: Environment, name: Text) {
    exists v | v in env :: v.name == name
  }

  /** Each name is valid and used once. */
  predicate ValidEnvironment(env: Environment) {
    forall i | 0 <= i < |env| :: ValidName(env[i].name) && !Defines(env[..i], env[i].name)
  }

  predicate LineTerminator(c: CodeUnit) {
    c == LF || c == CR || c == 0x2028 || c == 0x2029
  }

  /** The line terminators of section 12.3 of ECMA-262. */
  lemma TerminatorsAre(c: CodeUnit)
    ensures LineTerminator(c) <==> c in {0x0a, 0x0d, 0x2028, 0x2029}
  {
  }

  // ---- Printing ----

  function Assignment(v: Variable): Text {
    v.name + [EQUALS] + Quoted(v.value)
  }

  function Assignments(env: Environment): (lines: seq<Text>)
    ensures |lines| == |env| && forall i | 0 <= i < |env| :: lines[i] == Assignment(env[i])
  {
    if env == [] then [] else [Assignment(env[0])] + Assignments(env[1..])
  }

  function Print(env: Environment): Text {
    if env == [] then []
    else if |env| == 1 then Assignment(env[0])
    else Assignment(env[0]) + [LF] + Print(env[1..])
  }

  // ---- Lines ----

  /** Where the first line ends. */
  function FirstBreak(text: Text): (n: nat)
    ensures n <= |text| && (n < |text| ==> text[n] == LF) && LF !in text[..n]
  {
    if text == [] || text[0] == LF then 0
    else
      var n := FirstBreak(text[1..]);
      assert text[..n + 1] == [text[0]] + text[1..][..n];
      n + 1
  }

  /** A line feed ends a line, together with one carriage return before it. */
  function Lines(text: Text): (lines: seq<Text>)
    ensures lines != []
    decreases |text|
  {
    var n := FirstBreak(text);
    if n == |text| then [text]
    else
      var line := if n > 0 && text[n - 1] == CR then text[..n - 1] else text[..n];
      [line] + Lines(text[n + 1..])
  }

  // ---- One line ----

  /** The longest front of name characters. */
  function NameLength(line: Text): (n: nat)
    ensures n <= |line| && (forall c | c in line[..n] :: NamePart(c)) && (n < |line| ==> !NamePart(line[n]))
  {
    if line == [] || !NamePart(line[0]) then 0
    else
      var n := NameLength(line[1..]);
      assert line[..n + 1] == [line[0]] + line[1..][..n];
      n + 1
  }

  /** Drops "export" and the space after it when a name follows. */
  function WithoutExport(line: Text): Text {
    if EXPORT <= line && |line| > |EXPORT| && IsSpace(line[|EXPORT|]) then
      var rest := TrimmedFront(line[|EXPORT|..]);
      if rest != [] && NameStart(rest[0]) then rest else line
    else line
  }

  /** The name and the raw value of an assignment. */
  function Split(line: Text): Option<(Text, Text)> {
    var rest := WithoutExport(line);
    var n := NameLength(rest);
    if n == 0 || !NameStart(rest[0]) then None
    else
      var after := TrimmedFront(rest[n..]);
      if after == [] || after[0] != EQUALS then None
      else
        var value := TrimmedFront(after[1..]);
        if exists c | c in value :: LineTerminator(c) then None else Some((rest[..n], value))
  }

  predicate StartsComment(value: Text) {
    value != [] && IsSpace(value[0]) && TrimmedFront(value) != [] && TrimmedFront(value)[0] == HASH
  }

  /** Cuts a value at the first space that leads to a hash. */
  function WithoutComment(value: Text): Text {
    if value == [] || StartsComment(value) then [] else [value[0]] + WithoutComment(value[1..])
  }

  datatype ValueResult = Value(value: Text) | Broken(reason: Reason)

  function ReadValue(raw: Text): ValueResult {
    if raw != [] && raw[0] == QUOTE then
      var s := Unquoted(raw);
      if s.None? then Broken(BadString) else Value(s.value)
    else if raw != [] && raw[0] == APOSTROPHE then
      if |raw| < 2 || raw[|raw| - 1] != APOSTROPHE then Broken(Unclosed) else Value(raw[1..|raw| - 1])
    else Value(Trimmed(WithoutComment(raw)))
  }

  predicate Ignored(line: Text) {
    line == [] || line[0] == HASH
  }

  /** What a line adds to what was read so far. */
  function ReadLine(env: Environment, number: nat, raw: Text): Parsed {
    var line := Trimmed(raw);
    if Ignored(line) then Ok(env)
    else
      var parts := Split(line);
      if parts.None? then Bad(number, NotAnAssignment)
      else if Defines(env, parts.value.0) then Bad(number, Duplicate(parts.value.0))
      else
        var value := ReadValue(parts.value.1);
        if value.Broken? then Bad(number, value.reason) else Ok(env + [Variable(parts.value.0, value.value)])
  }

  /** The lines in turn, up to the first that is wrong; lines are numbered from one. */
  function ReadLines(env: Environment, number: nat, lines: seq<Text>): Parsed
    decreases |lines|
  {
    if lines == [] then Ok(env)
    else
      var r := ReadLine(env, number, lines[0]);
      if r.Bad? then r else ReadLines(r.env, number + 1, lines[1..])
  }

  function Parse(text: Text): Parsed {
    ReadLines([], 1, Lines(text))
  }

  /** The parser, line by line. */
  method ParseEnvironmentText(text: Text) returns (r: Parsed)
    ensures r == Parse(text)
    ensures r.Ok? ==> ValidEnvironment(r.env)
  {
    var lines := Lines(text);
    var result: Environment := [];
    for index := 0 to |lines|
      invariant ValidEnvironment(result)
      invariant Parse(text) == ReadLines(result, index + 1, lines[index..])
    {
      var read := ReadLine(result, index + 1, lines[index]);
      assert lines[index..][1..] == lines[index + 1..];
      if read.Bad? { return read; }
      ReadingKeepsNames(result, index + 1, lines[index]);
      result := read.env;
    }
    r := Ok(result);
  }

  // ---- Only valid names, each once ----

  lemma SplitNames(line: Text)
    requires Split(line).Some?
    ensures ValidName(Split(line).value.0)
  {
    var rest := WithoutExport(line);
    assert rest[..NameLength(rest)][0] == rest[0];
  }

  lemma ReadingKeepsNames(env: Environment, number: nat, raw: Text)
    requires ValidEnvironment(env) && ReadLine(env, number, raw).Ok?
    ensures ValidEnvironment(ReadLine(env, number, raw).env)
  {
    var after := ReadLine(env, number, raw).env;
    if after != env {
      SplitNames(Trimmed(raw));
      assert after[..|env|] == env;
      forall i | 0 <= i < |env|
        ensures ValidName(after[i].name) && !Defines(after[..i], after[i].name)
      {
        assert after[..i] == env[..i];
      }
    }
  }

  lemma {:induction false} ReadEnvironmentIsValid(env: Environment, number: nat, lines: seq<Text>)
    requires ValidEnvironment(env) && ReadLines(env, number, lines).Ok?
    ensures ValidEnvironment(ReadLines(env, number, lines).env)
    decreases |lines|
  {
    if lines != [] {
      ReadingKeepsNames(env, number, lines[0]);
      ReadEnvironmentIsValid(ReadLine(env, number, lines[0]).env, number + 1, lines[1..]);
    }
  }

  // ---- Round trip ----

  /** Line and paragraph separators, which JSON leaves as they are and the parser takes for line ends. */
  predicate HasSeparator(value: Text) {
    0x2028 in value || 0x2029 in value
  }

  lemma AssignmentHasNoBreak(v: Variable)
    requires ValidName(v.name)
    ensures LF !in Assignment(v) && CR !in Assignment(v)
  {
    RawUnits(v.value, LF);
    RawUnits(v.value, CR);
    assert !NamePart(LF) && !NamePart(CR);
  }

  /** A name is not taken for the keyword: no space follows it. */
  lemma NothingIsExported(name: Text, rest: Text)
    requires ValidName(name)
    ensures WithoutExport(name + [EQUALS] + rest) == name + [EQUALS] + rest
  {
    var line := name + [EQUALS] + rest;
    assert line[|name|] == EQUALS;
    assert forall i | 0 <= i < |name| :: line[i] == name[i] && NamePart(line[i]);
    assert EXPORT <= line ==> forall i | 0 <= i < 6 :: line[i] == EXPORT[i];
    assert !IsSpace(EQUALS) && EQUALS !in EXPORT;
    assert |name| < 6 ==> EXPORT[|name|] != EQUALS;
  }

  lemma SplitsAtEquals(name: Text, q: Text)
    requires ValidName(name) && q != [] && q[0] == QUOTE
    ensures Split(name + [EQUALS] + q) == if exists c | c in q :: LineTerminator(c) then None else Some((name, q))
  {
    var line := name + [EQUALS] + q;
    NothingIsExported(name, q);
    NameEnds(name, [EQUALS] + q);
    assert line == name + ([EQUALS] + q);
    assert line[|name|..] == [EQUALS] + q && line[..|name|] == name;
    assert ([EQUALS] + q)[1..] == q;
  }

  /** The value is cut off as written, unless a separator in it makes the line unreadable. */
  lemma AssignmentSplits(v: Variable)
    requires ValidName(v.name)
    ensures Split(Assignment(v)) == if HasSeparator(v.value) then None else Some((v.name, Quoted(v.value)))
  {
    SplitsAtEquals(v.name, Quoted(v.value));
    QuotedTerminators(v.value);
  }

  lemma QuotedTerminators(value: Text)
    ensures (exists c | c in Quoted(value) :: LineTerminator(c)) <==> HasSeparator(value)
  {
    RawUnits(value, LF);
    RawUnits(value, CR);
    RawUnits(value, 0x2028);
    RawUnits(value, 0x2029);
    var q := Quoted(value);
    forall c
      ensures c in q <==> c == QUOTE || c in Escaped(value)
    {
      assert q == [QUOTE] + Escaped(value) + [QUOTE];
      assert q[0] == QUOTE;
    }
    if 0x2028 in value { assert LineTerminator(0x2028) && 0x2028 in q; }
    if 0x2029 in value { assert LineTerminator(0x2029) && 0x2029 in q; }
  }

  lemma {:induction false} NameEnds(name: Text, rest: Text)
    requires (forall c | c in name :: NamePart(c)) && rest != [] && !NamePart(rest[0])
    ensures NameLength(name + rest) == |name|
    decreases |name|
  {
    if name == [] {
      assert name + rest == rest;
    } else {
      assert (name + rest)[1..] == name[1..] + rest;
      NameEnds(name[1..], rest);
    }
  }

  lemma AssignmentIsTrimmed(v: Variable)
    requires ValidName(v.name)
    ensures Trimmed(Assignment(v)) == Assignment(v) && !Ignored(Assignment(v))
  {
    var line := Assignment(v);
    assert line[0] == v.name[0] && line[|line| - 1] == QUOTE;
  }

  /** Reading a printed assignment adds exactly that variable, or fails on its separator. */
  lemma AssignmentReadsBack(env: Environment, number: nat, v: Variable)
    requires ValidName(v.name) && !Defines(env, v.name)
    ensures ReadLine(env, number, Assignment(v)) ==
      if HasSeparator(v.value) then Bad(number, NotAnAssignment) else Ok(env + [v])
  {
    AssignmentIsTrimmed(v);
    AssignmentSplits(v);
    QuotedReadsBack(v.value);
  }

  lemma {:induction false} BreakAfter(line: Text, rest: Text)
    requires LF !in line
    ensures FirstBreak(line + [LF] + rest) == FirstBreak(line) == |line|
  {
    if line == [] {
      assert ([LF] + rest)[0] == LF;
    } else {
      assert (line + [LF] + rest)[1..] == line[1..] + [LF] + rest;
      BreakAfter(line[1..], rest);
    }
  }

  /** The lines with their ends: each but the last ends in a line feed, with a carriage return before it or without. */
  function Composed(lines: seq<Text>, carriage: seq<bool>): Text
    requires |lines| == |carriage| + 1
  {
    if carriage == [] then lines[0]
    else (lines[0] + if carriage[0] then [0x0d] else []) + [0x0a] + Composed(lines[1..], carriage[1..])
  }

  /** No line holds a line feed, and a carriage return before one belongs to the end of the line. */
  ghost predicate BrokenWell(lines: seq<Text>, carriage: seq<bool>) {
    && |lines| == |carriage| + 1 && (forall line | line in lines :: LF !in line)
    && forall i | 0 <= i < |carriage| :: lines[i] != [] && lines[i][|lines[i]| - 1] == 0x0d ==> carriage[i]
  }

  lemma RestIsBrokenWell(lines: seq<Text>, carriage: seq<bool>)
    requires BrokenWell(lines, carriage) && carriage != []
    ensures BrokenWell(lines[1..], carriage[1..]) && LF !in lines[0]
    ensures !carriage[0] && lines[0] != [] ==> lines[0][|lines[0]| - 1] != CR
  {
    forall i | 0 <= i < |carriage[1..]| && lines[1..][i] != [] && lines[1..][i][|lines[1..][i]| - 1] == 0x0d
      ensures carriage[1..][i]
    {
      assert lines[1..][i] == lines[i + 1];
    }
  }

  /** A text is cut into exactly the lines it was broken from. */
  lemma {:induction false} LinesAreBetweenBreaks(lines: seq<Text>, carriage: seq<bool>)
    requires BrokenWell(lines, carriage)
    ensures Lines(Composed(lines, carriage)) == lines
    decreases |carriage|
  {
    hide Lines, Composed, BrokenWell;
    if carriage == [] {
      LastLine(lines);
    } else {
      assert |lines| == |carriage| + 1 by { BrokenHasLines(lines, carriage); }
      RestIsBrokenWell(lines, carriage);
      LinesAreBetweenBreaks(lines[1..], carriage[1..]);
      OneLineFirst(lines[0], carriage[0], Composed(lines[1..], carriage[1..]));
      BrokenFirst(lines, carriage);
    }
  }

  lemma BrokenFirst(lines: seq<Text>, carriage: seq<bool>)
    requires |lines| == |carriage| + 1 && carriage != []
    ensures Composed(lines, carriage) == (lines[0] + if carriage[0] then [CR] else []) + [LF] + Composed(lines[1..], carriage[1..])
  {
  }

  lemma BrokenHasLines(lines: seq<Text>, carriage: seq<bool>)
    requires BrokenWell(lines, carriage)
    ensures |lines| == |carriage| + 1
  {
  }

  lemma LastLine(lines: seq<Text>)
    requires BrokenWell(lines, [])
    ensures Lines(Composed(lines, [])) == lines
  {
    assert lines == [lines[0]] && lines[0] in lines;
  }

  lemma OneLineFirst(line: Text, cr: bool, rest: Text)
    requires LF !in line && (!cr && line != [] ==> line[|line| - 1] != CR)
    ensures Lines((line + if cr then [CR] else []) + [LF] + rest) == [line] + Lines(rest)
  {
    var front := line + if cr then [CR] else [];
    var text := front + [LF] + rest;
    BreakAfter(front, rest);
    assert text[|front| + 1..] == rest && text[..|front|] == front;
    if cr {
      assert text[|front| - 1] == CR && text[..|front| - 1] == line;
    } else {
      assert front == line;
    }
  }

  lemma FirstLineIs(text: Text) returns (line: Text, cr: bool, rest: Text)
    requires FirstBreak(text) < |text|
    ensures Lines(text) == [line] + Lines(rest) && |rest| < |text|
    ensures text == (line + if cr then [CR] else []) + [LF] + rest
    ensures LF !in line && (!cr && line != [] ==> line[|line| - 1] != CR)
  {
    hide FirstBreak;
    var n := FirstBreak(text);
    var front := text[..n];
    cr := n > 0 && text[n - 1] == CR;
    line := if cr then text[..n - 1] else text[..n];
    rest := text[n + 1..];
    assert text == front + [LF] + rest;
    if cr {
      assert front == line + [CR] && forall c | c in line :: c in front;
    } else {
      assert front == line + [];
    }
  }

  /** And every text is broken so. */
  lemma {:induction false} EveryTextIsBroken(text: Text) returns (carriage: seq<bool>)
    ensures BrokenWell(Lines(text), carriage) && Composed(Lines(text), carriage) == text
    decreases |text|
  {
    if FirstBreak(text) == |text| {
      carriage := [];
    } else {
      var line, cr, rest := FirstLineIs(text);
      var more := EveryTextIsBroken(rest);
      carriage := [cr] + more;
      hide Lines, Composed, BrokenWell;
      OneMoreBroken(line, cr, Lines(rest), more);
    }
  }

  lemma OneMoreBroken(line: Text, cr: bool, lines: seq<Text>, carriage: seq<bool>)
    requires BrokenWell(lines, carriage) && LF !in line && (!cr && line != [] ==> line[|line| - 1] != CR)
    ensures BrokenWell([line] + lines, [cr] + carriage)
    ensures Composed([line] + lines, [cr] + carriage) == (line + if cr then [CR] else []) + [LF] + Composed(lines, carriage)
  {
    assert ([line] + lines)[1..] == lines && ([cr] + carriage)[1..] == carriage;
  }

  lemma {:induction false} PrintedLines(env: Environment)
    requires env != [] && forall v | v in env :: ValidName(v.name)
    ensures Lines(Print(env)) == Assignments(env)
    decreases |env|
  {
    var first := Assignment(env[0]);
    AssignmentHasNoBreak(env[0]);
    if |env| == 1 {
      BreakAfter(first, []);
    } else {
      var rest := Print(env[1..]);
      BreakAfter(first, rest);
      PrintedLines(env[1..]);
      var text := first + [LF] + rest;
      assert text[..|first|] == first && text[|first| + 1..] == rest;
      assert text[|first| - 1] == first[|first| - 1] == QUOTE;
    }
  }

  /** The first variable with a separator in its value, or the number of variables. */
  function FirstUnreadable(env: Environment): (n: nat)
    ensures n <= |env| && forall i | 0 <= i < n :: !HasSeparator(env[i].value)
    ensures n < |env| ==> HasSeparator(env[n].value)
  {
    if env == [] || HasSeparator(env[0].value) then 0 else FirstUnreadable(env[1..]) + 1
  }

  lemma FirstIsNew(done: Environment, env: Environment)
    requires ValidEnvironment(done + env) && env != []
    ensures ValidName(env[0].name) && !Defines(done, env[0].name)
    ensures (done + [env[0]]) + env[1..] == done + env
  {
    assert (done + env)[|done|] == env[0] && (done + env)[..|done|] == done;
  }

  lemma FirstIsPrinted(env: Environment)
    requires env != []
    ensures Assignments(env) == [Assignment(env[0])] + Assignments(env[1..])
  {
  }

  lemma FirstIsRead(done: Environment, number: nat, line: Text, rest: seq<Text>)
    ensures ReadLines(done, number, [line] + rest) ==
      var r := ReadLine(done, number, line); if r.Bad? then r else ReadLines(r.env, number + 1, rest)
  {
    assert ([line] + rest)[1..] == rest;
  }

  lemma {:induction false} AssignmentsReadBack(done: Environment, number: nat, env: Environment)
    requires ValidEnvironment(done + env)
    ensures var n := FirstUnreadable(env);
      ReadLines(done, number, Assignments(env)) ==
      if n == |env| then Ok(done + env) else Bad(number + n, NotAnAssignment)
    decreases |env|
  {
    hide ReadLine, Assignment, ValidEnvironment, ValidName, Defines, HasSeparator;
    if env == [] {
      assert done + env == done;
    } else {
      hide ReadLines, Assignments;
      FirstIsNew(done, env);
      FirstIsPrinted(env);
      FirstIsRead(done, number, Assignment(env[0]), Assignments(env[1..]));
      AssignmentReadsBack(done, number, env[0]);
      AssignmentsReadBack(done + [env[0]], number + 1, env[1..]);
    }
  }

  /** Printing and parsing gives the environment back, variable by variable and in order; the first value
      with a separator in it makes its own line the one that is reported. */
  lemma PrintedTextReadsBack(env: Environment)
    requires ValidEnvironment(env)
    ensures var n := FirstUnreadable(env);
      Parse(Print(env)) == if n == |env| then Ok(env) else Bad(n + 1, NotAnAssignment)
  {
    if env == [] {
      assert Lines([]) == [[]];
    } else {
      PrintedLines(env);
      assert [] + env == env;
      AssignmentsReadBack([], 1, env);
    }
  }

  /** The round trip is exact exactly when no value contains a line or paragraph separator. */
  lemma RoundTripIsExactWithoutSeparators(env: Environment)
    requires ValidEnvironment(env)
    ensures Parse(Print(env)) == Ok(env) <==> forall v | v in env :: !HasSeparator(v.value)
  {
    PrintedTextReadsBack(env);
    var n := FirstUnreadable(env);
    if n < |env| { assert env[n] in env; }
  }

  /** Printing what was read from an accepted text gives a text that means the same, exactly when no value in
      it contains a line or paragraph separator. */
  lemma PrintingNormalises(text: Text)
    requires Parse(text).Ok?
    ensures Parse(Print(Parse(text).env)) == Parse(text) <==> forall v | v in Parse(text).env :: !HasSeparator(v.value)
  {
    ReadEnvironmentIsValid([], 1, Lines(text));
    RoundTripIsExactWithoutSeparators(Parse(text).env);
  }

  /** Only a quoted value can hold a separator: by its escape. */
  lemma SeparatorsComeFromEscapes(raw: Text)
    requires raw != [] && raw[0] != QUOTE && ReadValue(raw).Value? && !(exists c | c in raw :: LineTerminator(c))
    ensures !HasSeparator(ReadValue(raw).value)
  {
    if raw[0] != APOSTROPHE {
      CutIsPart(raw);
      TrimIsPart(WithoutComment(raw));
    }
    assert LineTerminator(0x2028) && LineTerminator(0x2029);
  }

  lemma {:induction false} CutIsPart(value: Text)
    ensures forall c | c in WithoutComment(value) :: c in value
  {
    if value != [] && !StartsComment(value) { CutIsPart(value[1..]); }
  }

  lemma TrimIsPart(t: Text)
    ensures forall c | c in Trimmed(t) :: c in t
  {
    FrontIsPart(t);
    BackIsPart(TrimmedFront(t));
  }

  lemma {:induction false} FrontIsPart(t: Text)
    ensures forall c | c in TrimmedFront(t) :: c in t
  {
    if t != [] && IsSpace(t[0]) { FrontIsPart(t[1..]); }
  }

  lemma {:induction false} BackIsPart(t: Text)
    ensures forall c | c in TrimmedBack(t) :: c in t
    decreases |t|
  {
    if t != [] && IsSpace(t[|t| - 1]) { BackIsPart(t[..|t| - 1]); }
  }
}
