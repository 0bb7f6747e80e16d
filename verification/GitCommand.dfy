/** Git commands written as text with quotes, and split into arguments again without a shell. */
module GitCommand {
  import opened Collections
  import opened CodeUnits

  const DOUBLE: CodeUnit := 0x22
  const SINGLE: CodeUnit := 0x27
  const SPACE: CodeUnit := 0x20

  predicate IsQuote(c: CodeUnit) {
    c == DOUBLE || c == SINGLE
  }

  // ---- The splitter ----

  /** The arguments so far, the one being read, and the quote it is in. */
  datatype Scanner = Scanner(args: seq<Text>, value: Text, quote: Option<CodeUnit>, started: bool)

  function Over(s: Scanner, c: CodeUnit): Scanner {
    if s.quote.Some? then
      if c == s.quote.value then s.(quote := None) else s.(value := s.value + [c])
    else if IsQuote(c) then s.(quote := Some(c), started := true)
    else if IsSpace(c) then
      if s.started then Scanner(s.args + [s.value], [], None, false) else s
    else s.(value := s.value + [c], started := true)
  }

  function OverAll(s: Scanner, text: Text): Scanner
    decreases |text|
  {
    if text == [] then s else OverAll(Over(s, text[0]), text[1..])
  }

  const START := Scanner([], [], None, false)

  /** The words of a command, or nothing when a quote stays open. */
  function Words(command: Text): Option<seq<Text>> {
    var s := OverAll(START, Trimmed(command));
    if s.quote.Some? then None else Some(if s.started then s.args + [s.value] else s.args)
  }

  datatype Split = BadQuoting | NotGit | Arguments(args: seq<Text>)

  function Lower(c: CodeUnit): CodeUnit {
    if 0x41 <= c <= 0x5a then c + 0x20 else c
  }

  /** The words "git" and "git.exe", without case. */
  predicate NamesGit(word: Text) {
    var lower := seq(|word|, i requires 0 <= i < |word| => Lower(word[i]));
    lower == [0x67, 0x69, 0x74] || lower == [0x67, 0x69, 0x74, 0x2e, 0x65, 0x78, 0x65]
  }

  function ArgumentsOf(command: Text): Split {
    var words := Words(command);
    if words.None? then BadQuoting
    else if words.value == [] || !NamesGit(words.value[0]) then NotGit
    else Arguments(words.value[1..])
  }

  /** Splits a command into the arguments for Git. */
  method GitArguments(command: Text) returns (r: Split)
    ensures r == ArgumentsOf(command)
  {
    var args: seq<Text>, value: Text, quote: Option<CodeUnit>, started := [], [], None, false;
    var text := Trimmed(command);
    for i := 0 to |text|
      invariant OverAll(START, text) == OverAll(Scanner(args, value, quote, started), text[i..])
    {
      var c := text[i];
      assert text[i..][1..] == text[i + 1..];
      if quote.Some? {
        if c == quote.value { quote := None; } else { value := value + [c]; }
      } else if IsQuote(c) {
        quote, started := Some(c), true;
      } else if IsSpace(c) {
        if started { args, value, started := args + [value], [], false; }
      } else {
        value, started := value + [c], true;
      }
    }
    if quote.Some? { return BadQuoting; }
    if started { args := args + [value]; }
    if args == [] || !NamesGit(args[0]) { return NotGit; }
    r := Arguments(args[1..]);
  }

  // ---- What a command means ----

  /** A stretch of a word, bare or in quotes. */
  datatype Piece = Bare(text: Text) | Quoted(quote: CodeUnit, text: Text)

  predicate ValidPiece(p: Piece) {
    match p
    case Bare(text) => text != [] && forall c | c in text :: c != 0x22 && c != 0x27 && !IsSpace(c)
    case Quoted(quote, text) => (quote == 0x22 || quote == 0x27) && quote !in text
  }

  function Written(p: Piece): Text {
    match p case Bare(text) => text case Quoted(quote, text) => [quote] + text + [quote]
  }

  /** A word and the space that separates it from the next. */
  datatype Word = Word(pieces: seq<Piece>, gap: Text)

  function WrittenWord(pieces: seq<Piece>): Text {
    if pieces == [] then [] else Written(pieces[0]) + WrittenWord(pieces[1..])
  }

  function Meaning(pieces: seq<Piece>): Text {
    if pieces == [] then [] else pieces[0].text + Meaning(pieces[1..])
  }

  function WrittenWords(words: seq<Word>): Text {
    if words == [] then [] else WrittenWord(words[0].pieces) + words[0].gap + WrittenWords(words[1..])
  }

  function Meanings(words: seq<Word>): (r: seq<Text>)
    ensures |r| == |words|
  {
    if words == [] then [] else [Meaning(words[0].pieces)] + Meanings(words[1..])
  }

  predicate ValidWord(w: Word) {
    w.pieces != [] && (forall p | p in w.pieces :: ValidPiece(p)) && forall c | c in w.gap :: IsSpace(c)
  }

  /** Words are set apart by space, and none follows the last. */
  predicate ValidWords(words: seq<Word>) {
    forall i | 0 <= i < |words| :: ValidWord(words[i]) && (words[i].gap == [] <==> i == |words| - 1)
  }

  lemma {:induction false} OverBoth(s: Scanner, a: Text, b: Text)
    ensures OverAll(s, a + b) == OverAll(OverAll(s, a), b)
    decreases |a|
  {
    if a == [] {
      assert a + b == b;
    } else {
      assert (a + b)[1..] == a[1..] + b;
      OverBoth(Over(s, a[0]), a[1..], b);
    }
  }

  lemma {:induction false} OverBare(s: Scanner, text: Text)
    requires s.quote.None? && text != [] && forall c | c in text :: !IsQuote(c) && !IsSpace(c)
    ensures OverAll(s, text) == s.(value := s.value + text, started := true)
    decreases |text|
  {
    var next := Over(s, text[0]);
    assert s.value + text == (s.value + [text[0]]) + text[1..];
    if |text| > 1 { OverBare(next, text[1..]); }
  }

  lemma {:induction false} OverQuoted(s: Scanner, text: Text)
    requires s.quote.Some? && s.quote.value !in text
    ensures OverAll(s, text) == s.(value := s.value + text)
    decreases |text|
  {
    if text == [] {
      assert s.value + text == s.value;
    } else {
      assert s.value + text == (s.value + [text[0]]) + text[1..];
      OverQuoted(Over(s, text[0]), text[1..]);
    }
  }

  lemma OverPiece(s: Scanner, p: Piece)
    requires s.quote.None? && ValidPiece(p)
    ensures OverAll(s, Written(p)) == s.(value := s.value + p.text, started := true)
  {
    match p
    case Bare(text) => OverBare(s, text);
    case Quoted(quote, text) =>
      var open := s.(quote := Some(quote), started := true);
      assert Written(p) == [quote] + (text + [quote]);
      OverBoth(s, [quote], text + [quote]);
      OverBoth(open, text, [quote]);
      OverQuoted(open, text);
  }

  lemma {:induction false} OverWord(s: Scanner, pieces: seq<Piece>)
    requires s.quote.None? && pieces != [] && forall p | p in pieces :: ValidPiece(p)
    ensures OverAll(s, WrittenWord(pieces)) == s.(value := s.value + Meaning(pieces), started := true)
    decreases |pieces|
  {
    var p, rest := pieces[0], pieces[1..];
    var read := s.(value := s.value + p.text, started := true);
    OverPiece(s, p);
    OverBoth(s, Written(p), WrittenWord(rest));
    if rest == [] {
      assert s.value + Meaning(pieces) == s.value + p.text;
    } else {
      hide Over, OverAll, Written, ValidPiece;
      OverWord(read, rest);
      Associates(s.value, p.text, Meaning(rest));
    }
  }

  lemma {:induction false} OverGap(s: Scanner, gap: Text)
    requires s.quote.None? && gap != [] && forall c | c in gap :: IsSpace(c)
    ensures OverAll(s, gap) == if s.started then Scanner(s.args + [s.value], [], None, false) else s
    decreases |gap|
  {
    assert gap[0] in gap && !IsQuote(gap[0]);
    if |gap| > 1 { OverGap(Over(s, gap[0]), gap[1..]); }
  }

  lemma OverWordAndGap(args: seq<Text>, w: Word)
    requires ValidWord(w)
    ensures OverAll(Scanner(args, [], None, false), WrittenWord(w.pieces) + w.gap) ==
      if w.gap == [] then Scanner(args, Meaning(w.pieces), None, true)
      else Scanner(args + [Meaning(w.pieces)], [], None, false)
  {
    var s := Scanner(args, [], None, false);
    var read := Scanner(args, Meaning(w.pieces), None, true);
    assert OverAll(read, []) == read;
    hide Over, OverAll, IsSpace, ValidPiece;
    OverWord(s, w.pieces);
    assert [] + Meaning(w.pieces) == Meaning(w.pieces);
    OverBoth(s, WrittenWord(w.pieces), w.gap);
    if w.gap != [] { OverGap(read, w.gap); }
  }

  lemma {:induction false} OverWords(args: seq<Text>, words: seq<Word>)
    requires words != [] && ValidWords(words)
    ensures var m := Meanings(words);
      OverAll(Scanner(args, [], None, false), WrittenWords(words)) ==
      Scanner(args + m[..|m| - 1], m[|m| - 1], None, true)
    decreases |words|
  {
    var s, w, rest := Scanner(args, [], None, false), words[0], words[1..];
    RestIsValid(words);
    OverWordAndGap(args, w);
    OverBoth(s, WrittenWord(w.pieces) + w.gap, WrittenWords(rest));
    hide Over, ValidWord, WrittenWord;
    if rest == [] {
      assert WrittenWords(words) == WrittenWord(w.pieces) + w.gap;
      assert args + [] == args;
    } else {
      hide OverAll;
      OverWords(args + [Meaning(w.pieces)], rest);
      FrontMoves(args, Meaning(w.pieces), Meanings(rest));
    }
  }

  lemma Associates(a: Text, b: Text, c: Text)
    ensures a + (b + c) == (a + b) + c
  {
  }

  lemma FrontMoves(args: seq<Text>, first: Text, rest: seq<Text>)
    requires rest != []
    ensures var m := [first] + rest;
      args + m[..|m| - 1] == (args + [first]) + rest[..|rest| - 1] && m[|m| - 1] == rest[|rest| - 1]
  {
  }

  lemma RestIsValid(words: seq<Word>)
    requires words != [] && ValidWords(words)
    ensures ValidWords(words[1..]) && ValidWord(words[0]) && (words[0].gap == [] <==> words[1..] == [])
  {
    var rest := words[1..];
    forall i | 0 <= i < |rest|
      ensures ValidWord(rest[i]) && (rest[i].gap == [] <==> i == |rest| - 1)
    {
      assert rest[i] == words[i + 1];
    }
  }

  // ---- The ends of a written command are not space ----

  lemma PieceEnds(p: Piece)
    requires ValidPiece(p)
    ensures Written(p) != [] && !IsSpace(Written(p)[0]) && !IsSpace(Written(p)[|Written(p)| - 1])
  {
    assert !IsSpace(DOUBLE) && !IsSpace(SINGLE);
  }

  lemma {:induction false} WordEnds(pieces: seq<Piece>)
    requires pieces != [] && forall p | p in pieces :: ValidPiece(p)
    ensures var t := WrittenWord(pieces); t != [] && !IsSpace(t[0]) && !IsSpace(t[|t| - 1])
    decreases |pieces|
  {
    PieceEnds(pieces[0]);
    if |pieces| > 1 { WordEnds(pieces[1..]); }
  }

  lemma {:induction false} WordsEnd(words: seq<Word>)
    requires words != [] && ValidWords(words)
    ensures var t := WrittenWords(words); t != [] && !IsSpace(t[0]) && !IsSpace(t[|t| - 1])
    decreases |words|
  {
    RestIsValid(words);
    WordEnds(words[0].pieces);
    hide WrittenWord, IsSpace, ValidPiece;
    if |words| > 1 { WordsEnd(words[1..]); }
  }

  /** Splitting a command gives the meaning of its words: quotes go, what is in them stays, and space
      outside them separates. */
  lemma SplittingGivesMeanings(words: seq<Word>)
    requires words != [] && ValidWords(words)
    ensures Words(WrittenWords(words)) == Some(Meanings(words))
  {
    WordsEnd(words);
    OverWords([], words);
    NothingToTrim(WrittenWords(words));
    hide OverAll, Trimmed, ValidWords, WrittenWords, Meanings;
    FrontAndLast(Meanings(words));
  }

  // ---- And every command without an open quote is written so ----

  lemma {:induction false} OnePieceMore(pieces: seq<Piece>, p: Piece)
    ensures WrittenWord(pieces + [p]) == WrittenWord(pieces) + Written(p)
    ensures Meaning(pieces + [p]) == Meaning(pieces) + p.text
    decreases |pieces|
  {
    if pieces == [] {
      assert pieces + [p] == [p] && [p][1..] == [];
    } else {
      var more := pieces + [p];
      assert more[1..] == pieces[1..] + [p] && more[0] == pieces[0];
      OnePieceMore(pieces[1..], p);
      hide Written;
      Associates(Written(pieces[0]), WrittenWord(pieces[1..]), Written(p));
      Associates(pieces[0].text, Meaning(pieces[1..]), p.text);
    }
  }

  lemma {:induction false} OneWordMore(words: seq<Word>, w: Word)
    ensures WrittenWords(words + [w]) == WrittenWords(words) + WrittenWord(w.pieces) + w.gap
    ensures Meanings(words + [w]) == Meanings(words) + [Meaning(w.pieces)]
    decreases |words|
  {
    if words == [] {
      assert words + [w] == [w] && [w][1..] == [];
    } else {
      var more := words + [w];
      assert more[1..] == words[1..] + [w] && more[0] == words[0];
      OneWordMore(words[1..], w);
      hide WrittenWord, Meaning;
      var first, rest, word := WrittenWord(words[0].pieces) + words[0].gap, WrittenWords(words[1..]), WrittenWord(w.pieces);
      Associates(first, rest + word, w.gap);
      Associates(first, rest, word);
    }
  }

  /** What has been read: words with the space after them, pieces of the next one, and the quote that is open. */
  datatype Reading = Reading(words: seq<Word>, pieces: seq<Piece>, open: Option<Piece>)

  ghost predicate ValidReading(r: Reading) {
    && (forall w | w in r.words :: ValidWord(w) && w.gap != [])
    && (forall p | p in r.pieces :: ValidPiece(p))
    && (r.open.Some? ==> r.open.value.Quoted? && ValidPiece(r.open.value))
  }

  function TextOf(r: Reading): Text {
    WrittenWords(r.words) + (WrittenWord(r.pieces) + if r.open.Some? && r.open.value.Quoted? then [r.open.value.quote] + r.open.value.text else [])
  }

  function ValueOf(r: Reading): Text {
    Meaning(r.pieces) + match r.open case None => [] case Some(p) => p.text
  }

  /** The reading is of this text, and the scanner is where it says. */
  ghost predicate ReadAs(text: Text, s: Scanner, r: Reading) {
    && ValidReading(r) && text == TextOf(r)
    && s == Scanner(Meanings(r.words), ValueOf(r), if r.open.Some? then Some(r.open.value.quote) else None,
                    r.pieces != [] || r.open.Some?)
  }

  lemma Closing(r: Reading, p: Piece)
    requires r.open == Some(p) && p.Quoted?
    ensures var next := Reading(r.words, r.pieces + [p], None);
      TextOf(next) == TextOf(r) + [p.quote] && ValueOf(next) == ValueOf(r)
  {
    OnePieceMore(r.pieces, p);
    hide WrittenWords, WrittenWord, Meaning;
    assert TextOf(r) + [p.quote] == WrittenWords(r.words) + ((WrittenWord(r.pieces) + Written(p)) + []);
  }

  lemma Holding(r: Reading, p: Piece, c: CodeUnit)
    requires r.open == Some(p) && p.Quoted?
    ensures var next := r.(open := Some(Quoted(p.quote, p.text + [c])));
      TextOf(next) == TextOf(r) + [c] && ValueOf(next) == ValueOf(r) + [c]
  {
    hide WrittenWords, WrittenWord, Meaning;
    assert [p.quote] + (p.text + [c]) == ([p.quote] + p.text) + [c];
    Associates(Meaning(r.pieces), p.text, [c]);
    Associates(WrittenWord(r.pieces), [p.quote] + p.text, [c]);
    Associates(WrittenWords(r.words), WrittenWord(r.pieces) + ([p.quote] + p.text), [c]);
  }

  lemma Opening(r: Reading, c: CodeUnit)
    requires r.open.None?
    ensures var next := r.(open := Some(Quoted(c, []))); TextOf(next) == TextOf(r) + [c] && ValueOf(next) == ValueOf(r)
  {
    hide WrittenWords, WrittenWord, Meaning;
    assert TextOf(r) + [c] == WrittenWords(r.words) + (WrittenWord(r.pieces) + ([c] + []));
  }

  lemma Baring(r: Reading, c: CodeUnit)
    requires r.open.None?
    ensures var next := r.(pieces := r.pieces + [Bare([c])]);
      TextOf(next) == TextOf(r) + [c] && ValueOf(next) == ValueOf(r) + [c]
  {
    OnePieceMore(r.pieces, Bare([c]));
    hide WrittenWords, WrittenWord, Meaning;
    assert TextOf(r) + [c] == WrittenWords(r.words) + ((WrittenWord(r.pieces) + [c]) + []);
    assert ValueOf(r) + [c] == (Meaning(r.pieces) + [c]) + [];
  }

  lemma Parting(r: Reading, c: CodeUnit)
    requires r.open.None?
    ensures var next := Reading(r.words + [Word(r.pieces, [c])], [], None); TextOf(next) == TextOf(r) + [c]
    ensures ValueOf(r) == Meaning(r.pieces)
  {
    OneWordMore(r.words, Word(r.pieces, [c]));
    assert WrittenWord([]) == [];
    hide WrittenWords, WrittenWord, Meaning;
    assert TextOf(r) + [c] == ((WrittenWords(r.words) + WrittenWord(r.pieces)) + [c]) + ([] + []);
  }

  lemma Widening(front: seq<Word>, last: Word, c: CodeUnit)
    ensures var r, next := Reading(front + [last], [], None), Reading(front + [last.(gap := last.gap + [c])], [], None);
      TextOf(next) == TextOf(r) + [c] && Meanings(next.words) == Meanings(r.words)
  {
    var longer := last.(gap := last.gap + [c]);
    OneWordMore(front, last);
    OneWordMore(front, longer);
    assert WrittenWord([]) == [];
    hide WrittenWords, WrittenWord, Meaning, Meanings;
    Associates(WrittenWords(front) + WrittenWord(last.pieces), last.gap, [c]);
    assert TextOf(Reading(front + [last], [], None)) == WrittenWords(front + [last]);
    assert TextOf(Reading(front + [longer], [], None)) == WrittenWords(front + [longer]);
  }

  lemma ReadInQuotes(text: Text, s: Scanner, r: Reading, c: CodeUnit) returns (next: Reading)
    requires ReadAs(text, s, r) && r.open.Some?
    ensures ReadAs(text + [c], Over(s, c), next)
  {
    hide TextOf, ValueOf, Meanings, IsSpace;
    var open := r.open.value;
    if c == open.quote {
      next := Reading(r.words, r.pieces + [open], None);
      Closing(r, open);
    } else {
      next := r.(open := Some(Quoted(open.quote, open.text + [c])));
      Holding(r, open, c);
    }
  }

  lemma ReadOutside(text: Text, s: Scanner, r: Reading, c: CodeUnit) returns (next: Reading)
    requires ReadAs(text, s, r) && r.open.None? && !IsSpace(c)
    ensures ReadAs(text + [c], Over(s, c), next)
  {
    hide TextOf, ValueOf, Meanings, IsSpace;
    if IsQuote(c) {
      next := r.(open := Some(Quoted(c, [])));
      Opening(r, c);
    } else {
      next := r.(pieces := r.pieces + [Bare([c])]);
      Baring(r, c);
    }
  }

  lemma ReadGap(text: Text, s: Scanner, r: Reading, c: CodeUnit) returns (next: Reading)
    requires ReadAs(text, s, r) && r.open.None? && IsSpace(c) && r.pieces != []
    ensures ReadAs(text + [c], Over(s, c), next)
  {
    assert !IsQuote(c);
    var w := Word(r.pieces, [c]);
    next := Reading(r.words + [w], [], None);
    Parting(r, c);
    OneWordMore(r.words, w);
    assert ValueOf(next) == [];
    hide TextOf, ValueOf, Meanings, Meaning, IsSpace;
  }

  lemma ReadMoreGap(text: Text, s: Scanner, r: Reading, c: CodeUnit) returns (next: Reading)
    requires ReadAs(text, s, r) && r.open.None? && IsSpace(c) && r.pieces == [] && r.words != []
    ensures ReadAs(text + [c], Over(s, c), next)
  {
    assert !IsQuote(c);
    var n := |r.words| - 1;
    var front, last := r.words[..n], r.words[n];
    var longer := last.(gap := last.gap + [c]);
    assert r.words == front + [last] && last in r.words;
    next := Reading(front + [longer], [], None);
    Widening(front, last, c);
    assert ValueOf(next) == ValueOf(r);
    hide TextOf, ValueOf, Meanings, Meaning, IsSpace;
    assert forall w | w in front :: w in r.words;
    assert r == Reading(front + [last], [], None);
  }

  lemma {:induction false} ReadAll(text: Text) returns (r: Reading)
    requires text != [] ==> !IsSpace(text[0])
    ensures ReadAs(text, OverAll(START, text), r)
    decreases |text|
  {
    if text == [] {
      r := Reading([], [], None);
    } else {
      var n := |text| - 1;
      var front := ReadAll(text[..n]);
      assert text == text[..n] + [text[n]];
      OverBoth(START, text[..n], [text[n]]);
      OneUnit(OverAll(START, text[..n]), text[n]);
      hide ReadAs, Over, OverAll, IsSpace;
      if front.open.Some? {
        r := ReadInQuotes(text[..n], OverAll(START, text[..n]), front, text[n]);
      } else if !IsSpace(text[n]) {
        r := ReadOutside(text[..n], OverAll(START, text[..n]), front, text[n]);
      } else if front.pieces != [] {
        r := ReadGap(text[..n], OverAll(START, text[..n]), front, text[n]);
      } else {
        NothingRead(text[..n], OverAll(START, text[..n]), front);
        r := ReadMoreGap(text[..n], OverAll(START, text[..n]), front, text[n]);
      }
    }
  }

  lemma OneUnit(s: Scanner, c: CodeUnit)
    ensures OverAll(s, [c]) == Over(s, c)
  {
    assert [c][1..] == [];
  }

  lemma NothingRead(text: Text, s: Scanner, r: Reading)
    requires ReadAs(text, s, r)
    ensures r.words == [] && r.pieces == [] && r.open.None? ==> text == []
  {
  }

  /** After the last word there is space. */
  lemma ReadingEndsInSpace(text: Text, s: Scanner, r: Reading)
    requires ReadAs(text, s, r) && r.open.None? && r.pieces == [] && text != []
    ensures IsSpace(text[|text| - 1])
  {
    NothingRead(text, s, r);
    var n := |r.words| - 1;
    var last := r.words[n];
    assert r.words == r.words[..n] + [last] && last in r.words;
    OneWordMore(r.words[..n], last);
    hide WrittenWords, IsSpace;
    assert text == (WrittenWords(r.words[..n]) + WrittenWord(last.pieces)) + last.gap;
    assert text[|text| - 1] == last.gap[|last.gap| - 1];
  }

  /** A command is refused for its quotes exactly when it cannot be written as words: bare stretches and closed
      quotes set apart by space. */
  lemma OpenQuotesAreRefused(command: Text)
    ensures Words(command) == None <==>
      Trimmed(command) != [] && forall words | words != [] && ValidWords(words) :: WrittenWords(words) != Trimmed(command)
  {
    var text := Trimmed(command);
    TrimmedEnds(command);
    var r := ReadAll(text);
    if text == [] {
    } else if r.open.None? {
      if r.pieces == [] { ReadingEndsInSpace(text, OverAll(START, text), r); }
      var w := Word(r.pieces, []);
      OneWordMore(r.words, w);
      assert ValidWords(r.words + [w]) && WrittenWords(r.words + [w]) == text;
    } else {
      forall words | words != [] && ValidWords(words)
        ensures WrittenWords(words) != text
      {
        if WrittenWords(words) == text { OverWords([], words); }
      }
    }
  }

  lemma TrimmedEnds(t: Text)
    ensures Trimmed(t) != [] ==> !IsSpace(Trimmed(t)[0]) && !IsSpace(Trimmed(t)[|Trimmed(t)| - 1])
  {
    if Trimmed(t) != [] { var front, back := TrimmedIsCore(t); }
  }

  /** The letter, large or small. */
  predicate Spells(c: CodeUnit, small: CodeUnit)
    requires 0x61 <= small <= 0x7a
  {
    c == small || c == small - 0x20
  }

  /** The word is "git" or "git.exe" in any case. */
  predicate SpellsGit(word: Text) {
    && |word| in {3, 7} && Spells(word[0], 0x67) && Spells(word[1], 0x69) && Spells(word[2], 0x74)
    && (|word| == 7 ==> word[3] == 0x2e && Spells(word[4], 0x65) && Spells(word[5], 0x78) && Spells(word[6], 0x65))
  }

  lemma NamesGitMeans(word: Text)
    ensures NamesGit(word) <==> SpellsGit(word)
  {
    var lower := seq(|word|, i requires 0 <= i < |word| => Lower(word[i]));
    if |word| == 3 {
      assert NamesGit(word) <==> lower[0] == 0x67 && lower[1] == 0x69 && lower[2] == 0x74;
    } else if |word| == 7 {
      assert NamesGit(word) <==>
        lower[0] == 0x67 && lower[1] == 0x69 && lower[2] == 0x74 && lower[3] == 0x2e && lower[4] == 0x65 && lower[5] == 0x78 && lower[6] == 0x65;
    }
  }

  /** Only Git is run, and the words after its name are its arguments. */
  lemma OnlyGitIsRun(command: Text)
    ensures match Words(command)
            case None => ArgumentsOf(command) == BadQuoting
            case Some(words) =>
              if words != [] && SpellsGit(words[0])
              then ArgumentsOf(command).Arguments? && words == [words[0]] + ArgumentsOf(command).args
              else ArgumentsOf(command) == NotGit
  {
    var words := Words(command);
    if words.Some? && words.value != [] { NamesGitMeans(words.value[0]); }
  }

  lemma NothingToTrim(t: Text)
    requires t != [] && !IsSpace(t[0]) && !IsSpace(t[|t| - 1])
    ensures Trimmed(t) == t
  {
  }

  lemma FrontAndLast(m: seq<Text>)
    requires m != []
    ensures ([] + m[..|m| - 1]) + [m[|m| - 1]] == m
  {
  }
}
