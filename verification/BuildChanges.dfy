/** Putting build-generated files back with Git, forty to a command. */
module BuildChanges {
  import opened CodeUnits
  import opened GitCommand

  const BATCH := 40
  const SLASH: CodeUnit := 0x2f
  const REVERSED_SLASH: CodeUnit := 0x5c
  const DOT: CodeUnit := 0x2e
  const DASH: CodeUnit := 0x2d
  const COLON: CodeUnit := 0x3a

  const GIT: Text := [0x67, 0x69, 0x74]
  const CHECKOUT: Text := [0x63, 0x68, 0x65, 0x63, 0x6b, 0x6f, 0x75, 0x74]
  const HEAD: Text := [0x48, 0x45, 0x41, 0x44]
  const SEPARATOR: Text := [DASH, DASH]

  // ---- Which names are accepted ----

  predicate SafeCharacters(name: Text) {
    name != [] && forall c | c in name :: c != DOUBLE && c != 0x0d && c != 0x0a && c != 0
  }

  predicate IsLetter(c: CodeUnit) {
    0x41 <= c <= 0x5a || 0x61 <= c <= 0x7a
  }

  predicate IsSeparator(c: CodeUnit) {
    c == SLASH || c == REVERSED_SLASH
  }

  predicate IsAbsolute(windows: bool, name: Text) {
    if windows then
      name != [] && (IsSeparator(name[0]) || (|name| > 2 && IsLetter(name[0]) && name[1] == COLON && IsSeparator(name[2])))
    else name != [] && name[0] == SLASH
  }

  /** The parts of a path between separators of either kind. */
  function Parts(name: Text): (parts: seq<Text>)
    ensures parts != []
  {
    if name == [] then [[]]
    else
      var rest := Parts(name[1..]);
      if IsSeparator(name[0]) then [[]] + rest else [[name[0]] + rest[0]] + rest[1..]
  }

  predicate SafeRelative(windows: bool, name: Text) {
    && SafeCharacters(name) && name[0] != DASH && !IsAbsolute(windows, name)
    && forall part | part in Parts(name) :: part != [DOT, DOT] && part != []
  }

  // ---- The commands ----

  function Quote(name: Text): Text {
    [DOUBLE] + name + [DOUBLE]
  }

  /** Names in quotes, separated by one space. */
  function Joined(names: seq<Text>): Text {
    if names == [] then []
    else if |names| == 1 then Quote(names[0])
    else Quote(names[0]) + [SPACE] + Joined(names[1..])
  }

  function Before(word: Text, rest: Text): Text {
    word + [SPACE] + rest
  }

  function Command(names: seq<Text>): Text {
    Before(GIT, Before(CHECKOUT, Before(HEAD, Before(SEPARATOR, Joined(names)))))
  }

  function Least(a: nat, b: nat): nat {
    if a < b then a else b
  }

  /** The files in batches. */
  function Batches(files: seq<Text>): seq<seq<Text>>
    decreases |files|
  {
    if files == [] then [] else [files[..Least(BATCH, |files|)]] + Batches(files[Least(BATCH, |files|)..])
  }

  function Commands(batches: seq<seq<Text>>): (commands: seq<Text>)
    ensures |commands| == |batches| && forall i | 0 <= i < |batches| :: commands[i] == Command(batches[i])
  {
    if batches == [] then [] else [Command(batches[0])] + Commands(batches[1..])
  }

  function Flattened(batches: seq<seq<Text>>): seq<Text> {
    if batches == [] then [] else batches[0] + Flattened(batches[1..])
  }

  datatype Restored = Refused | Failed | Done

  lemma NoBatches()
    ensures Commands(Batches([])) == []
  {
  }

  lemma NextBatch(files: seq<Text>, index: nat)
    requires index < |files|
    ensures var end := Least(index + BATCH, |files|);
      Commands(Batches(files[index..])) == [Command(files[index..end])] + Commands(Batches(files[end..]))
  {
    hide Command;
    var rest := files[index..];
    var end := Least(index + BATCH, |files|);
    assert files[index..end] == rest[..Least(BATCH, |rest|)] && files[end..] == rest[Least(BATCH, |rest|)..];
  }

  /** Restores the files, one command for each batch, until one fails. `succeeds` says which do not. */
  method RestoreGeneratedFiles(windows: bool, files: seq<Text>, succeeds: nat -> bool)
    returns (outcome: Restored, executed: seq<Text>)
    ensures outcome.Refused? <==> exists file | file in files :: !SafeRelative(windows, file)
    ensures outcome.Refused? ==> executed == []
    ensures executed <= Commands(Batches(files))
    ensures outcome.Done? ==> executed == Commands(Batches(files))
    ensures outcome.Done? ==> forall k | 0 <= k < |executed| :: succeeds(k)
    ensures outcome.Failed? ==> executed != [] && !succeeds(|executed| - 1)
    ensures outcome.Failed? ==> forall k | 0 <= k < |executed| - 1 :: succeeds(k)
  {
    hide Commands, Batches, SafeRelative;
    NoBatches();
    executed := [];
    assert files[0..] == files;
    if exists file | file in files :: !SafeRelative(windows, file) { return Refused, []; }
    var index := 0;
    while index < |files|
      invariant 0 <= index <= |files|
      invariant Commands(Batches(files)) == executed + Commands(Batches(files[index..]))
      invariant forall k | 0 <= k < |executed| :: succeeds(k)
    {
      NextBatch(files, index);
      var end := Least(index + BATCH, |files|);
      executed := executed + [Command(files[index..end])];
      if !succeeds(|executed| - 1) { return Failed, executed; }
      index := end;
    }
    assert files[index..] == [];
    outcome := Done;
  }

  // ---- What Git is told ----

  lemma {:induction false} BatchesKeepTheFiles(files: seq<Text>)
    ensures Flattened(Batches(files)) == files
    ensures forall b | b in Batches(files) :: 1 <= |b| <= BATCH && forall name | name in b :: name in files
    decreases |files|
  {
    if files != [] {
      var n := Least(BATCH, |files|);
      BatchesKeepTheFiles(files[n..]);
      assert files == files[..n] + files[n..];
    }
  }

  function NameWords(names: seq<Text>): seq<Word> {
    if names == [] then []
    else [Word([Quoted(DOUBLE, names[0])], if |names| == 1 then [] else [SPACE])] + NameWords(names[1..])
  }

  function Bareword(text: Text): Word {
    Word([Bare(text)], [SPACE])
  }

  function CommandWords(names: seq<Text>): seq<Word> {
    [Bareword(GIT)] + ([Bareword(CHECKOUT)] + ([Bareword(HEAD)] + ([Bareword(SEPARATOR)] + NameWords(names))))
  }

  lemma {:induction false} NamesAreWords(names: seq<Text>)
    requires names != [] && forall name | name in names :: DOUBLE !in name
    ensures WrittenWords(NameWords(names)) == Joined(names) && Meanings(NameWords(names)) == names
    ensures ValidWords(NameWords(names)) && |NameWords(names)| == |names|
    decreases |names|
  {
    var first := Word([Quoted(DOUBLE, names[0])], if |names| == 1 then [] else [SPACE]);
    OneWord(first, NameWords(names[1..]));
    assert Quote(names[0]) + [] + [] == Quote(names[0]);
    if |names| > 1 {
      NamesAreWords(names[1..]);
      FrontIsValid(first, NameWords(names[1..]));
    }
  }

  lemma OneWord(w: Word, rest: seq<Word>)
    requires |w.pieces| == 1
    ensures WrittenWords([w] + rest) == Written(w.pieces[0]) + w.gap + WrittenWords(rest)
    ensures Meanings([w] + rest) == [w.pieces[0].text] + Meanings(rest)
  {
    var words := [w] + rest;
    assert words[1..] == rest && words[0] == w;
    assert w.pieces[1..] == [];
    hide Written;
    assert WrittenWord(w.pieces) == Written(w.pieces[0]) + WrittenWord([]);
    assert Meaning(w.pieces) == w.pieces[0].text + Meaning([]) == w.pieces[0].text;
  }

  lemma FrontIsValid(w: Word, rest: seq<Word>)
    requires rest != [] && ValidWords(rest) && ValidWord(w) && w.gap != []
    ensures ValidWords([w] + rest)
  {
    var words := [w] + rest;
    forall i | 0 <= i < |words|
      ensures ValidWord(words[i]) && (words[i].gap == [] <==> i == |words| - 1)
    {
      if i > 0 { assert words[i] == rest[i - 1]; }
    }
  }

  lemma BarewordInFront(text: Text, rest: seq<Word>)
    requires text != [] && (forall c | c in text :: !IsQuote(c) && !IsSpace(c)) && rest != [] && ValidWords(rest)
    ensures WrittenWords([Bareword(text)] + rest) == Before(text, WrittenWords(rest))
    ensures Meanings([Bareword(text)] + rest) == [text] + Meanings(rest)
    ensures ValidWords([Bareword(text)] + rest)
  {
    OneWord(Bareword(text), rest);
    FrontIsValid(Bareword(text), rest);
  }

  lemma CommandIsWords(names: seq<Text>)
    requires names != [] && forall name | name in names :: DOUBLE !in name
    ensures WrittenWords(CommandWords(names)) == Command(names)
    ensures ValidWords(CommandWords(names)) && CommandWords(names) != []
    ensures Meanings(CommandWords(names)) == [GIT] + ([CHECKOUT] + ([HEAD] + ([SEPARATOR] + names)))
  {
    hide WrittenWords, Meanings, ValidWords, Joined, NameWords, Before;
    NamesAreWords(names);
    var w0 := NameWords(names);
    assert w0 != [];
    BarewordInFront(SEPARATOR, w0);
    var w1 := [Bareword(SEPARATOR)] + w0;
    BarewordInFront(HEAD, w1);
    var w2 := [Bareword(HEAD)] + w1;
    BarewordInFront(CHECKOUT, w2);
    BarewordInFront(GIT, [Bareword(CHECKOUT)] + w2);
  }

  /** Whatever the files are called, Git is told to check out exactly the files of the batch. */
  lemma CommandNamesTheBatch(names: seq<Text>)
    requires names != [] && forall name | name in names :: SafeCharacters(name)
    ensures ArgumentsOf(Command(names)) == Arguments([CHECKOUT, HEAD, SEPARATOR] + names)
  {
    CommandIsWords(names);
    SplittingGivesMeanings(CommandWords(names));
    GitComesFirst();
    FourInFront(GIT, CHECKOUT, HEAD, SEPARATOR, names);
    hide Words, Command, CommandWords, NamesGit, Meanings;
  }

  lemma FourInFront(a: Text, b: Text, c: Text, d: Text, rest: seq<Text>)
    ensures var words := [a] + ([b] + ([c] + ([d] + rest))); words[0] == a && words[1..] == [b, c, d] + rest
  {
  }

  lemma GitComesFirst()
    ensures NamesGit(GIT)
  {
    assert seq(|GIT|, i requires 0 <= i < |GIT| => Lower(GIT[i])) == [0x67, 0x69, 0x74];
  }

  /** All files, in order, none twice and none left out: the commands for any accepted list check out its
      batches, and the batches make up the list. */
  lemma AllFilesAreRestored(windows: bool, files: seq<Text>)
    requires forall file | file in files :: SafeRelative(windows, file)
    ensures var batches, commands := Batches(files), Commands(Batches(files));
      && Flattened(batches) == files
      && forall i | 0 <= i < |batches| ::
           1 <= |batches[i]| <= BATCH && ArgumentsOf(commands[i]) == Arguments([CHECKOUT, HEAD, SEPARATOR] + batches[i])
  {
    BatchesKeepTheFiles(files);
    var batches := Batches(files);
    forall i | 0 <= i < |batches|
      ensures 1 <= |batches[i]| <= BATCH
      ensures ArgumentsOf(Command(batches[i])) == Arguments([CHECKOUT, HEAD, SEPARATOR] + batches[i])
    {
      assert batches[i] in batches;
      assert forall name | name in batches[i] :: SafeRelative(windows, name);
      CommandNamesTheBatch(batches[i]);
    }
  }

  /** A stretch of the name between separators. */
  ghost predicate Segment(name: Text, from: nat, to: nat) {
    && from <= to <= |name|
    && (from == 0 || name[from - 1] == 0x2f || name[from - 1] == 0x5c)
    && (to == |name| || name[to] == 0x2f || name[to] == 0x5c)
    && forall i | from <= i < to :: name[i] != 0x2f && name[i] != 0x5c
  }

  /** A stretch that does not end at once goes on in the rest. */
  lemma SegmentInRest(name: Text, from: nat, to: nat)
    requires name != [] && Segment(name, from, to) && to > 0
    ensures from > 0 ==> Segment(name[1..], from - 1, to - 1) && name[from..to] == name[1..][from - 1..to - 1]
    ensures from == 0 ==> !IsSeparator(name[0]) && Segment(name[1..], 0, to - 1)
    ensures from == 0 ==> name[0..to] == [name[0]] + name[1..][0..to - 1]
  {
    var rest := name[1..];
    assert forall i | 0 < i < |name| :: rest[i - 1] == name[i];
  }

  lemma {:induction false} SegmentIsPart(name: Text, from: nat, to: nat) returns (k: nat)
    requires Segment(name, from, to)
    ensures k < |Parts(name)| && name[from..to] == Parts(name)[k] && (from == 0 <==> k == 0)
    decreases |name|
  {
    if to == 0 {
      k := 0;
    } else {
      var rest := name[1..];
      SegmentInRest(name, from, to);
      hide Segment;
      k := SegmentIsPart(rest, if from == 0 then 0 else from - 1, to - 1);
      if IsSeparator(name[0]) { k := k + 1; }
    }
  }

  /** A stretch of the rest is one of the whole; the first may be longer by one. */
  lemma SegmentOfRest(name: Text, from: nat, to: nat)
    requires name != [] && Segment(name[1..], from, to)
    ensures from > 0 || IsSeparator(name[0]) ==> Segment(name, from + 1, to + 1)
    ensures from == 0 && !IsSeparator(name[0]) ==> Segment(name, 0, to + 1) && name[0..to + 1] == [name[0]] + name[1..][0..to]
    ensures name[from + 1..to + 1] == name[1..][from..to]
  {
    var rest := name[1..];
    assert forall i | from <= i < to :: name[i + 1] == rest[i];
  }

  lemma {:induction false} PartIsSegment(name: Text, k: nat) returns (from: nat, to: nat)
    requires k < |Parts(name)|
    ensures Segment(name, from, to) && name[from..to] == Parts(name)[k] && (from == 0 <==> k == 0)
    decreases |name|
  {
    if name == [] || (IsSeparator(name[0]) && k == 0) {
      from, to := 0, 0;
    } else {
      var rest := name[1..];
      from, to := PartIsSegment(rest, if IsSeparator(name[0]) then k - 1 else k);
      SegmentOfRest(name, from, to);
      hide Segment;
      if from > 0 || IsSeparator(name[0]) { from := from + 1; }
      to := to + 1;
    }
  }

  /** Accepted is exactly a name that breaks no quotes or lines, cannot be taken for an option, is not absolute,
      and neither climbs out of a directory nor has an empty stretch. */
  lemma AcceptedNamesStayInside(windows: bool, name: Text)
    ensures SafeRelative(windows, name) <==>
      && |name| > 0 && (forall c | c in name :: c !in [0x22, 0x0d, 0x0a, 0x00])
      && name[0] != 0x2d && name[0] != 0x2f && (windows ==> name[0] != 0x5c)
      && (windows ==> !(|name| > 2 && (0x41 <= name[0] <= 0x5a || 0x61 <= name[0] <= 0x7a) && name[1] == 0x3a && name[2] in [0x2f, 0x5c]))
      && forall from: nat, to: nat | Segment(name, from, to) :: name[from..to] !in [[], [0x2e, 0x2e]]
  {
    forall from: nat, to: nat | Segment(name, from, to)
      ensures name[from..to] in Parts(name)
    {
      var k := SegmentIsPart(name, from, to);
    }
    forall k | 0 <= k < |Parts(name)|
      ensures exists from: nat, to: nat :: Segment(name, from, to) && name[from..to] == Parts(name)[k]
    {
      var from, to := PartIsSegment(name, k);
    }
  }
}
