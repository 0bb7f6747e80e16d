/** The streaming redactor of command output: a buffer and a loop that decide, position by position,
    whether to redact, to wait for more text, or to emit. */
module SecretRedactor {
  import opened Collections
  import opened CodeUnits

  /** What has been written: a code unit of the input, or a marker in place of a secret. */
  datatype Token = Plain(unit: CodeUnit) | Marker(secret: Text)

  datatype Scanned = Scanned(tokens: seq<Token>, rest: Text)

  /** The text "[redacted]". */
  const MARKER: Text := [0x5b, 0x72, 0x65, 0x64, 0x61, 0x63, 0x74, 0x65, 0x64, 0x5d]

  predicate Usable(values: seq<Text>) {
    forall v | v in values :: v != []
  }

  predicate LongestFirst(values: seq<Text>) {
    forall i, j | 0 <= i < j < |values| :: |values[i]| >= |values[j]|
  }

  predicate NoRepeats(values: seq<Text>) {
    forall i, j | 0 <= i < j < |values| :: values[i] != values[j]
  }

  /** The first of the values the buffer starts with. */
  function Match(values: seq<Text>, pending: Text): (found: seq<Text>)
    ensures |found| <= 1
    ensures found != [] ==> found[0] in values && found[0] <= pending
    ensures found == [] ==> forall v | v in values :: !(v <= pending)
  {
    if values == [] then []
    else
      assert forall v | v in values :: v == values[0] || v in values[1..];
      if values[0] <= pending then [values[0]] else Match(values[1..], pending)
  }

  /** The buffer may still turn out to be the beginning of a secret. */
  predicate Waits(values: seq<Text>, pending: Text) {
    exists i | 0 <= i < |values| :: pending <= values[i]
  }

  /** What the loop does to a buffer. */
  function Scan(values: seq<Text>, pending: Text): (s: Scanned)
    requires Usable(values)
    decreases |pending|
  {
    if pending == [] then Scanned([], [])
    else
      var found := Match(values, pending);
      if found != [] then
        var next := Scan(values, pending[|found[0]|..]);
        Scanned([Marker(found[0])] + next.tokens, next.rest)
      else if Waits(values, pending) then Scanned([], pending)
      else
        var next := Scan(values, pending[1..]);
        Scanned([Plain(pending[0])] + next.tokens, next.rest)
  }

  /** Scanning what is left over together with the text that follows. */
  function Resume(values: seq<Text>, s: Scanned, text: Text): Scanned
    requires Usable(values)
  {
    var next := Scan(values, s.rest + text);
    Scanned(s.tokens + next.tokens, next.rest)
  }

  /** The input that tokens stand for. */
  function Original(tokens: seq<Token>): Text {
    if tokens == [] then [] else Replaced(tokens[0]) + Original(tokens[1..])
  }

  function Replaced(t: Token): Text {
    match t case Plain(c) => [c] case Marker(s) => s
  }

  /** The output a reader sees. */
  function Shown(tokens: seq<Token>): Text {
    if tokens == [] then [] else Visible(tokens[0]) + Shown(tokens[1..])
  }

  function Visible(t: Token): Text {
    match t case Plain(c) => [c] case Marker(_) => MARKER
  }

  lemma {:induction false} OriginalAppends(a: seq<Token>, b: seq<Token>)
    ensures Original(a + b) == Original(a) + Original(b)
  {
    if a == [] {
      assert a + b == b;
    } else {
      assert (a + b)[1..] == a[1..] + b;
      OriginalAppends(a[1..], b);
    }
  }

  /** Substituting each marker by the text it replaced gives back the input. */
  lemma {:induction false} ScanLosesNothing(values: seq<Text>, pending: Text)
    requires Usable(values)
    ensures var s := Scan(values, pending); Original(s.tokens) + s.rest == pending
    decreases |pending|
  {
    if pending != [] {
      var found := Match(values, pending);
      if found != [] {
        var tail := pending[|found[0]|..];
        ScanLosesNothing(values, tail);
        FirstTokenAdds(Marker(found[0]), Scan(values, tail).tokens, Scan(values, tail).rest);
      } else if !Waits(values, pending) {
        ScanLosesNothing(values, pending[1..]);
        FirstTokenAdds(Plain(pending[0]), Scan(values, pending[1..]).tokens, Scan(values, pending[1..]).rest);
      }
    }
  }

  lemma FirstTokenAdds(first: Token, tokens: seq<Token>, rest: Text)
    ensures Original([first] + tokens) + rest == Replaced(first) + (Original(tokens) + rest)
  {
    assert ([first] + tokens)[1..] == tokens;
  }

  ghost predicate ReplacesOnly(values: seq<Text>, tokens: seq<Token>) {
    forall t | t in tokens :: t.Marker? ==> t.secret in values
  }

  /** Nothing but secrets is replaced. */
  lemma {:induction false} ScanReplacesOnlySecrets(values: seq<Text>, pending: Text)
    requires Usable(values)
    ensures ReplacesOnly(values, Scan(values, pending).tokens)
    decreases |pending|
  {
    if pending != [] {
      var found := Match(values, pending);
      if found != [] {
        ScanReplacesOnlySecrets(values, pending[|found[0]|..]);
      } else if !Waits(values, pending) {
        ScanReplacesOnlySecrets(values, pending[1..]);
      }
    }
  }

  /** What stays in the buffer is the beginning of some secret, not all of it, and waits again. */
  lemma {:induction false} RestIsProperPrefix(values: seq<Text>, pending: Text)
    requires Usable(values)
    ensures var rest := Scan(values, pending).rest;
            && (rest != [] ==> exists v | v in values :: rest < v)
            && Scan(values, rest) == Scanned([], rest)
    decreases |pending|
  {
    if pending != [] {
      var found := Match(values, pending);
      if found != [] {
        RestIsProperPrefix(values, pending[|found[0]|..]);
      } else if !Waits(values, pending) {
        RestIsProperPrefix(values, pending[1..]);
      } else {
        var i :| 0 <= i < |values| && pending <= values[i];
        assert values[i] in values;
        ProperPrefix(pending, values[i]);
      }
    }
  }

  lemma ProperPrefix(a: Text, b: Text)
    requires a <= b && !(b <= a)
    ensures a < b
  {
  }

  // ---- No secret leaks, for any set of secrets and any way of splitting the input ----

  function Plains(text: Text): (tokens: seq<Token>)
    ensures |tokens| == |text|
  {
    seq(|text|, i requires 0 <= i < |text| => Plain(text[i]))
  }

  /** The emitted units at `i` spell the secret. */
  predicate LeaksAt(output: seq<Token>, i: nat, secret: Text) {
    i + |secret| <= |output| && output[i..i + |secret|] == Plains(secret)
  }

  ghost predicate NoLeak(values: seq<Text>, output: seq<Token>) {
    forall i: nat, v | v in values :: !LeaksAt(output, i, v)
  }

  predicate Comparable(a: Text, b: Text) {
    a <= b || b <= a
  }

  /** The output ends, from `i` on, in the run of units `s`. */
  predicate Runs(output: seq<Token>, i: nat, s: Text) {
    i < |output| && output[i..] == Plains(s)
  }

  /** No secret can come about by continuing the run of units at the end of the output. */
  ghost predicate Guarded(values: seq<Text>, output: seq<Token>, pending: Text) {
    forall i, s, v | Runs(output, i, s) && v in values :: !Comparable(v, s + pending)
  }

  lemma GuardSurvivesInput(values: seq<Text>, output: seq<Token>, pending: Text, text: Text)
    requires Guarded(values, output, pending)
    ensures Guarded(values, output, pending + text)
  {
    forall i, s, v | Runs(output, i, s) && v in values
      ensures !Comparable(v, s + (pending + text))
    {
      assert !Comparable(v, s + pending);
      var longer := s + (pending + text);
      assert longer == (s + pending) + text;
      assert s + pending <= longer;
      if v <= longer { PrefixesCompare(v, s + pending, longer); }
    }
  }

  lemma MarkerKeepsGuard(values: seq<Text>, output: seq<Token>, pending: Text, secret: Text)
    requires NoLeak(values, output)
    ensures Guarded(values, output + [Marker(secret)], pending)
    ensures Usable(values) ==> NoLeak(values, output + [Marker(secret)])
  {
    var after := output + [Marker(secret)];
    forall i: nat, s | i < |after|
      ensures !Runs(after, i, s)
    {
      assert after[i..][|after| - 1 - i] == Marker(secret);
    }
    if Usable(values) {
      forall i: nat, v | v in values
        ensures !LeaksAt(after, i, v)
      {
        NoOldLeak(values, output, Marker(secret), i, v);
        if i + |v| == |after| { assert after[i..i + |v|][|v| - 1] == Marker(secret); }
      }
    }
  }

  lemma NoOldLeak(values: seq<Text>, output: seq<Token>, t: Token, i: nat, v: Text)
    requires NoLeak(values, output) && v in values
    ensures i + |v| <= |output| ==> !LeaksAt(output + [t], i, v)
  {
    if i + |v| <= |output| {
      assert !LeaksAt(output, i, v);
      assert (output + [t])[i..i + |v|] == output[i..i + |v|];
    }
  }

  lemma PlainKeepsGuard(values: seq<Text>, output: seq<Token>, pending: Text)
    requires Usable(values) && pending != [] && NoLeak(values, output) && Guarded(values, output, pending)
    requires Match(values, pending) == [] && !Waits(values, pending)
    ensures Guarded(values, output + [Plain(pending[0])], pending[1..])
    ensures NoLeak(values, output + [Plain(pending[0])])
  {
    var after := output + [Plain(pending[0])];
    forall i, s, v | Runs(after, i, s) && v in values
      ensures !Comparable(v, s + pending[1..])
    {
      PlainKeepsGuardAt(values, output, pending, i, s, v);
    }
    forall i: nat, v | v in values
      ensures !LeaksAt(after, i, v)
    {
      NoOldLeak(values, output, Plain(pending[0]), i, v);
      if i + |v| == |after| {
        assert after[i..i + |v|] == after[i..];
        assert v <= v + pending[1..];
        assert Runs(after, i, v) ==> !Comparable(v, v + pending[1..]);
      }
    }
  }

  lemma PlainKeepsGuardAt(values: seq<Text>, output: seq<Token>, pending: Text, i: nat, s: Text, v: Text)
    requires pending != [] && Guarded(values, output, pending) && v in values
    requires Match(values, pending) == [] && !Waits(values, pending)
    requires Runs(output + [Plain(pending[0])], i, s)
    ensures !Comparable(v, s + pending[1..])
  {
    RunWithoutLast(output, pending[0], i, s);
    var front := s[..|s| - 1];
    MoveFirst(front, pending);
    if i < |output| {
      assert !Comparable(v, front + pending);
    } else {
      assert front + pending == pending;
      var n :| 0 <= n < |values| && values[n] == v;
      assert !(pending <= values[n]);
    }
  }

  lemma MoveFirst(front: Text, pending: Text)
    requires pending != []
    ensures (front + [pending[0]]) + pending[1..] == front + pending
  {
  }

  lemma RunWithoutLast(output: seq<Token>, c: CodeUnit, i: nat, s: Text)
    requires Runs(output + [Plain(c)], i, s)
    ensures s != [] && s == s[..|s| - 1] + [c]
    ensures if i < |output| then Runs(output, i, s[..|s| - 1]) else s[..|s| - 1] == []
  {
    var after := output + [Plain(c)];
    assert |s| == |after| - i;
    assert after[i..][|s| - 1] == Plains(s)[|s| - 1];
    if i < |output| {
      forall k | 0 <= k < |s| - 1
        ensures output[i..][k] == Plains(s[..|s| - 1])[k]
      {
        assert after[i..][k] == Plains(s)[k];
      }
      assert output[i..] == Plains(s[..|s| - 1]);
    }
  }

  /** Whatever the secrets are and however the input is split, no secret is ever emitted in the clear. */
  lemma {:induction false} ScanNeverLeaks(values: seq<Text>, output: seq<Token>, pending: Text)
    requires Usable(values) && NoLeak(values, output) && Guarded(values, output, pending)
    ensures var s := Scan(values, pending);
            NoLeak(values, output + s.tokens) && Guarded(values, output + s.tokens, s.rest)
    decreases |pending|
  {
    if pending == [] {
      assert output + [] == output;
    } else {
      var found := Match(values, pending);
      if found != [] {
        var marker := [Marker(found[0])];
        MarkerKeepsGuard(values, output, pending[|found[0]|..], found[0]);
        ScanNeverLeaks(values, output + marker, pending[|found[0]|..]);
        assert output + Scan(values, pending).tokens == (output + marker) + Scan(values, pending[|found[0]|..]).tokens;
      } else if Waits(values, pending) {
        assert output + [] == output;
      } else {
        var plain := [Plain(pending[0])];
        PlainKeepsGuard(values, output, pending);
        ScanNeverLeaks(values, output + plain, pending[1..]);
        assert output + Scan(values, pending).tokens == (output + plain) + Scan(values, pending[1..]).tokens;
      }
    }
  }

  // ---- Independence of the way the input is split ----

  ghost predicate PrefixFree(values: seq<Text>) {
    forall v, w | v in values && w in values && v <= w :: v == w
  }

  ghost predicate SplitsAlike(values: seq<Text>, a: Text, b: Text)
    requires Usable(values)
  {
    Resume(values, Scan(values, a), b) == Scan(values, a + b)
  }

  /** A reader sees the same output, and the same text is held back, wherever the input is split. */
  ghost predicate ChunkIndependent(values: seq<Text>)
    requires Usable(values)
  {
    forall a, b :: ShowsAlike(values, a, b)
  }

  ghost predicate ShowsAlike(values: seq<Text>, a: Text, b: Text)
    requires Usable(values)
  {
    var split, whole := Resume(values, Scan(values, a), b), Scan(values, a + b);
    Shown(split.tokens) == Shown(whole.tokens) && split.rest == whole.rest
  }

  /** Two secrets matching the same text are the same when none begins another. */
  lemma MatchIsUnique(values: seq<Text>, a: Text, b: Text)
    requires PrefixFree(values) && Match(values, a) != []
    ensures Match(values, a + b) == Match(values, a)
  {
    var m := Match(values, a)[0];
    assert m <= a + b by { assert a + b == m + ((a + b)[|m|..]); }
    var m' := Match(values, a + b)[0];
    PrefixesCompare(m, m', a + b);
  }

  lemma {:induction false} PrefixFreeSplitsAlike(values: seq<Text>, a: Text, b: Text)
    requires Usable(values) && PrefixFree(values)
    ensures SplitsAlike(values, a, b)
    decreases |a|
  {
    if a == [] {
      assert [] + b == b && a + b == b;
    } else {
      var found := Match(values, a);
      if found != [] {
        MatchIsUnique(values, a, b);
        var n := |found[0]|;
        assert (a + b)[n..] == a[n..] + b;
        PrefixFreeSplitsAlike(values, a[n..], b);
        TokensAssociate([Marker(found[0])], Scan(values, a[n..]).tokens, Scan(values, Scan(values, a).rest + b).tokens);
      } else if !Waits(values, a) {
        NothingLater(values, a, b);
        assert (a + b)[1..] == a[1..] + b && (a + b)[0] == a[0];
        PrefixFreeSplitsAlike(values, a[1..], b);
        TokensAssociate([Plain(a[0])], Scan(values, a[1..]).tokens, Scan(values, Scan(values, a).rest + b).tokens);
      }
    }
  }

  lemma TokensAssociate(a: seq<Token>, b: seq<Token>, c: seq<Token>)
    ensures (a + b) + c == a + (b + c)
  {
  }

  /** Text that neither is nor begins a secret stays so when more arrives. */
  lemma NothingLater(values: seq<Text>, a: Text, b: Text)
    requires Match(values, a) == [] && !Waits(values, a)
    ensures Match(values, a + b) == [] && !Waits(values, a + b)
  {
    forall i | 0 <= i < |values|
      ensures !(values[i] <= a + b) && !(a + b <= values[i])
    {
      assert values[i] in values;
      assert a <= a + b;
      if values[i] <= a + b { PrefixesCompare(a, values[i], a + b); }
    }
    assert forall v | v in values :: !(v <= a + b);
  }

  lemma MatchIsLongest(values: seq<Text>, pending: Text, v: Text)
    requires LongestFirst(values) && v in values && v <= pending
    ensures Match(values, pending) != [] && |Match(values, pending)[0]| >= |v|
  {
    if values[0] <= pending {
      var i :| 0 <= i < |values| && values[i] == v;
    } else {
      assert v in values[1..];
      MatchIsLongest(values[1..], pending, v);
    }
  }

  lemma WholeSecretIsOneMarker(values: seq<Text>, v: Text)
    requires Usable(values) && LongestFirst(values) && v in values
    ensures Scan(values, v) == Scanned([Marker(v)], [])
  {
    MatchIsLongest(values, v, v);
    var m := Match(values, v)[0];
    assert m == v;
    assert v[|v|..] == [];
  }

  lemma {:induction false} ScanShowsSomething(values: seq<Text>, pending: Text)
    requires Usable(values) && pending != []
    ensures Scan(values, pending).rest != [] || |Shown(Scan(values, pending).tokens)| > 0
  {
  }

  /** A secret that begins another one is redacted before the rest of the longer one can arrive. */
  lemma SplitShows(values: seq<Text>, v: Text, w: Text)
    requires Usable(values) && LongestFirst(values) && v in values && w in values && v < w
    ensures !ShowsAlike(values, v, w[|v|..])
  {
    var b := w[|v|..];
    assert v + b == w;
    WholeSecretIsOneMarker(values, v);
    WholeSecretIsOneMarker(values, w);
    assert [] + b == b;
    ScanShowsSomething(values, b);
    var tail := Scan(values, b).tokens;
    assert Shown([Marker(w)]) == MARKER + Shown([]);
    assert ([Marker(v)] + tail)[1..] == tail;
  }

  /** The way the input is split shows exactly when one secret begins another. */
  lemma SplittingShowsExactlyWithNestedSecrets(values: seq<Text>)
    requires Usable(values) && LongestFirst(values)
    ensures ChunkIndependent(values) <==> PrefixFree(values)
  {
    if PrefixFree(values) {
      forall a, b
        ensures ShowsAlike(values, a, b)
      {
        PrefixFreeSplitsAlike(values, a, b);
      }
    } else {
      var v, w :| v in values && w in values && v <= w && v != w;
      SplitShows(values, v, w);
    }
  }

  function Joined(chunks: seq<Text>): Text {
    if chunks == [] then [] else Joined(chunks[..|chunks| - 1]) + chunks[|chunks| - 1]
  }

  /** One write after another. */
  function ScanAll(values: seq<Text>, chunks: seq<Text>): Scanned
    requires Usable(values)
  {
    if chunks == [] then Scanned([], []) else Resume(values, ScanAll(values, chunks[..|chunks| - 1]), chunks[|chunks| - 1])
  }

  /** Redacting a stream piece by piece is redacting the whole text at once. */
  lemma {:induction false} StreamingRefinesWhole(values: seq<Text>, chunks: seq<Text>)
    requires Usable(values) && PrefixFree(values)
    ensures ScanAll(values, chunks) == Scan(values, Joined(chunks))
  {
    if chunks != [] {
      var front := chunks[..|chunks| - 1];
      StreamingRefinesWhole(values, front);
      PrefixFreeSplitsAlike(values, Joined(front), chunks[|chunks| - 1]);
    }
  }

  /** The reference: at each position replace the first secret found there, or copy one unit. */
  function Redacted(values: seq<Text>, text: Text): seq<Token>
    requires Usable(values)
    decreases |text|
  {
    if text == [] then []
    else
      var found := Match(values, text);
      if found != [] then [Marker(found[0])] + Redacted(values, text[|found[0]|..])
      else [Plain(text[0])] + Redacted(values, text[1..])
  }

  /** A stream shows what redacting all of it would show, up to the text that is held back. */
  lemma {:induction false} StreamShowsTheReference(values: seq<Text>, chunks: seq<Text>)
    requires Usable(values) && PrefixFree(values)
    ensures var s := ScanAll(values, chunks); Redacted(values, Joined(chunks)) == s.tokens + Redacted(values, s.rest)
  {
    StreamingRefinesWhole(values, chunks);
    ScanFollowsTheReference(values, Joined(chunks));
  }

  lemma {:induction false} ScanFollowsTheReference(values: seq<Text>, text: Text)
    requires Usable(values)
    ensures Redacted(values, text) == Scan(values, text).tokens + Redacted(values, Scan(values, text).rest)
    decreases |text|
  {
    if text != [] {
      var found := Match(values, text);
      if found != [] {
        ScanFollowsTheReference(values, text[|found[0]|..]);
      } else if !Waits(values, text) {
        ScanFollowsTheReference(values, text[1..]);
      }
    }
  }

  // ---- The object that does it ----

  /** Adds one secret to the list, keeping longer ones first; empty and repeated ones are dropped. */
  function Insert(values: seq<Text>, v: Text): (r: seq<Text>)
    ensures forall x :: x in r <==> x in values || (x == v && v != [])
  {
    if v == [] || v in values then values
    else if values == [] || |v| > |values[0]| then [v] + values
    else
      assert values == [values[0]] + values[1..];
      [values[0]] + Insert(values[1..], v)
  }

  lemma {:induction false} InsertKeepsOrder(values: seq<Text>, v: Text)
    requires LongestFirst(values) && NoRepeats(values)
    ensures LongestFirst(Insert(values, v)) && NoRepeats(Insert(values, v))
  {
    if v != [] && v !in values {
      if values == [] || |v| > |values[0]| {
        Prepends(v, values);
      } else {
        TailKeepsOrder(values);
        InsertKeepsOrder(values[1..], v);
        Prepends(values[0], Insert(values[1..], v));
      }
    }
  }

  lemma TailKeepsOrder(values: seq<Text>)
    requires values != [] && LongestFirst(values) && NoRepeats(values)
    ensures LongestFirst(values[1..]) && NoRepeats(values[1..])
    ensures values[0] !in values[1..] && forall x | x in values[1..] :: |values[0]| >= |x|
  {
    forall i, j | 0 <= i < j < |values[1..]|
      ensures |values[1..][i]| >= |values[1..][j]| && values[1..][i] != values[1..][j]
    {
      assert values[1..][i] == values[i + 1] && values[1..][j] == values[j + 1];
    }
    forall i | 0 <= i < |values[1..]|
      ensures values[1..][i] != values[0] && |values[0]| >= |values[1..][i]|
    {
      assert values[1..][i] == values[i + 1];
    }
  }

  lemma Prepends(first: Text, rest: seq<Text>)
    requires LongestFirst(rest) && NoRepeats(rest) && first !in rest
    requires rest == [] || |first| >= |rest[0]|
    ensures LongestFirst([first] + rest) && NoRepeats([first] + rest)
  {
    var all := [first] + rest;
    forall i, j | 0 <= i < j < |all|
      ensures |all[i]| >= |all[j]| && all[i] != all[j]
    {
      assert all[j] == rest[j - 1] && |rest[0]| >= |rest[j - 1]|;
      if i > 0 { assert all[i] == rest[i - 1]; }
    }
  }

  function Arranged(secrets: seq<Text>): (values: seq<Text>)
    ensures LongestFirst(values) && NoRepeats(values) && Usable(values)
    ensures forall x :: x in values <==> x in secrets && x != []
  {
    if secrets == [] then []
    else
      var front, last := secrets[..|secrets| - 1], secrets[|secrets| - 1];
      assert secrets == front + [last];
      InsertKeepsOrder(Arranged(front), last);
      Insert(Arranged(front), last)
  }

  /** What holds of what was emitted, what is held back and what was received. */
  ghost predicate Sound(values: seq<Text>, output: seq<Token>, pending: Text, received: Text)
    requires Usable(values)
  {
    && Original(output) + pending == received
    && NoLeak(values, output) && Guarded(values, output, pending)
    && (pending != [] ==> exists v | v in values :: pending < v)
    && Scan(values, pending) == Scanned([], pending)
  }

  lemma WritingKeepsValid(values: seq<Text>, output: seq<Token>, pending: Text, received: Text, text: Text)
    requires Usable(values) && Sound(values, output, pending, received)
    ensures var s := Scan(values, pending + text); Sound(values, output + s.tokens, s.rest, received + text)
  {
    hide Scan, Guarded, NoLeak, Original, Usable;
    var s := Scan(values, pending + text);
    GuardSurvivesInput(values, output, pending, text);
    ScanNeverLeaks(values, output, pending + text);
    RestIsProperPrefix(values, pending + text);
    assert Original(output + s.tokens) + s.rest == received + text by {
      ScanLosesNothing(values, pending + text);
      OriginalAppends(output, s.tokens);
      Associates(Original(output), Original(s.tokens), s.rest);
      Associates(Original(output), pending, text);
    }
  }

  lemma Associates(a: Text, b: Text, c: Text)
    ensures (a + b) + c == a + (b + c)
  {
  }

  class Redactor {
    const values: seq<Text>
    var pending: Text
    /** Everything written so far. */
    var output: seq<Token>
    /** Everything received so far. */
    ghost var received: Text

    ghost predicate Valid()
      reads this
    {
      Usable(values) && LongestFirst(values) && Sound(values, output, pending, received)
    }

    constructor (secrets: seq<Text>)
      ensures Valid() && output == [] && pending == [] && received == []
      ensures forall x :: x in values <==> x in secrets && x != []
    {
      values := Arranged(secrets);
      pending, output, received := [], [], [];
    }

    method Write(text: Text)
      requires Valid()
      modifies this
      ensures Valid() && received == old(received) + text
      ensures output == old(output) + Scan(values, old(pending) + text).tokens
      ensures pending == Scan(values, old(pending) + text).rest
    {
      assert values == [] ==> pending == [];
      WritingKeepsValid(values, output, pending, received, text);
      hide Scan, Sound;
      received := received + text;
      var safe: seq<Token>;
      if values == [] {
        WithoutSecrets(values, text);
        assert pending + text == text;
        safe := Plains(text);
      } else {
        pending := pending + text;
        safe := Consume();
      }
      output := output + safe;
    }

    /** Takes from the buffer what can be decided now. */
    method Consume() returns (safe: seq<Token>)
      requires Usable(values)
      modifies `pending
      ensures Scanned(safe, pending) == Scan(values, old(pending))
    {
      safe := [];
      while pending != []
        invariant safe + Scan(values, pending).tokens == Scan(values, old(pending)).tokens
        invariant Scan(values, pending).rest == Scan(values, old(pending)).rest
        decreases |pending|
      {
        var found := Match(values, pending);
        if found != [] {
          TokensAssociate(safe, [Marker(found[0])], Scan(values, pending[|found[0]|..]).tokens);
          safe := safe + [Marker(found[0])];
          pending := pending[|found[0]|..];
        } else if Waits(values, pending) {
          break;
        } else {
          TokensAssociate(safe, [Plain(pending[0])], Scan(values, pending[1..]).tokens);
          safe := safe + [Plain(pending[0])];
          pending := pending[1..];
        }
      }
    }

    /** A truncated secret is still sensitive: what is held back becomes a marker. */
    method End()
      requires Valid()
      modifies this
      ensures Valid() && pending == [] && received == old(received) && Original(output) == received
      ensures output == old(output) + (if old(pending) == [] then [] else [Marker(old(pending))])
    {
      if pending != [] {
        MarkerKeepsGuard(values, output, [], pending);
        OriginalAppends(output, [Marker(pending)]);
        assert Original([Marker(pending)]) == pending + Original([]);
        output := output + [Marker(pending)];
      }
      pending := [];
    }
  }

  lemma {:induction false} WithoutSecrets(values: seq<Text>, text: Text)
    requires values == []
    ensures Scan(values, text) == Scanned(Plains(text), [])
    decreases |text|
  {
    if text != [] {
      WithoutSecrets(values, text[1..]);
      assert Plains(text) == [Plain(text[0])] + Plains(text[1..]);
    }
  }
}
