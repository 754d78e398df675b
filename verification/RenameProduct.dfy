/** The one-pass renamer: every leftmost-longest token is rewritten once, values included as tokens so
    that they stay as they are. */
module RenameProduct {
  import opened Prelude

  type Rules = seq<(string, string)>

  // ----- the rules -----

  /** `new Map(replacements).get(key)`: the last rule for a key counts. */
  function Lookup(rules: Rules, key: string): Option<string> {
    if rules == [] then None
    else if rules[|rules| - 1].0 == key then Some(rules[|rules| - 1].1)
    else Lookup(rules[..|rules| - 1], key)
  }

  predicate IsValue(rules: Rules, token: string) {
    exists i :: 0 <= i < |rules| && rules[i].1 == token
  }

  predicate IsKey(rules: Rules, token: string) {
    exists i :: 0 <= i < |rules| && rules[i].0 == token
  }

  /** What a match is replaced by. With no rules the pattern is empty and `get("")` is undefined. */
  function Rewritten(rules: Rules, token: string): string {
    if IsValue(rules, token) then token
    else match Lookup(rules, token) case Some(value) => value case None => "undefined"
  }

  /** A value stays as it is, even when it is a key too; any other key becomes what its last rule says. */
  lemma {:induction false} RewrittenExactly(rules: Rules, i: nat)
    requires i < |rules| && forall j :: i < j < |rules| ==> rules[j].0 != rules[i].0
    ensures Lookup(rules, rules[i].0) == Some(rules[i].1)
    ensures Rewritten(rules, rules[i].0) == if IsValue(rules, rules[i].0) then rules[i].0 else rules[i].1
    ensures Rewritten(rules, rules[i].1) == rules[i].1
  {
    if i < |rules| - 1 {
      RewrittenExactly(rules[..|rules| - 1], i);
    }
  }

  /** Keys and values without repetition, as the `Set` lists them. */
  function Listed(rules: Rules): (r: seq<string>)
    ensures forall t :: t in r <==> IsKey(rules, t) || IsValue(rules, t)
  {
    Union(Union([], Column(rules, true)), Column(rules, false))
  }

  function Column(rules: Rules, keys: bool): (r: seq<string>)
    ensures |r| == |rules| && forall i :: 0 <= i < |r| ==> r[i] == if keys then rules[i].0 else rules[i].1
  {
    seq(|rules|, i requires 0 <= i < |rules| => if keys then rules[i].0 else rules[i].1)
  }

  function Union(a: seq<string>, b: seq<string>): (r: seq<string>)
    ensures forall t :: t in r <==> t in a || t in b
    decreases |b|
  {
    if b == [] then a else Union(if b[0] in a then a else a + [b[0]], b[1..])
  }

  predicate LongestFirst(tokens: seq<string>) {
    forall i, j :: 0 <= i < j < |tokens| ==> |tokens[i]| >= |tokens[j]|
  }

  /** `sort` by descending length; equally long tokens keep their order. */
  function Sorted(tokens: seq<string>): (r: seq<string>)
    ensures LongestFirst(r) && forall t :: t in r <==> t in tokens
  {
    if tokens == [] then []
    else
      assert tokens == tokens[..|tokens| - 1] + [tokens[|tokens| - 1]];
      Inserted(Sorted(tokens[..|tokens| - 1]), tokens[|tokens| - 1])
  }

  function Inserted(tokens: seq<string>, t: string): (r: seq<string>)
    requires LongestFirst(tokens)
    ensures LongestFirst(r) && forall u :: u in r <==> u in tokens || u == t
  {
    if tokens == [] then [t]
    else if |tokens[0]| < |t| then [t] + tokens
    else
      var rest := Inserted(tokens[1..], t);
      assert forall u :: u in rest ==> |tokens[0]| >= |u|;
      [tokens[0]] + rest
  }

  /** The alternatives of the pattern; no rules give the empty pattern, which matches everywhere. */
  function Tokens(rules: Rules): (r: seq<string>)
    ensures LongestFirst(r)
  {
    if rules == [] then [""] else Sorted(Listed(rules))
  }

  // ----- the scan -----

  /** A stretch of the source: a character between matches, or a match. */
  datatype Piece = Gap(c: char) | Hit(token: string)

  function PieceText(p: Piece): string {
    match p case Gap(c) => [c] case Hit(token) => token
  }

  function Text(pieces: seq<Piece>): string {
    if pieces == [] then "" else PieceText(pieces[0]) + Text(pieces[1..])
  }

  function Render(rules: Rules, pieces: seq<Piece>): string {
    if pieces == [] then ""
    else (match pieces[0] case Gap(c) => [c] case Hit(token) => Rewritten(rules, token)) + Render(rules, pieces[1..])
  }

  /** The alternation takes the first alternative that matches here. */
  function FirstMatch(tokens: seq<string>, source: string): (r: Option<string>)
    ensures r.Some? ==> r.value in tokens && r.value <= source
    ensures r.None? ==> forall t :: t in tokens ==> !(t <= source)
  {
    if tokens == [] then None
    else if tokens[0] <= source then Some(tokens[0])
    else
      assert tokens == [tokens[0]] + tokens[1..];
      FirstMatch(tokens[1..], source)
  }

  /** Whether the empty match that is first here has been taken already. */
  predicate Passed(m: Option<string>, blank: bool) {
    m.None? || (blank && m.value == "")
  }

  /** A global match: after an empty match (`blank`) the next character is passed over. */
  function Scan(tokens: seq<string>, source: string, blank: bool): seq<Piece>
    decreases |source|, !blank
  {
    var m := FirstMatch(tokens, source);
    if !Passed(m, blank) then [Hit(m.value)] + Scan(tokens, source[|m.value|..], m.value == "")
    else if source == "" then []
    else [Gap(source[0])] + Scan(tokens, source[1..], false)
  }

  /** `replaceAll` */
  function ReplaceAll(source: string, rules: Rules): string {
    Render(rules, Scan(Tokens(rules), source, false))
  }

  // ----- what the scan means -----

  /** The leftmost-longest reading, without regard to the order of the tokens: a hit is the longest token
      at its place, a character is left alone only where no token starts. `blank` says that the empty
      token has just been hit here. */
  ghost predicate LeftmostLongest(tokens: set<string>, pieces: seq<Piece>, blank: bool) {
    if pieces == [] then "" in tokens ==> blank
    else match pieces[0]
         case Hit(t) =>
           && t in tokens && (t == "" ==> !blank) && (forall u :: u in tokens && u <= Text(pieces) ==> |u| <= |t|)
           && LeftmostLongest(tokens, pieces[1..], t == "")
         case Gap(_) =>
           && (forall u :: u in tokens && u <= Text(pieces) ==> u == "" && blank)
           && LeftmostLongest(tokens, pieces[1..], false)
  }

  function TokenSet(tokens: seq<string>): set<string> {
    set t | t in tokens
  }

  lemma {:induction false} FirstIsLongest(tokens: seq<string>, source: string)
    requires LongestFirst(tokens)
    ensures var r := FirstMatch(tokens, source);
            r.Some? ==> forall u :: u in tokens && u <= source ==> |u| <= |r.value|
  {
    if tokens != [] && !(tokens[0] <= source) { FirstIsLongest(tokens[1..], source); }
  }

  lemma TextCons(p: Piece, rest: seq<Piece>)
    ensures Text([p] + rest) == PieceText(p) + Text(rest)
  {
    assert ([p] + rest)[1..] == rest;
  }

  lemma {:induction false} ScanText(tokens: seq<string>, source: string, blank: bool)
    ensures Text(Scan(tokens, source, blank)) == source
    decreases |source|, !blank
  {
    var m := FirstMatch(tokens, source);
    if !Passed(m, blank) {
      ScanText(tokens, source[|m.value|..], m.value == "");
      TextCons(Hit(m.value), Scan(tokens, source[|m.value|..], m.value == ""));
    } else if source != "" {
      ScanText(tokens, source[1..], false);
      TextCons(Gap(source[0]), Scan(tokens, source[1..], false));
    }
  }

  /** The scan is such a reading of the source. */
  lemma {:induction false} ScanLeftmostLongest(tokens: seq<string>, source: string, blank: bool)
    requires LongestFirst(tokens) && (blank ==> FirstMatch(tokens, source) == Some(""))
    ensures LeftmostLongest(TokenSet(tokens), Scan(tokens, source, blank), blank)
    decreases |source|, !blank
  {
    ScanText(tokens, source, blank);
    FirstIsLongest(tokens, source);
    var m := FirstMatch(tokens, source);
    if !Passed(m, blank) {
      ScanLeftmostLongest(tokens, source[|m.value|..], m.value == "");
    } else if source != "" {
      ScanLeftmostLongest(tokens, source[1..], false);
    }
  }

  /** There is only one such reading. */
  lemma {:induction false} ReadingUnique(tokens: set<string>, a: seq<Piece>, b: seq<Piece>, blank: bool)
    requires LeftmostLongest(tokens, a, blank) && LeftmostLongest(tokens, b, blank) && Text(a) == Text(b)
    ensures a == b
    decreases |a|
  {
    if a != [] && b != [] {
      FirstPiecesAgree(tokens, a, b, blank);
      SameRest(a, b);
      ReadingUnique(tokens, a[1..], b[1..], a[0] == Hit(""));
      assert a == [a[0]] + a[1..] && b == [b[0]] + b[1..];
    }
  }

  lemma FirstPiecesAgree(tokens: set<string>, a: seq<Piece>, b: seq<Piece>, blank: bool)
    requires LeftmostLongest(tokens, a, blank) && LeftmostLongest(tokens, b, blank) && Text(a) == Text(b)
    requires a != [] && b != []
    ensures a[0] == b[0]
  {
    assert PieceText(a[0]) == Text(a)[..|PieceText(a[0])|];
    assert PieceText(b[0]) == Text(b)[..|PieceText(b[0])|];
    assert PieceText(a[0]) <= Text(a) && PieceText(b[0]) <= Text(b);
  }

  lemma SameRest(a: seq<Piece>, b: seq<Piece>)
    requires a != [] && b != [] && a[0] == b[0] && Text(a) == Text(b)
    ensures Text(a[1..]) == Text(b[1..])
  {
    assert Text(a[1..]) == Text(a)[|PieceText(a[0])|..];
    assert Text(b[1..]) == Text(b)[|PieceText(b[0])|..];
  }

  /** Main result: the output is the rewriting of the one leftmost-longest reading of the source. */
  lemma RewritesTheReading(source: string, rules: Rules, pieces: seq<Piece>)
    requires LeftmostLongest(TokenSet(Tokens(rules)), pieces, false) && Text(pieces) == source
    ensures ReplaceAll(source, rules) == Render(rules, pieces)
  {
    ScanText(Tokens(rules), source, false);
    ScanLeftmostLongest(Tokens(rules), source, false);
    ReadingUnique(TokenSet(Tokens(rules)), pieces, Scan(Tokens(rules), source, false), false);
  }

  // ----- lines -----

  predicate OneLine(s: string) { '\n' !in s }

  predicate OneLineTokens(rules: Rules) {
    forall i :: 0 <= i < |rules| ==> OneLine(rules[i].0) && OneLine(rules[i].1)
  }

  lemma TokensOneLine(rules: Rules)
    requires OneLineTokens(rules)
    ensures forall t :: t in Tokens(rules) ==> OneLine(t)
  {
  }

  lemma PrefixBeforeNewline(t: string, a: string, b: string)
    requires OneLine(t)
    ensures t <= a + "\n" + b <==> t <= a
  {
    var whole := a + "\n" + b;
    assert whole[|a|] == '\n';
    assert t <= whole ==> forall i :: 0 <= i < |t| ==> whole[i] in t;
    assert a == whole[..|a|];
  }

  lemma {:induction false} MatchBeforeNewline(tokens: seq<string>, a: string, b: string)
    requires forall t :: t in tokens ==> OneLine(t)
    ensures FirstMatch(tokens, a + "\n" + b) == FirstMatch(tokens, a)
  {
    if tokens != [] {
      PrefixBeforeNewline(tokens[0], a, b);
      MatchBeforeNewline(tokens[1..], a, b);
    }
  }

  lemma {:induction false} ScanAtNewline(tokens: seq<string>, a: string, b: string, blank: bool)
    requires forall t :: t in tokens ==> OneLine(t)
    ensures Scan(tokens, a + "\n" + b, blank) == Scan(tokens, a, blank) + ([Gap('\n')] + Scan(tokens, b, false))
    decreases |a|, !blank
  {
    var m, whole, rest := FirstMatch(tokens, a), a + "\n" + b, [Gap('\n')] + Scan(tokens, b, false);
    MatchBeforeNewline(tokens, a, b);
    if !Passed(m, blank) {
      CutBeforeNewline(a, b, |m.value|);
      ScanAtNewline(tokens, a[|m.value|..], b, m.value == "");
      Assoc([Hit(m.value)], Scan(tokens, a[|m.value|..], m.value == ""), rest);
    } else if a == "" {
      assert whole[1..] == b && whole[0] == '\n';
      assert Scan(tokens, a, blank) + rest == rest;
    } else {
      CutBeforeNewline(a, b, 1);
      ScanAtNewline(tokens, a[1..], b, false);
      Assoc([Gap(a[0])], Scan(tokens, a[1..], false), rest);
    }
  }

  lemma CutBeforeNewline(a: string, b: string, n: nat)
    requires n <= |a|
    ensures (a + "\n" + b)[n..] == a[n..] + "\n" + b && (a != "" ==> (a + "\n" + b)[0] == a[0])
  {
  }

  lemma {:induction false} RenderConcat(rules: Rules, a: seq<Piece>, b: seq<Piece>)
    ensures Render(rules, a + b) == Render(rules, a) + Render(rules, b)
  {
    if a == [] {
      assert a + b == b;
    } else {
      assert (a + b)[1..] == a[1..] + b;
      RenderConcat(rules, a[1..], b);
    }
  }

  lemma JoinedAtNewline(a: string, b: string)
    ensures a + ("\n" + b) == a + "\n" + b
  {
  }

  /** Lines are rewritten independently when no rule spans lines. */
  lemma ReplacesLineByLine(a: string, b: string, rules: Rules)
    requires OneLineTokens(rules)
    ensures ReplaceAll(a + "\n" + b, rules) == ReplaceAll(a, rules) + "\n" + ReplaceAll(b, rules)
  {
    var tokens := Tokens(rules);
    TokensOneLine(rules);
    ScanAtNewline(tokens, a, b, false);
    RenderConcat(rules, Scan(tokens, a, false), [Gap('\n')] + Scan(tokens, b, false));
    RenderConcat(rules, [Gap('\n')], Scan(tokens, b, false));
    assert Render(rules, [Gap('\n')]) == "\n" + Render(rules, [Gap('\n')][1..]);
    JoinedAtNewline(ReplaceAll(a, rules), ReplaceAll(b, rules));
  }

  function ReplaceEach(lines: seq<string>, rules: Rules): (r: seq<string>)
    ensures |r| == |lines| && forall i :: 0 <= i < |r| ==> r[i] == ReplaceAll(lines[i], rules)
  {
    seq(|lines|, i requires 0 <= i < |lines| => ReplaceAll(lines[i], rules))
  }

  lemma EachOfRest(lines: seq<string>, rules: Rules)
    requires lines != []
    ensures ReplaceEach(lines, rules)[1..] == ReplaceEach(lines[1..], rules)
    ensures ReplaceEach(lines, rules)[0] == ReplaceAll(lines[0], rules)
  {
  }

  lemma {:induction false} ReplacesJoined(lines: seq<string>, rules: Rules)
    requires OneLineTokens(rules) && lines != []
    ensures ReplaceAll(JoinLines(lines), rules) == JoinLines(ReplaceEach(lines, rules))
    decreases |lines|
  {
    if |lines| > 1 {
      ReplacesLineByLine(lines[0], JoinLines(lines[1..]), rules);
      ReplacesJoined(lines[1..], rules);
      EachOfRest(lines, rules);
    }
  }

  // ----- a second pass -----

  /** Every match of the reading is a value, so it is left as it is. */
  predicate HitsAreValues(rules: Rules, pieces: seq<Piece>) {
    forall i :: 0 <= i < |pieces| && pieces[i].Hit? ==> IsValue(rules, pieces[i].token)
  }

  predicate HitsAreTokens(rules: Rules, pieces: seq<Piece>) {
    forall i :: 0 <= i < |pieces| && pieces[i].Hit? ==> pieces[i].token in Tokens(rules)
  }

  predicate NoneShorter(rules: Rules) {
    forall i :: 0 <= i < |rules| ==> |rules[i].0| <= |rules[i].1|
  }

  lemma {:induction false} ValuesStay(rules: Rules, pieces: seq<Piece>)
    requires HitsAreValues(rules, pieces)
    ensures Render(rules, pieces) == Text(pieces)
  {
    if pieces != [] { ValuesStay(rules, pieces[1..]); }
  }

  lemma {:induction false} LookupIsValue(rules: Rules, key: string)
    requires IsKey(rules, key)
    ensures Lookup(rules, key).Some? && IsValue(rules, Lookup(rules, key).value)
  {
    var last := |rules| - 1;
    if rules[last].0 == key {
      assert rules[last].1 == Lookup(rules, key).value;
    } else {
      var shorter := rules[..last];
      var i :| 0 <= i < |rules| && rules[i].0 == key;
      assert shorter[i].0 == key;
      LookupIsValue(shorter, key);
      var j :| 0 <= j < |shorter| && shorter[j].1 == Lookup(shorter, key).value;
      assert rules[j].1 == Lookup(rules, key).value;
    }
  }

  /** What a token is rewritten to is a value, and stays. */
  lemma RewrittenIsValue(rules: Rules, t: string)
    requires IsKey(rules, t) || IsValue(rules, t)
    ensures IsValue(rules, Rewritten(rules, t)) && Rewritten(rules, Rewritten(rules, t)) == Rewritten(rules, t)
  {
    if !IsValue(rules, t) { LookupIsValue(rules, t); }
  }

  /** A token is rewritten to something no shorter, and to itself only when it is a value. */
  lemma RewrittenLonger(rules: Rules, t: string)
    requires NoneShorter(rules) && t in Tokens(rules)
    ensures |t| <= |Rewritten(rules, t)| && (Rewritten(rules, t) == t ==> IsValue(rules, t))
  {
    if rules != [] && !IsValue(rules, t) {
      LookupIsValue(rules, t);
      LookupIsRule(rules, t);
    }
  }

  lemma {:induction false} LookupIsRule(rules: Rules, key: string)
    requires Lookup(rules, key).Some?
    ensures (key, Lookup(rules, key).value) in rules
  {
    var last := |rules| - 1;
    if rules[last].0 == key {
      assert rules[last] == (key, Lookup(rules, key).value);
    } else {
      LookupIsRule(rules[..last], key);
    }
  }

  lemma {:induction false} RenderLonger(rules: Rules, pieces: seq<Piece>)
    requires NoneShorter(rules) && HitsAreTokens(rules, pieces)
    ensures |Text(pieces)| <= |Render(rules, pieces)|
  {
    if pieces != [] {
      RenderLonger(rules, pieces[1..]);
      if pieces[0].Hit? { RewrittenLonger(rules, pieces[0].token); }
    }
  }

  lemma {:induction false} OnlyValuesStay(rules: Rules, pieces: seq<Piece>)
    requires NoneShorter(rules) && HitsAreTokens(rules, pieces) && Render(rules, pieces) == Text(pieces)
    ensures HitsAreValues(rules, pieces)
  {
    if pieces != [] {
      FirstStays(rules, pieces);
      OnlyValuesStay(rules, pieces[1..]);
    }
  }

  lemma FirstStays(rules: Rules, pieces: seq<Piece>)
    requires NoneShorter(rules) && HitsAreTokens(rules, pieces) && Render(rules, pieces) == Text(pieces) && pieces != []
    ensures pieces[0].Hit? ==> IsValue(rules, pieces[0].token)
    ensures Render(rules, pieces[1..]) == Text(pieces[1..])
  {
    var head := match pieces[0] case Gap(c) => [c] case Hit(token) => Rewritten(rules, token);
    RenderLonger(rules, pieces[1..]);
    if pieces[0].Hit? { RewrittenLonger(rules, pieces[0].token); }
    SameHead(head, Render(rules, pieces[1..]), PieceText(pieces[0]), Text(pieces[1..]));
  }

  lemma SameHead(a: string, b: string, c: string, d: string)
    requires a + b == c + d && |a| >= |c| && |b| >= |d|
    ensures a == c && b == d
  {
    assert a == (a + b)[..|a|] && c == (c + d)[..|c|];
    assert b == (a + b)[|a|..] && d == (c + d)[|c|..];
  }

  lemma {:induction false} ScanHitsTokens(rules: Rules, source: string, blank: bool)
    ensures HitsAreTokens(rules, Scan(Tokens(rules), source, blank))
    decreases |source|, !blank
  {
    var m := FirstMatch(Tokens(rules), source);
    if !Passed(m, blank) {
      ScanHitsTokens(rules, source[|m.value|..], m.value == "");
      OneMorePiece(rules, Hit(m.value), Scan(Tokens(rules), source[|m.value|..], m.value == ""));
    } else if source != "" {
      ScanHitsTokens(rules, source[1..], false);
      OneMorePiece(rules, Gap(source[0]), Scan(Tokens(rules), source[1..], false));
    }
  }

  lemma OneMorePiece(rules: Rules, p: Piece, rest: seq<Piece>)
    requires HitsAreTokens(rules, rest) && (p.Hit? ==> p.token in Tokens(rules))
    ensures HitsAreTokens(rules, [p] + rest)
  {
  }

  /** A text is left as it is when every token read in it is a value. Where no rule shortens its key, only
      then. */
  lemma FixedExactly(text: string, rules: Rules)
    ensures HitsAreValues(rules, Scan(Tokens(rules), text, false)) ==> ReplaceAll(text, rules) == text
    ensures NoneShorter(rules) && ReplaceAll(text, rules) == text ==> HitsAreValues(rules, Scan(Tokens(rules), text, false))
  {
    var pieces := Scan(Tokens(rules), text, false);
    ScanText(Tokens(rules), text, false);
    if HitsAreValues(rules, pieces) { ValuesStay(rules, pieces); }
    if NoneShorter(rules) && ReplaceAll(text, rules) == text {
      ScanHitsTokens(rules, text, false);
      OnlyValuesStay(rules, pieces);
    }
  }

  /** Renaming twice, for any source: the second pass changes nothing when the first left only values to be
      read, and where no rule shortens its key, only then. */
  lemma SecondPass(source: string, rules: Rules)
    ensures var once := ReplaceAll(source, rules);
            && (HitsAreValues(rules, Scan(Tokens(rules), once, false)) ==> ReplaceAll(once, rules) == once)
            && (NoneShorter(rules) ==>
                  (ReplaceAll(once, rules) == once <==> HitsAreValues(rules, Scan(Tokens(rules), once, false))))
  {
    FixedExactly(ReplaceAll(source, rules), rules);
  }

  // ----- tokens as lines -----

  predicate NonEmptyRules(rules: Rules) {
    rules != [] && forall i :: 0 <= i < |rules| ==> rules[i].0 != "" && rules[i].1 != ""
  }

  /** A line that is one token is read as that token. */
  lemma TokenLine(t: string, rules: Rules)
    requires NonEmptyRules(rules) && (IsKey(rules, t) || IsValue(rules, t))
    ensures Scan(Tokens(rules), t, false) == [Hit(t)] && ReplaceAll(t, rules) == Rewritten(rules, t)
  {
    ScanOne(Tokens(rules), t);
    RenderOne(rules, t);
  }

  lemma ScanOne(tokens: seq<string>, t: string)
    requires LongestFirst(tokens) && t in tokens && "" !in tokens
    ensures Scan(tokens, t, false) == [Hit(t)]
  {
    OneToken(TokenSet(tokens), t);
    ScanText(tokens, t, false);
    ScanLeftmostLongest(tokens, t, false);
    ReadingUnique(TokenSet(tokens), [Hit(t)], Scan(tokens, t, false), false);
  }

  lemma OneToken(tokens: set<string>, t: string)
    requires t in tokens && "" !in tokens
    ensures LeftmostLongest(tokens, [Hit(t)], false) && Text([Hit(t)]) == t
  {
    var rest: seq<Piece> := [Hit(t)][1..];
    assert rest == [] && Text(rest) == "";
    assert Text([Hit(t)]) == t + "";
  }

  lemma RenderOne(rules: Rules, t: string)
    ensures Render(rules, [Hit(t)]) == Rewritten(rules, t)
  {
    assert [Hit(t)][1..] == [];
  }

  lemma {:induction false} ValueLines(lines: seq<string>, rules: Rules)
    requires NonEmptyRules(rules) && OneLineTokens(rules) && lines != []
    requires forall i :: 0 <= i < |lines| ==> IsValue(rules, lines[i])
    ensures HitsAreValues(rules, Scan(Tokens(rules), JoinLines(lines), false))
    decreases |lines|
  {
    TokenLine(lines[0], rules);
    if |lines| > 1 {
      ValueLines(lines[1..], rules);
      TokensOneLine(rules);
      ScanAtNewline(Tokens(rules), lines[0], JoinLines(lines[1..]), false);
      ValueThenRest(rules, lines[0], Scan(Tokens(rules), JoinLines(lines[1..]), false));
    }
  }

  lemma ValueThenRest(rules: Rules, t: string, rest: seq<Piece>)
    requires IsValue(rules, t) && HitsAreValues(rules, rest)
    ensures HitsAreValues(rules, [Hit(t)] + ([Gap('\n')] + rest))
  {
  }

  /** So the renamer is idempotent on tokens joined by newlines: each becomes its value, even where values
      contain keys, and a second pass changes nothing. */
  lemma RenameTwice(lines: seq<string>, rules: Rules)
    requires NonEmptyRules(rules) && OneLineTokens(rules) && lines != []
    requires forall i :: 0 <= i < |lines| ==> IsKey(rules, lines[i]) || IsValue(rules, lines[i])
    ensures forall i :: 0 <= i < |lines| ==> ReplaceEach(lines, rules)[i] == Rewritten(rules, lines[i])
    ensures ReplaceAll(JoinLines(lines), rules) == JoinLines(ReplaceEach(lines, rules))
    ensures var once := ReplaceAll(JoinLines(lines), rules);
            ReplaceAll(once, rules) == once
  {
    var once := ReplaceEach(lines, rules);
    forall i | 0 <= i < |lines| ensures once[i] == Rewritten(rules, lines[i]) && IsValue(rules, once[i]) {
      TokenLine(lines[i], rules);
      RewrittenIsValue(rules, lines[i]);
    }
    ReplacesJoined(lines, rules);
    ValueLines(once, rules);
    FixedExactly(JoinLines(once), rules);
  }

  // ----- where it is not idempotent -----

  /** On other text a rewritten token and what follows it may form a token again. */
  lemma NotIdempotent()
    ensures ReplaceAll("abb", [("ab", "a")]) == "ab" && ReplaceAll("ab", [("ab", "a")]) == "a"
  {
    var rules: Rules := [("ab", "a")];
    assert rules[0].0 == "ab" && rules[0].1 == "a";
    assert IsKey(rules, "ab") && !IsValue(rules, "ab") && Lookup(rules, "ab") == Some("a");
    TokenLine("ab", rules);
    TwoPieces(rules);
  }

  lemma LastGap(tokens: set<string>)
    requires forall t :: t in tokens ==> t == "ab" || t == "a"
    ensures LeftmostLongest(tokens, [Gap('b')], false)
  {
    TextCons(Gap('b'), []);
    assert [Gap('b')] + [] == [Gap('b')] && [Gap('b')][1..] == [];
    assert Text([Gap('b')])[0] == 'b';
  }

  lemma HitThenGap(tokens: set<string>)
    requires "ab" in tokens && (forall t :: t in tokens ==> t == "ab" || t == "a")
    requires LeftmostLongest(tokens, [Gap('b')], false)
    ensures LeftmostLongest(tokens, [Hit("ab")] + [Gap('b')], false)
  {
    assert ([Hit("ab")] + [Gap('b')])[1..] == [Gap('b')];
  }

  lemma TwoPieces(rules: Rules)
    requires rules == [("ab", "a")] && Rewritten(rules, "ab") == "a" && IsKey(rules, "ab")
    ensures ReplaceAll("abb", rules) == "ab"
  {
    var tokens := TokenSet(Tokens(rules));
    assert "ab" in tokens && forall t :: t in tokens ==> t == "ab" || t == "a";
    LastGap(tokens);
    HitThenGap(tokens);
    TwoTexts(rules);
    RewritesTheReading("abb", rules, [Hit("ab")] + [Gap('b')]);
  }

  lemma TwoTexts(rules: Rules)
    requires Rewritten(rules, "ab") == "a"
    ensures Text([Hit("ab")] + [Gap('b')]) == "abb" && Render(rules, [Hit("ab")] + [Gap('b')]) == "ab"
  {
    var gap := [Gap('b')];
    assert gap[1..] == [];
    TextCons(Hit("ab"), gap);
    RenderConcat(rules, [Hit("ab")], gap);
    RenderOne(rules, "ab");
  }

  predicate Cancelling(rules: Rules) {
    |rules| == 2 && rules[0] == ("ab", "a") && rules[1] == ("c", "bc")
  }

  lemma CancellingKeys(rules: Rules)
    requires Cancelling(rules)
    ensures IsKey(rules, "ab") && IsKey(rules, "c") && !IsValue(rules, "ab") && !IsValue(rules, "c")
  {
    assert rules[0].0 == "ab" && rules[1].0 == "c";
  }

  lemma TokensAreListed(rules: Rules, t: string)
    requires rules != [] && t in Tokens(rules)
    ensures Mentions(rules, t)
  {
  }

  predicate Mentions(rules: Rules, t: string) {
    exists i :: 0 <= i < |rules| && (rules[i].0 == t || rules[i].1 == t)
  }

  lemma CancellingLength(rules: Rules, t: string)
    requires Cancelling(rules) && Mentions(rules, t)
    ensures 1 <= |t| <= 2
  {
  }

  lemma CancellingTokens(rules: Rules)
    requires Cancelling(rules)
    ensures forall t :: t in Tokens(rules) ==> 1 <= |t| <= 2
  {
    forall t | t in Tokens(rules) ensures 1 <= |t| <= 2 {
      TokensAreListed(rules, t);
      CancellingLength(rules, t);
    }
  }

  lemma CancellingLookup(rules: Rules)
    requires Cancelling(rules)
    ensures Lookup(rules, "ab") == Some("a") && Lookup(rules, "c") == Some("bc")
  {
    var first := rules[..1];
    assert |first| == 1 && first[0] == ("ab", "a");
  }

  lemma TwoHits(tokens: set<string>)
    requires "ab" in tokens && "c" in tokens && forall t :: t in tokens ==> 1 <= |t| <= 2
    ensures LeftmostLongest(tokens, [Hit("ab")] + [Hit("c")], false) && Text([Hit("ab")] + [Hit("c")]) == "abc"
  {
    OneToken(tokens, "c");
    TextCons(Hit("ab"), [Hit("c")]);
    assert ([Hit("ab")] + [Hit("c")])[1..] == [Hit("c")];
  }

  lemma CancelledRead(rules: Rules, text: string)
    requires Cancelling(rules) && text == Text([Hit("ab")] + [Hit("c")])
    ensures Scan(Tokens(rules), text, false) == [Hit("ab")] + [Hit("c")]
  {
    var tokens, pieces := Tokens(rules), [Hit("ab")] + [Hit("c")];
    CancellingKeys(rules);
    CancellingTokens(rules);
    TwoHits(TokenSet(tokens));
    ScanText(tokens, text, false);
    ScanLeftmostLongest(tokens, text, false);
    ReadingUnique(TokenSet(tokens), pieces, Scan(tokens, text, false), false);
  }

  lemma CancelledRender(rules: Rules)
    requires Cancelling(rules)
    ensures Render(rules, [Hit("ab")] + [Hit("c")]) == "a" + "bc"
  {
    CancellingKeys(rules);
    CancellingLookup(rules);
    RenderConcat(rules, [Hit("ab")], [Hit("c")]);
    RenderOne(rules, "ab");
    RenderOne(rules, "c");
  }

  /** Where a rule shortens its key, another may make up for it: the text "abc" stays, although what is read
      in it are two keys and no value. */
  lemma StaysByChance(rules: Rules, text: string)
    requires Cancelling(rules) && text == Text([Hit("ab")] + [Hit("c")])
    ensures ReplaceAll(text, rules) == text && !HitsAreValues(rules, Scan(Tokens(rules), text, false))
  {
    CancelledText();
    CancelledRead(rules, text);
    CancelledRender(rules);
    FirstNoValue(rules);
  }

  lemma FirstNoValue(rules: Rules)
    requires Cancelling(rules)
    ensures !HitsAreValues(rules, [Hit("ab")] + [Hit("c")])
  {
    CancellingKeys(rules);
    assert ([Hit("ab")] + [Hit("c")])[0] == Hit("ab");
  }

  lemma CancelledText()
    ensures Text([Hit("ab")] + [Hit("c")]) == "abc" == "a" + "bc"
  {
    TextCons(Hit("ab"), [Hit("c")]);
    TextCons(Hit("c"), []);
    assert [Hit("c")] + [] == [Hit("c")];
  }

  /** What is left of a text without any rule. */
  function Interspersed(source: string): string {
    if source == "" then "undefined" else "undefined" + ([source[0]] + Interspersed(source[1..]))
  }

  /** Without any rule the pattern is empty, and every text is interspersed with "undefined". */
  lemma {:induction false} NoRules(source: string)
    ensures ReplaceAll(source, []) == Interspersed(source)
  {
    var undefined := [Hit("")];
    assert source[0..] == source;
    assert Scan([""], source, false) == undefined + Scan([""], source, true);
    RenderConcat([], undefined, Scan([""], source, true));
    RenderOne([], "");
    if source != "" {
      assert Scan([""], source, true) == [Gap(source[0])] + Scan([""], source[1..], false);
      RenderConcat([], [Gap(source[0])], Scan([""], source[1..], false));
      assert [Gap(source[0])][1..] == [];
      NoRules(source[1..]);
    }
  }
}
