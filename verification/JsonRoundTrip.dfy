/** The parser undoes both printers, so canonical text decides equality up to key order. */
module JsonRoundTrip {
  import opened Prelude
  import opened JsonText

  // ----- strings -----

  /** The four hexadecimal digits of a code unit determine it. */
  lemma HexRoundTrip(c: CodeUnit)
    ensures ParseHex([HexDigit(c / 0x1000), HexDigit(c / 0x100 % 16), HexDigit(c / 0x10 % 16), HexDigit(c % 16)]) == Some(c)
  {
    var q := c / 0x10;
    var p := q / 0x10;
    assert c / 0x100 == p && c / 0x1000 == p / 0x10;
    assert c == 16 * q + c % 16 && q == 16 * p + q % 16 && p == 16 * (p / 16) + p % 16;
    HexDigitRoundTrip(p / 16);
    HexDigitRoundTrip(p % 16);
    HexDigitRoundTrip(q % 16);
    HexDigitRoundTrip(c % 16);
  }

  lemma HexDigitRoundTrip(d: int)
    requires 0 <= d < 16
    ensures HexValue(HexDigit(d)) == Some(d)
  {
  }

  lemma EscapeRoundTrip(c: CodeUnit, rest: Text)
    ensures ParseUnit(UnicodeEscape(c) + rest) == Some((c, 6))
  {
    HexRoundTrip(c);
    assert (UnicodeEscape(c) + rest)[2..6] == UnicodeEscape(c)[2..];
  }

  lemma UnitRoundTrip(c: CodeUnit, rest: Text)
    ensures QuoteUnit(c)[0] != QUOTE
    ensures ParseUnit(QuoteUnit(c) + rest) == Some((c, |QuoteUnit(c)|))
  {
    if ShortEscape(c).None? && QuoteUnit(c) != [c] {
      EscapeRoundTrip(c, rest);
    }
  }

  lemma {:induction false} ParseOneMore(c: CodeUnit, printed: Text, tail: Text)
    requires printed != [] && printed[0] != QUOTE
    requires ParseUnit(printed + tail) == Some((c, |printed|))
    ensures ParseStringBody(printed + tail) ==
            match ParseStringBody(tail) case Some(p) => Some(Parsed([c] + p.value, p.rest)) case None => None
  {
    assert (printed + tail)[|printed|..] == tail;
  }

  lemma QuoteBodyPair(s: Text, rest: Text)
    requires |s| >= 2 && IsHighSurrogate(s[0]) && IsLowSurrogate(s[1])
    ensures QuoteBody(s) + rest == [s[0]] + ([s[1]] + (QuoteBody(s[2..]) + rest))
  {
    assert s[..2] == [s[0]] + [s[1]];
    Assoc(s[..2], QuoteBody(s[2..]), rest);
    Assoc([s[0]], [s[1]], QuoteBody(s[2..]) + rest);
  }

  lemma QuoteBodyUnit(s: Text, rest: Text)
    requires s != [] && !(|s| >= 2 && IsHighSurrogate(s[0]) && IsLowSurrogate(s[1]))
    ensures QuoteBody(s) + rest == QuoteUnit(s[0]) + (QuoteBody(s[1..]) + rest)
  {
    Assoc(QuoteUnit(s[0]), QuoteBody(s[1..]), rest);
  }

  /** A surrogate pair is printed as it is. */
  lemma PairRoundTrip(s: Text, rest: Text)
    requires |s| >= 2 && IsHighSurrogate(s[0]) && IsLowSurrogate(s[1]) && rest != []
    requires ParseStringBody(QuoteBody(s[2..]) + rest) == Some(Parsed(s[2..], rest[1..]))
    ensures ParseStringBody(QuoteBody(s) + rest) == Some(Parsed(s, rest[1..]))
  {
    var tail := QuoteBody(s[2..]) + rest;
    SurrogateRead(s[1], tail, s[2..], rest[1..]);
    SurrogateRead(s[0], [s[1]] + tail, [s[1]] + s[2..], rest[1..]);
    QuoteBodyPair(s, rest);
    assert s == [s[0]] + ([s[1]] + s[2..]);
  }

  lemma SurrogateRead(c: CodeUnit, tail: Text, read: Text, rest: Text)
    requires IsHighSurrogate(c) || IsLowSurrogate(c)
    requires ParseStringBody(tail) == Some(Parsed(read, rest))
    ensures ParseStringBody([c] + tail) == Some(Parsed([c] + read, rest))
  {
    ParseOneMore(c, [c], tail);
  }

  /** Every string, lone surrogates and control characters included, is read back from its quoted form. */
  lemma {:induction false} StringRoundTrip(s: Text, rest: Text)
    requires rest != [] && rest[0] == QUOTE
    ensures ParseStringBody(QuoteBody(s) + rest) == Some(Parsed(s, rest[1..]))
    decreases |s|
  {
    if s == [] {
      assert QuoteBody(s) + rest == rest;
    } else if |s| >= 2 && IsHighSurrogate(s[0]) && IsLowSurrogate(s[1]) {
      StringRoundTrip(s[2..], rest);
      PairRoundTrip(s, rest);
    } else {
      var tail := QuoteBody(s[1..]) + rest;
      StringRoundTrip(s[1..], rest);
      UnitRoundTrip(s[0], tail);
      ParseOneMore(s[0], QuoteUnit(s[0]), tail);
      QuoteBodyUnit(s, rest);
      assert s == [s[0]] + s[1..];
    }
  }

  // ----- quoting is the shortest that is well formed -----

  predicate IsSurrogate(c: CodeUnit) { 0xD800 <= c <= 0xDFFF }

  /** Surrogates come in pairs, so that the text is well-formed UTF-16. */
  predicate Paired(t: Text) {
    if t == [] then true
    else if IsHighSurrogate(t[0]) then |t| >= 2 && IsLowSurrogate(t[1]) && Paired(t[2..])
    else !IsLowSurrogate(t[0]) && Paired(t[1..])
  }

  predicate IsPrintable(t: Text) {
    forall i :: 0 <= i < |t| ==> t[i] >= 0x20
  }

  lemma {:induction false} PairedAfter(a: Text, b: Text)
    requires Paired(b) && forall i :: 0 <= i < |a| ==> !IsSurrogate(a[i])
    ensures Paired(a + b)
  {
    if a == [] {
      assert a + b == b;
    } else {
      assert (a + b)[1..] == a[1..] + b;
      PairedAfter(a[1..], b);
    }
  }

  lemma UnitIsPlain(c: CodeUnit)
    ensures IsPrintable(QuoteUnit(c)) && forall i :: 0 <= i < |QuoteUnit(c)| ==> !IsSurrogate(QuoteUnit(c)[i])
  {
  }

  lemma PrintableConcat(a: Text, b: Text)
    requires IsPrintable(a) && IsPrintable(b)
    ensures IsPrintable(a + b)
  {
  }

  /** Whatever the string holds, its quoted form holds no control character and no lone surrogate. */
  lemma {:induction false} QuotedIsWellFormed(s: Text)
    ensures Paired(QuoteBody(s)) && IsPrintable(QuoteBody(s))
    decreases |s|
  {
    if s == [] {
    } else if |s| >= 2 && IsHighSurrogate(s[0]) && IsLowSurrogate(s[1]) {
      QuotedIsWellFormed(s[2..]);
      PrintableConcat(s[..2], QuoteBody(s[2..]));
      assert (s[..2] + QuoteBody(s[2..]))[2..] == QuoteBody(s[2..]);
    } else {
      QuotedIsWellFormed(s[1..]);
      UnitIsPlain(s[0]);
      PairedAfter(QuoteUnit(s[0]), QuoteBody(s[1..]));
      PrintableConcat(QuoteUnit(s[0]), QuoteBody(s[1..]));
    }
  }

  lemma {:induction false} PairedRest(t: Text, n: nat)
    requires n <= |t| && Paired(t) && forall i :: 0 <= i < n ==> !IsSurrogate(t[i])
    ensures Paired(t[n..])
  {
    if n > 0 {
      PairedRest(t[1..], n - 1);
      assert t[1..][n - 1..] == t[n..];
    }
  }

  /** What the first character of a string body takes is no shorter than its quoted form needs. */
  lemma ParsedUnit(t: Text)
    requires t != [] && !IsSurrogate(t[0]) && t[0] != QUOTE && ParseUnit(t).Some?
    ensures var (c, n) := ParseUnit(t).value;
            && 0 < n <= |t| && |QuoteUnit(c)| <= n && (IsSurrogate(c) ==> n == 6)
            && forall i :: 0 <= i < n && i != 1 ==> !IsSurrogate(t[i])
    ensures t[0] == BACKSLASH ==> !IsSurrogate(t[1])
  {
    if t[0] == BACKSLASH && t[1] == LETTER_U {
      forall i | 2 <= i < 6 ensures !IsSurrogate(t[i]) { assert HexValue(t[2..6][i - 2]).Some?; }
    }
  }

  lemma BodyAfterUnit(s: Text)
    requires s != []
    ensures IsHighSurrogate(s[0]) && |s| >= 2 && IsLowSurrogate(s[1]) ==> |QuoteBody(s)| + 4 == |QuoteBody(s[1..])|
    ensures !(IsHighSurrogate(s[0]) && |s| >= 2 && IsLowSurrogate(s[1])) ==> |QuoteBody(s)| == |QuoteUnit(s[0])| + |QuoteBody(s[1..])|
  {
    if IsHighSurrogate(s[0]) && |s| >= 2 && IsLowSurrogate(s[1]) {
      assert s[1..][1..] == s[2..];
      assert QuoteBody(s[1..]) == QuoteUnit(s[1]) + QuoteBody(s[2..]);
    }
  }

  /** And it is the shortest such form: nothing well formed that reads back as the string has fewer units. */
  lemma {:induction false} QuotedIsShortest(s: Text, t: Text)
    requires Paired(t) && ParseStringBody(t + [QUOTE]) == Some(Parsed(s, []))
    ensures |QuoteBody(s)| <= |t|
    decreases |t|
  {
    var whole := t + [QUOTE];
    if t != [] && IsHighSurrogate(t[0]) {
      PairReads(s, t);
      QuotedIsShortest(s[2..], t[2..]);
    } else if t != [] {
      NotClosed(s, t);
      UnitReads(s, t);
      var (c, n) := ParseUnit(whole).value;
      UnitCosts(t);
      QuotedIsShortest(s[1..], t[n..]);
      BodyAfterUnit(s);
    }
  }

  /** One step of the reader. */
  lemma BodyReads(s: Text, whole: Text)
    requires whole != [] && whole[0] != QUOTE && ParseStringBody(whole) == Some(Parsed(s, []))
    ensures ParseUnit(whole).Some? && s != []
    ensures var (c, n) := ParseUnit(whole).value;
            s[0] == c && n < |whole| && ParseStringBody(whole[n..]) == Some(Parsed(s[1..], []))
  {
    var (c, n) := ParseUnit(whole).value;
    assert n <= |whole|;
    assert ParseStringBody(whole[n..]).Some?;
    assert whole[n..] != [];
  }

  lemma UnitReads(s: Text, t: Text)
    requires t != [] && t[0] != QUOTE && ParseStringBody(t + [QUOTE]) == Some(Parsed(s, []))
    ensures ParseUnit(t + [QUOTE]).Some?
    ensures var (c, n) := ParseUnit(t + [QUOTE]).value;
            n <= |t| && s != [] && s[0] == c && ParseStringBody(t[n..] + [QUOTE]) == Some(Parsed(s[1..], []))
  {
    BodyReads(s, t + [QUOTE]);
    DropInFront(t, ParseUnit(t + [QUOTE]).value.1);
  }

  lemma DropInFront(t: Text, n: nat)
    requires n <= |t|
    ensures (t + [QUOTE])[n..] == t[n..] + [QUOTE]
  {
  }

  lemma UnitCosts(t: Text)
    requires t != [] && Paired(t) && !IsHighSurrogate(t[0]) && t[0] != QUOTE
    requires ParseUnit(t + [QUOTE]).Some? && ParseUnit(t + [QUOTE]).value.1 <= |t|
    ensures var (c, n) := ParseUnit(t + [QUOTE]).value;
            0 < n && |QuoteUnit(c)| <= n && (IsSurrogate(c) ==> n == 6) && Paired(t[n..])
  {
    var whole := t + [QUOTE];
    ParsedUnit(whole);
    var n := ParseUnit(whole).value.1;
    forall i | 0 <= i < n ensures !IsSurrogate(t[i]) { assert t[i] == whole[i]; }
    PairedRest(t, n);
  }

  lemma NotClosed(s: Text, t: Text)
    requires t != [] && ParseStringBody(t + [QUOTE]) == Some(Parsed(s, []))
    ensures t[0] != QUOTE
  {
    assert |(t + [QUOTE])[1..]| == |t|;
  }

  lemma PairReads(s: Text, t: Text)
    requires t != [] && Paired(t) && IsHighSurrogate(t[0]) && ParseStringBody(t + [QUOTE]) == Some(Parsed(s, []))
    ensures |s| >= 2 && s[0] == t[0] && s[1] == t[1] && Paired(t[2..])
    ensures ParseStringBody(t[2..] + [QUOTE]) == Some(Parsed(s[2..], []))
  {
    var whole := t + [QUOTE];
    assert whole[0] == t[0] && whole[1] == t[1];
    assert whole[1..][1..] == t[2..] + [QUOTE];
    assert ParseStringBody(whole[1..]) == Some(Parsed(s[1..], []));
    assert s[1..][1..] == s[2..];
  }

  // ----- values -----

  /** Text that cannot extend a number to its left. */
  predicate EndsNumber(rest: Text) {
    rest == [] || !IsNumberUnit(rest[0])
  }

  lemma {:induction false} NumberRoundTrip(digits: Text, rest: Text)
    requires forall i :: 0 <= i < |digits| ==> IsNumberUnit(digits[i])
    requires EndsNumber(rest)
    ensures NumberPrefix(digits + rest) == |digits|
  {
    if digits == [] {
      assert digits + rest == rest;
    } else {
      assert (digits + rest)[1..] == digits[1..] + rest;
      NumberRoundTrip(digits[1..], rest);
    }
  }

  lemma NotALiteral(t: Text)
    requires t != [] && t[0] !in {NULL_TEXT[0], TRUE_TEXT[0], FALSE_TEXT[0]}
    ensures !(NULL_TEXT <= t) && !(TRUE_TEXT <= t) && !(FALSE_TEXT <= t)
  {
  }

  /** A printed value never starts with a closing bracket, a brace or a comma. */
  lemma StartsValue(j: Json)
    ensures Stringify(j) != []
    ensures Stringify(j)[0] != CLOSE_BRACKET && Stringify(j)[0] != CLOSE_BRACE
  {
  }

  lemma LiteralRoundTrip(j: Json, rest: Text)
    requires j.Null? || j.Bool?
    ensures ParseValue(Stringify(j) + rest) == Some(Parsed(j, rest))
  {
    var t := Stringify(j) + rest;
    assert t[0] == Stringify(j)[0];
    assert t[|Stringify(j)|..] == rest;
  }

  /** Text between an opening and a closing unit, as it is seen after the opening one. */
  lemma Enclosed(open: CodeUnit, body: Text, close: CodeUnit, rest: Text)
    ensures ([open] + body + [close] + rest)[0] == open
    ensures ([open] + body + [close] + rest)[1..] == body + ([close] + rest)
  {
    Assoc([open] + body, [close], rest);
    Assoc([open], body, [close] + rest);
  }

  /** `JSON.parse` undoes `JSON.stringify`, in any context that does not continue a number. */
  lemma {:induction false} ValueRoundTrip(j: Json, rest: Text)
    requires EndsNumber(rest)
    ensures ParseValue(Stringify(j) + rest) == Some(Parsed(j, rest))
    decreases j, 1
  {
    var t := Stringify(j) + rest;
    match j
    case Null => LiteralRoundTrip(j, rest);
    case Bool(b) => LiteralRoundTrip(j, rest);
    case Number(digits) =>
      NotALiteral(t);
      NumberRoundTrip(digits, rest);
      assert t[..|digits|] == digits && t[|digits|..] == rest;
    case String(s) =>
      Enclosed(QUOTE, QuoteBody(s), QUOTE, rest);
      NotALiteral(t);
      StringRoundTrip(s, [QUOTE] + rest);
    case Array(items) =>
      if items != [] { ItemsRoundTrip(items, rest); }
      ArrayRead(items, rest);
    case Object(ms) =>
      if ms != [] { MembersRoundTrip(ms, rest); }
      ObjectRead(ms, rest);
  }

  lemma ArrayRead(items: seq<Json>, rest: Text)
    requires items != [] ==> ParseItems(StringifyItems(items) + ([CLOSE_BRACKET] + rest)) == Some(Parsed(items, rest))
    ensures ParseValue(Stringify(Array(items)) + rest) == Some(Parsed(Array(items), rest))
  {
    Enclosed(OPEN_BRACKET, StringifyItems(items), CLOSE_BRACKET, rest);
    NotALiteral(Stringify(Array(items)) + rest);
    if items != [] { StartsItems(items); }
  }

  lemma ObjectRead(ms: seq<Member>, rest: Text)
    requires ms != [] ==> ParseMembers(StringifyMembers(ms) + ([CLOSE_BRACE] + rest)) == Some(Parsed(ms, rest))
    ensures ParseValue(Stringify(Object(ms)) + rest) == Some(Parsed(Object(ms), rest))
  {
    Enclosed(OPEN_BRACE, StringifyMembers(ms), CLOSE_BRACE, rest);
    NotALiteral(Stringify(Object(ms)) + rest);
  }

  lemma StartsItems(items: seq<Json>)
    requires items != []
    ensures StringifyItems(items) != [] && StringifyItems(items)[0] != CLOSE_BRACKET
  {
    StartsValue(items[0]);
  }

  /** The text after the first of several items or members. */
  lemma AfterComma(first: Text, others: Text, rest: Text)
    ensures first + [COMMA] + others + rest == first + ([COMMA] + (others + rest))
    ensures ([COMMA] + (others + rest))[1..] == others + rest
  {
    Assoc(first + [COMMA], others, rest);
    Assoc(first, [COMMA], others + rest);
  }

  lemma {:induction false} ItemsRoundTrip(items: seq<Json>, rest: Text)
    requires items != []
    ensures ParseItems(StringifyItems(items) + ([CLOSE_BRACKET] + rest)) == Some(Parsed(items, rest))
    decreases items, 0
  {
    if |items| == 1 {
      ValueRoundTrip(items[0], [CLOSE_BRACKET] + rest);
      assert items == [items[0]];
    } else {
      var tail := StringifyItems(items[1..]) + ([CLOSE_BRACKET] + rest);
      ItemsRoundTrip(items[1..], rest);
      ValueRoundTrip(items[0], [COMMA] + tail);
      AfterComma(Stringify(items[0]), StringifyItems(items[1..]), [CLOSE_BRACKET] + rest);
      ItemThenItems(Stringify(items[0]) + ([COMMA] + tail), items, rest);
    }
  }

  lemma ItemThenItems(t: Text, items: seq<Json>, rest: Text)
    requires items != [] && ParseValue(t).Some?
    requires var p := ParseValue(t).value;
             p.value == items[0] && p.rest != [] && p.rest[0] == COMMA && ParseItems(p.rest[1..]) == Some(Parsed(items[1..], rest))
    ensures ParseItems(t) == Some(Parsed(items, rest))
  {
    assert items == [items[0]] + items[1..];
  }

  lemma {:induction false} MemberRoundTrip(m: Member, rest: Text)
    requires EndsNumber(rest)
    ensures ParseMember(StringifyMember(m) + rest) == Some(Parsed(m, rest))
    decreases m, 2
  {
    var after := [COLON] + (Stringify(m.value) + rest);
    Assoc(Quote(m.key), [COLON], Stringify(m.value));
    Assoc(Quote(m.key), [COLON] + Stringify(m.value), rest);
    Assoc([COLON], Stringify(m.value), rest);
    Enclosed(QUOTE, QuoteBody(m.key), QUOTE, after);
    StringRoundTrip(m.key, [QUOTE] + after);
    assert ([QUOTE] + after)[1..] == after && after[1..] == Stringify(m.value) + rest;
    ValueRoundTrip(m.value, rest);
  }

  lemma {:induction false} MembersRoundTrip(ms: seq<Member>, rest: Text)
    requires ms != []
    ensures ParseMembers(StringifyMembers(ms) + ([CLOSE_BRACE] + rest)) == Some(Parsed(ms, rest))
    decreases ms, 0
  {
    if |ms| == 1 {
      MemberRoundTrip(ms[0], [CLOSE_BRACE] + rest);
      assert ms == [ms[0]];
    } else {
      var tail := StringifyMembers(ms[1..]) + ([CLOSE_BRACE] + rest);
      MembersRoundTrip(ms[1..], rest);
      MemberRoundTrip(ms[0], [COMMA] + tail);
      AfterComma(StringifyMember(ms[0]), StringifyMembers(ms[1..]), [CLOSE_BRACE] + rest);
      MemberThenMembers(StringifyMember(ms[0]) + ([COMMA] + tail), ms, rest);
    }
  }

  lemma MemberThenMembers(t: Text, ms: seq<Member>, rest: Text)
    requires ms != [] && ParseMember(t).Some?
    requires var p := ParseMember(t).value;
             p.value == ms[0] && p.rest != [] && p.rest[0] == COMMA && ParseMembers(p.rest[1..]) == Some(Parsed(ms[1..], rest))
    ensures ParseMembers(t) == Some(Parsed(ms, rest))
  {
    assert ms == [ms[0]] + ms[1..];
  }

  /** The whole text must be one value: printed text with anything behind it that cannot belong to a number is
      refused. */
  lemma NothingFollows(j: Json, rest: Text)
    requires rest != [] && EndsNumber(rest)
    ensures Parse(Stringify(j) + rest).None?
  {
    ValueRoundTrip(j, rest);
  }

  lemma ParseStringify(j: Json)
    ensures Parse(Stringify(j)) == Some(j)
  {
    ValueRoundTrip(j, []);
    assert Stringify(j) + [] == Stringify(j);
  }

  lemma StringifyInjective(a: Json, b: Json)
    requires Stringify(a) == Stringify(b)
    ensures a == b
  {
    ParseStringify(a);
    ParseStringify(b);
  }
}
