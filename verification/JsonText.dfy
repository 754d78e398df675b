/** JSON trees, their two printers and a parser that undoes them.

    Text is a sequence of UTF-16 code units, as in ECMAScript. A finite number is identified with
    its ECMAScript `Number::toString` text, which is distinct for distinct finite numbers
    (negative zero is excluded). */
module JsonText {
  import opened Prelude

  type CodeUnit = c: int | 0 <= c < 0x10000
  type Text = seq<CodeUnit>

  const QUOTE: CodeUnit := 0x22
  const COMMA: CodeUnit := 0x2C
  const COLON: CodeUnit := 0x3A
  const OPEN_BRACKET: CodeUnit := 0x5B
  const BACKSLASH: CodeUnit := 0x5C
  const CLOSE_BRACKET: CodeUnit := 0x5D
  const LETTER_U: CodeUnit := 0x75
  const OPEN_BRACE: CodeUnit := 0x7B
  const CLOSE_BRACE: CodeUnit := 0x7D
  const NULL_TEXT: Text := [0x6E, 0x75, 0x6C, 0x6C]
  const TRUE_TEXT: Text := [0x74, 0x72, 0x75, 0x65]
  const FALSE_TEXT: Text := [0x66, 0x61, 0x6C, 0x73, 0x65]

  /** Digits, signs, the decimal point and the exponent letter. */
  predicate IsNumberUnit(c: CodeUnit) {
    0x30 <= c <= 0x39 || c == 0x2B || c == 0x2D || c == 0x2E || c == 0x65
  }

  type NumberText = t: Text | t != [] && forall i :: 0 <= i < |t| ==> IsNumberUnit(t[i]) witness [0x30]

  /** A JSON tree; the members of an object are kept in property order. */
  datatype Json =
    | Null
    | Bool(b: bool)
    | Number(digits: NumberText)
    | String(s: Text)
    | Array(items: seq<Json>)
    | Object(members: seq<Member>)

  datatype Member = Member(key: Text, value: Json)

  function Keys(ms: seq<Member>): (ks: seq<Text>)
    ensures |ks| == |ms| && forall i :: 0 <= i < |ms| ==> ks[i] == ms[i].key
  {
    seq(|ms|, i requires 0 <= i < |ms| => ms[i].key)
  }

  /** Property keys are distinct in every object of the tree. */
  predicate WellFormed(j: Json)
    decreases j
  {
    match j
    case Array(items) => forall i :: 0 <= i < |items| ==> WellFormed(items[i])
    case Object(ms) => Distinct(Keys(ms)) && forall i :: 0 <= i < |ms| ==> WellFormed(ms[i].value)
    case _ => true
  }

  // ----- strings -----

  predicate IsHighSurrogate(c: CodeUnit) { 0xD800 <= c <= 0xDBFF }

  predicate IsLowSurrogate(c: CodeUnit) { 0xDC00 <= c <= 0xDFFF }

  function HexDigit(d: int): CodeUnit
    requires 0 <= d < 16
  {
    if d < 10 then 0x30 + d else 0x61 + d - 10
  }

  function HexValue(c: CodeUnit): Option<int> {
    if 0x30 <= c <= 0x39 then Some(c - 0x30)
    else if 0x61 <= c <= 0x66 then Some(c - 0x61 + 10)
    else if 0x41 <= c <= 0x46 then Some(c - 0x41 + 10)
    else None
  }

  function UnicodeEscape(c: CodeUnit): Text {
    [BACKSLASH, LETTER_U, HexDigit(c / 0x1000), HexDigit(c / 0x100 % 16), HexDigit(c / 0x10 % 16), HexDigit(c % 16)]
  }

  /** The single-letter escapes `JSON.stringify` uses, as the letter after the backslash. */
  function ShortEscape(c: CodeUnit): Option<CodeUnit> {
    if c == QUOTE || c == BACKSLASH then Some(c)
    else if c == 0x08 then Some(0x62)
    else if c == 0x0C then Some(0x66)
    else if c == 0x0A then Some(0x6E)
    else if c == 0x0D then Some(0x72)
    else if c == 0x09 then Some(0x74)
    else None
  }

  /** The inverse table, which also admits the optional `\/`. */
  function ShortUnescape(c: CodeUnit): Option<CodeUnit> {
    if c == QUOTE || c == BACKSLASH || c == 0x2F then Some(c)
    else if c == 0x62 then Some(0x08)
    else if c == 0x66 then Some(0x0C)
    else if c == 0x6E then Some(0x0A)
    else if c == 0x72 then Some(0x0D)
    else if c == 0x74 then Some(0x09)
    else None
  }

  /** A code unit that is not the first half of a surrogate pair. */
  function QuoteUnit(c: CodeUnit): Text {
    match ShortEscape(c)
    case Some(letter) => [BACKSLASH, letter]
    case None =>
      if c < 0x20 || IsHighSurrogate(c) || IsLowSurrogate(c) then UnicodeEscape(c) else [c]
  }

  /** ECMAScript `QuoteJSONString` without the surrounding quotes: surrogate pairs are copied,
      lone surrogates escaped. */
  function QuoteBody(s: Text): Text {
    if s == [] then []
    else if |s| >= 2 && IsHighSurrogate(s[0]) && IsLowSurrogate(s[1]) then s[..2] + QuoteBody(s[2..])
    else QuoteUnit(s[0]) + QuoteBody(s[1..])
  }

  function Quote(s: Text): Text {
    [QUOTE] + QuoteBody(s) + [QUOTE]
  }

  // ----- printers -----

  /** `JSON.stringify`: members in property order, no white space. */
  function Stringify(j: Json): Text
    decreases j, 1
  {
    match j
    case Null => NULL_TEXT
    case Bool(b) => if b then TRUE_TEXT else FALSE_TEXT
    case Number(digits) => digits
    case String(s) => Quote(s)
    case Array(items) => [OPEN_BRACKET] + StringifyItems(items) + [CLOSE_BRACKET]
    case Object(ms) => [OPEN_BRACE] + StringifyMembers(ms) + [CLOSE_BRACE]
  }

  function StringifyItems(items: seq<Json>): Text
    decreases items, 0
  {
    if items == [] then []
    else if |items| == 1 then Stringify(items[0])
    else Stringify(items[0]) + [COMMA] + StringifyItems(items[1..])
  }

  function StringifyMember(m: Member): Text
    decreases m, 2
  {
    Quote(m.key) + [COLON] + Stringify(m.value)
  }

  function StringifyMembers(ms: seq<Member>): Text
    decreases ms, 0
  {
    if ms == [] then []
    else if |ms| == 1 then StringifyMember(ms[0])
    else StringifyMember(ms[0]) + [COMMA] + StringifyMembers(ms[1..])
  }

  // ----- key order -----

  /** The default order of `Array.prototype.sort` on strings: by code units. */
  predicate TextLe(a: Text, b: Text) {
    if a == [] then true
    else if b == [] then false
    else a[0] < b[0] || (a[0] == b[0] && TextLe(a[1..], b[1..]))
  }

  function InsertKey(k: Text, sorted: seq<Text>): (r: seq<Text>)
    ensures multiset(r) == multiset(sorted) + multiset{k}
  {
    if sorted == [] then [k]
    else if TextLe(k, sorted[0]) then [k] + sorted
    else
      assert sorted == [sorted[0]] + sorted[1..];
      [sorted[0]] + InsertKey(k, sorted[1..])
  }

  function SortKeys(ks: seq<Text>): (r: seq<Text>)
    ensures multiset(r) == multiset(ks)
  {
    if ks == [] then []
    else
      assert ks == [ks[0]] + ks[1..];
      InsertKey(ks[0], SortKeys(ks[1..]))
  }

  lemma SameElements(ks: seq<Text>)
    ensures forall k :: k in SortKeys(ks) <==> k in ks
    ensures |SortKeys(ks)| == |ks|
  {
    forall k ensures k in SortKeys(ks) <==> k in ks {
      assert k in SortKeys(ks) <==> k in multiset(SortKeys(ks));
    }
    assert |multiset(SortKeys(ks))| == |multiset(ks)|;
  }

  /** `stableJsonValue`: like `Stringify`, but the members of every object in key order. */
  function StableText(j: Json): Text
    decreases j, 1
  {
    match j
    case Array(items) => [OPEN_BRACKET] + StableItems(items) + [CLOSE_BRACKET]
    case Object(ms) =>
      SameElements(Keys(ms));
      [OPEN_BRACE] + StableMembers(j, SortKeys(Keys(ms))) + [CLOSE_BRACE]
    case _ => Stringify(j)
  }

  function StableItems(items: seq<Json>): Text
    decreases items, 0
  {
    if items == [] then []
    else if |items| == 1 then StableText(items[0])
    else StableText(items[0]) + [COMMA] + StableItems(items[1..])
  }

  /** `keys.map(key => quote(key) + ":" + print(record[key])).join(",")` */
  function StableMembers(j: Json, ks: seq<Text>): Text
    requires j.Object?
    requires forall k :: k in ks ==> k in Keys(j.members)
    decreases j, 0, |ks|
  {
    if ks == [] then []
    else
      var value := j.members[IndexOf(Keys(j.members), ks[0])].value;
      var first := Quote(ks[0]) + [COLON] + StableText(value);
      if |ks| == 1 then first else first + [COMMA] + StableMembers(j, ks[1..])
  }

  /** The tree with the members of every object put in key order. */
  function Canonical(j: Json): Json
    decreases j, 1
  {
    match j
    case Array(items) => Array(seq(|items|, i requires 0 <= i < |items| => Canonical(items[i])))
    case Object(ms) =>
      SameElements(Keys(ms));
      Object(CanonicalMembers(j, SortKeys(Keys(ms))))
    case _ => j
  }

  function CanonicalMembers(j: Json, ks: seq<Text>): (r: seq<Member>)
    requires j.Object?
    requires forall k :: k in ks ==> k in Keys(j.members)
    ensures |r| == |ks|
    decreases j, 0, |ks|
  {
    if ks == [] then []
    else
      var value := j.members[IndexOf(Keys(j.members), ks[0])].value;
      [Member(ks[0], Canonical(value))] + CanonicalMembers(j, ks[1..])
  }

  // ----- parser -----

  /** A parsed prefix and what follows it. */
  datatype Parsed<+T> = Parsed(value: T, rest: Text)

  function ParseHex(t: Text): Option<CodeUnit>
    requires |t| == 4
  {
    match (HexValue(t[0]), HexValue(t[1]), HexValue(t[2]), HexValue(t[3]))
    case (Some(a), Some(b), Some(c), Some(d)) =>
      var v := a * 0x1000 + b * 0x100 + c * 0x10 + d;
      if 0 <= v < 0x10000 then Some(v) else None
    case _ => None
  }

  /** One string character: its code unit and the number of input units it takes. */
  function ParseUnit(t: Text): Option<(CodeUnit, nat)>
    requires t != []
  {
    if t[0] != BACKSLASH then (if t[0] < 0x20 then None else Some((t[0], 1)))
    else if |t| < 2 then None
    else if t[1] != LETTER_U then
      match ShortUnescape(t[1]) case Some(c) => Some((c, 2)) case None => None
    else if |t| < 6 then None
    else match ParseHex(t[2..6]) case Some(c) => Some((c, 6)) case None => None
  }

  /** After an opening quote, up to and including the closing one. */
  function ParseStringBody(t: Text): (r: Option<Parsed<Text>>)
    ensures r.Some? ==> |r.value.rest| < |t|
    decreases |t|
  {
    if t == [] then None
    else if t[0] == QUOTE then Some(Parsed([], t[1..]))
    else
      match ParseUnit(t)
      case None => None
      case Some((c, n)) =>
        match ParseStringBody(if n <= |t| then t[n..] else [])
        case None => None
        case Some(p) => Some(Parsed([c] + p.value, p.rest))
  }

  /** The longest prefix of number units. */
  function NumberPrefix(t: Text): (n: nat)
    ensures n <= |t| && forall i :: 0 <= i < n ==> IsNumberUnit(t[i])
  {
    if t != [] && IsNumberUnit(t[0]) then 1 + NumberPrefix(t[1..]) else 0
  }

  function ParseValue(t: Text): (r: Option<Parsed<Json>>)
    ensures r.Some? ==> |r.value.rest| < |t|
    decreases |t|, 1
  {
    if NULL_TEXT <= t then Some(Parsed(Null, t[4..]))
    else if TRUE_TEXT <= t then Some(Parsed(Bool(true), t[4..]))
    else if FALSE_TEXT <= t then Some(Parsed(Bool(false), t[5..]))
    else if t == [] then None
    else if t[0] == QUOTE then
      match ParseStringBody(t[1..])
      case Some(p) => Some(Parsed(String(p.value), p.rest))
      case None => None
    else if t[0] == OPEN_BRACKET then
      if |t| > 1 && t[1] == CLOSE_BRACKET then Some(Parsed(Array([]), t[2..]))
      else
        match ParseItems(t[1..])
        case Some(p) => Some(Parsed(Array(p.value), p.rest))
        case None => None
    else if t[0] == OPEN_BRACE then
      if |t| > 1 && t[1] == CLOSE_BRACE then Some(Parsed(Object([]), t[2..]))
      else
        match ParseMembers(t[1..])
        case Some(p) => Some(Parsed(Object(p.value), p.rest))
        case None => None
    else
      var n := NumberPrefix(t);
      if n == 0 then None else Some(Parsed(Number(t[..n]), t[n..]))
  }

  function ParseItems(t: Text): (r: Option<Parsed<seq<Json>>>)
    ensures r.Some? ==> |r.value.rest| < |t|
    decreases |t|, 2
  {
    match ParseValue(t)
    case None => None
    case Some(p) =>
      if p.rest == [] then None
      else if p.rest[0] == CLOSE_BRACKET then Some(Parsed([p.value], p.rest[1..]))
      else if p.rest[0] != COMMA then None
      else
        match ParseItems(p.rest[1..])
        case Some(q) => Some(Parsed([p.value] + q.value, q.rest))
        case None => None
  }

  function ParseMember(t: Text): (r: Option<Parsed<Member>>)
    ensures r.Some? ==> |r.value.rest| < |t|
    decreases |t|, 2
  {
    if t == [] || t[0] != QUOTE then None
    else
      match ParseStringBody(t[1..])
      case None => None
      case Some(k) =>
        if k.rest == [] || k.rest[0] != COLON then None
        else
          match ParseValue(k.rest[1..])
          case Some(v) => Some(Parsed(Member(k.value, v.value), v.rest))
          case None => None
  }

  function ParseMembers(t: Text): (r: Option<Parsed<seq<Member>>>)
    ensures r.Some? ==> |r.value.rest| < |t|
    decreases |t|, 3
  {
    match ParseMember(t)
    case None => None
    case Some(p) =>
      if p.rest == [] then None
      else if p.rest[0] == CLOSE_BRACE then Some(Parsed([p.value], p.rest[1..]))
      else if p.rest[0] != COMMA then None
      else
        match ParseMembers(p.rest[1..])
        case Some(q) => Some(Parsed([p.value] + q.value, q.rest))
        case None => None
  }

  /** `JSON.parse` on compact text: the whole text must be one value. */
  function Parse(t: Text): Option<Json> {
    match ParseValue(t)
    case Some(p) => if p.rest == [] then Some(p.value) else None
    case None => None
  }
}
