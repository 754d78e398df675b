/** The Markdown scanner: comments, fenced blocks and inline code are blanked out in place, so that an
    offset into the prose is an offset into the source. */
module MarkdownMask {
  import opened Prelude

  // ----- blanking in place -----

  /** `b` is `a` with some characters other than newlines replaced by spaces. */
  predicate Masks(a: string, b: string) {
    |a| == |b| && forall i :: 0 <= i < |a| ==> b[i] == a[i] || (b[i] == ' ' && a[i] != '\n')
  }

  function Blank(s: string): (r: string)
    ensures |r| == |s| && forall i :: 0 <= i < |r| ==> r[i] == if s[i] == '\n' then '\n' else ' '
  {
    seq(|s|, i requires 0 <= i < |s| => if s[i] == '\n' then '\n' else ' ')
  }

  lemma BlankMasks(s: string)
    ensures Masks(s, Blank(s))
  {
  }

  lemma MasksConcat(a: string, b: string, c: string, d: string)
    requires Masks(a, b) && Masks(c, d)
    ensures Masks(a + c, b + d)
  {
  }

  lemma MasksTwice(a: string, b: string, c: string)
    requires Masks(a, b) && Masks(b, c)
    ensures Masks(a, c)
  {
  }

  // ----- comments -----

  /** `pattern` stands in `s` at `i`. */
  predicate At(s: string, i: int, pattern: string) {
    0 <= i && i + |pattern| <= |s| && s[i..i + |pattern|] == pattern
  }

  /** The first place of `pattern` from `from` on. */
  function Find(s: string, pattern: string, from: nat): (r: Option<nat>)
    ensures r.Some? ==> from <= r.value && At(s, r.value, pattern)
    ensures r.None? ==> forall j :: j >= from ==> !At(s, j, pattern)
    decreases |s| - from
  {
    if from > |s| then None
    else if At(s, from, pattern) then Some(from)
    else Find(s, pattern, from + 1)
  }

  const OPEN := "<!--"
  const CLOSE := "-->"

  /** The length of the comment at the start of `s`, if there is one. */
  function Comment(s: string): (r: Option<nat>)
    ensures r.Some? ==> 0 < r.value <= |s|
    ensures r.None? && At(s, 0, OPEN) ==> forall j :: j >= 4 ==> !At(s, j, CLOSE)
  {
    if At(s, 0, OPEN) then
      match Find(s, CLOSE, 4) case Some(j) => Some(j + 3) case None => None
    else None
  }

  function MaskComments(s: string): string
    decreases |s|
  {
    if s == "" then ""
    else match Comment(s)
         case Some(n) => Blank(s[..n]) + MaskComments(s[n..])
         case None => [s[0]] + MaskComments(s[1..])
  }

  /** An opened comment that is not closed. */
  predicate Dangling(s: string, i: int) {
    At(s, i, OPEN) && forall j :: i + 4 <= j <= |s| ==> !At(s, j, CLOSE)
  }

  lemma AtOf(s: string, i: int, pattern: string)
    ensures At(s, i, pattern) <==> 0 <= i && i + |pattern| <= |s| && forall k :: 0 <= k < |pattern| ==> s[i + k] == pattern[k]
  {
    if 0 <= i && i + |pattern| <= |s| {
      var part := s[i..i + |pattern|];
      assert forall k :: 0 <= k < |part| ==> part[k] == s[i + k];
    }
  }

  /** What stands in a masked text without spaces stands in the text. */
  lemma UnmaskedAt(a: string, b: string, i: int, pattern: string)
    requires Masks(a, b) && ' ' !in pattern && At(b, i, pattern)
    ensures At(a, i, pattern)
  {
    AtOf(a, i, pattern);
    AtOf(b, i, pattern);
    assert forall k :: 0 <= k < |pattern| ==> b[i + k] == pattern[k] && pattern[k] in pattern;
  }

  lemma AtSuffix(s: string, n: nat, i: int, pattern: string)
    requires n <= |s| && n <= i
    ensures At(s, i, pattern) <==> At(s[n..], i - n, pattern)
  {
    AtOf(s, i, pattern);
    AtOf(s[n..], i - n, pattern);
  }

  /** `s` has a comment at `a` that ends, at its first closing, before `e`. */
  predicate CommentAt(s: string, a: int, e: int) {
    && At(s, a, OPEN) && a + 7 <= e <= |s| && At(s, e - 3, CLOSE)
    && forall j :: a + 4 <= j < e - 3 ==> !At(s, j, CLOSE)
  }

  ghost predicate InComment(s: string, i: int) {
    exists a, e :: a <= i < e && CommentAt(s, a, e)
  }

  lemma CommentFound(s: string)
    requires Comment(s).Some?
    ensures CommentAt(s, 0, Comment(s).value)
  {
    FirstFound(s, CLOSE, 4);
  }

  lemma {:induction false} FirstFound(s: string, pattern: string, from: nat)
    requires Find(s, pattern, from).Some?
    ensures forall j :: from <= j < Find(s, pattern, from).value ==> !At(s, j, pattern)
    decreases |s| - from
  {
    if !At(s, from, pattern) { FirstFound(s, pattern, from + 1); }
  }

  // ----- fences -----

  predicate IsSpace(c: char) {
    || '\t' <= c <= '\r' || c == ' ' || c == '\U{00A0}' || c == '\U{1680}' || '\U{2000}' <= c <= '\U{200A}'
    || c == '\U{2028}' || c == '\U{2029}' || c == '\U{202F}' || c == '\U{205F}' || c == '\U{3000}' || c == '\U{FEFF}'
  }

  /** How many times `c` stands in `s` from `i` on. */
  function RunLength(s: string, i: nat, c: char): (n: nat)
    requires i <= |s|
    ensures i + n <= |s| && (forall k :: i <= k < i + n ==> s[k] == c) && (i + n < |s| ==> s[i + n] != c)
    decreases |s| - i
  {
    if i < |s| && s[i] == c then 1 + RunLength(s, i + 1, c) else 0
  }

  function Indent(s: string, i: nat): (n: nat)
    requires i <= |s|
    ensures i + n <= |s|
    decreases |s| - i
  {
    if i < |s| && IsSpace(s[i]) then 1 + Indent(s, i + 1) else 0
  }

  datatype Fence = Fence(mark: char, length: nat)

  datatype Marker = Marker(fence: Fence, end: nat)

  /** Three or more backticks or tildes after at most three spaces. */
  function MarkerOf(line: string): (r: Option<Marker>)
    ensures r.Some? ==> r.value.end <= |line|
  {
    var i := Indent(line, 0);
    if i > 3 || i == |line| || (line[i] != '`' && line[i] != '~') then None
    else
      var n := RunLength(line, i, line[i]);
      if n < 3 then None else Some(Marker(Fence(line[i], n), i + n))
  }

  /** The shape of a marker: spaces, and then a whole run of its mark. */
  predicate MarkerShape(line: string, m: Marker) {
    && (m.fence.mark == '`' || m.fence.mark == '~') && 3 <= m.fence.length <= m.end <= |line| && m.end <= m.fence.length + 3
    && (forall k :: 0 <= k < m.end - m.fence.length ==> IsSpace(line[k]))
    && (forall k :: m.end - m.fence.length <= k < m.end ==> line[k] == m.fence.mark)
    && (m.end < |line| ==> line[m.end] != m.fence.mark)
  }

  lemma {:induction false} IndentIs(s: string, i: nat, j: nat)
    requires i <= j < |s| && (forall k :: i <= k < j ==> IsSpace(s[k])) && !IsSpace(s[j])
    ensures Indent(s, i) == j - i
    decreases j - i
  {
    if i < j { IndentIs(s, i + 1, j); }
  }

  lemma {:induction false} IndentSpaces(s: string, i: nat)
    requires i <= |s|
    ensures forall k :: i <= k < i + Indent(s, i) ==> IsSpace(s[k])
    decreases |s| - i
  {
    if i < |s| && IsSpace(s[i]) { IndentSpaces(s, i + 1); }
  }

  /** A line starts with a marker exactly when it has this shape. */
  lemma MarkerExactly(line: string, m: Marker)
    ensures MarkerOf(line) == Some(m) <==> MarkerShape(line, m)
  {
    if MarkerOf(line) == Some(m) { IndentSpaces(line, 0); }
    if MarkerShape(line, m) { IndentIs(line, 0, m.end - m.fence.length); }
  }

  predicate Opens(line: string, f: Fence) {
    MarkerOf(line).Some? && MarkerOf(line).value.fence == f
  }

  /** A closing line: the same mark, at least as long, and nothing after it. */
  predicate Closes(line: string, f: Fence) {
    && MarkerOf(line).Some?
    && var m := MarkerOf(line).value;
       m.fence.mark == f.mark && m.fence.length >= f.length && forall k :: m.end <= k < |line| ==> IsSpace(line[k])
  }

  /** At most three spaces, at least as many marks as the opening has, and nothing but spaces after them. */
  predicate ClosingShape(line: string, f: Fence, i: nat, n: nat) {
    && i <= 3 && f.length <= n && 3 <= n && i + n <= |line| && (f.mark == '`' || f.mark == '~')
    && (forall k :: 0 <= k < i ==> IsSpace(line[k])) && (forall k :: i + n <= k < |line| ==> IsSpace(line[k]))
    && (forall k :: i <= k < i + n ==> line[k] == f.mark)
  }

  /** A line closes a fence exactly when it has this shape. */
  lemma ClosesExactly(line: string, f: Fence)
    ensures Closes(line, f) <==> exists i: nat, n: nat :: ClosingShape(line, f, i, n)
  {
    if Closes(line, f) {
      var m := MarkerOf(line).value;
      MarkerExactly(line, m);
      assert ClosingShape(line, f, m.end - m.fence.length, m.fence.length);
    }
    if i: nat, n: nat :| ClosingShape(line, f, i, n) { MarkerExactly(line, Marker(Fence(f.mark, n), i + n)); }
  }

  /** The open fence after a line. */
  function After(fence: Option<Fence>, line: string): Option<Fence> {
    match fence
    case Some(f) => if Closes(line, f) then None else Some(f)
    case None => match MarkerOf(line) case Some(m) => Some(m.fence) case None => None
  }

  /** The open fence before line `k`. */
  function FenceBefore(lines: seq<string>, k: nat): Option<Fence>
    requires k <= |lines|
  {
    if k == 0 then None else After(FenceBefore(lines, k - 1), lines[k - 1])
  }

  /** `o` opened a fence that nothing has closed before line `k`. */
  predicate OpenedAt(lines: seq<string>, k: nat, o: nat, f: Fence)
    requires k <= |lines|
  {
    o < k && FenceBefore(lines, o).None? && Opens(lines[o], f) && forall j :: o < j < k ==> !Closes(lines[j], f)
  }

  lemma {:induction false} StillOpen(lines: seq<string>, k: nat, o: nat, f: Fence)
    requires k <= |lines| && OpenedAt(lines, k, o, f)
    ensures FenceBefore(lines, k) == Some(f)
  {
    if o + 1 < k { StillOpen(lines, k - 1, o, f); }
  }

  lemma {:induction false} OpeningOf(lines: seq<string>, k: nat) returns (o: nat)
    requires k <= |lines| && FenceBefore(lines, k).Some?
    ensures OpenedAt(lines, k, o, FenceBefore(lines, k).value)
  {
    if FenceBefore(lines, k - 1).None? { o := k - 1; } else { o := OpeningOf(lines, k - 1); }
  }

  /** A line is inside a fence exactly when a line before it opened one that no line between closes. */
  lemma InsideFence(lines: seq<string>, k: nat, f: Fence)
    requires k <= |lines|
    ensures FenceBefore(lines, k) == Some(f) <==> exists o :: OpenedAt(lines, k, o, f)
  {
    if FenceBefore(lines, k) == Some(f) {
      var o := OpeningOf(lines, k);
    } else if o :| OpenedAt(lines, k, o, f) {
      StillOpen(lines, k, o, f);
    }
  }

  // ----- inline code -----

  /** Where `.` in a pattern stops. */
  predicate EndsLine(c: char) {
    c == '\n' || c == '\r' || c == '\U{2028}' || c == '\U{2029}'
  }

  /** The end of the closest run of `n` backticks from `j` on that `.*?` reaches. */
  function CodeEnd(s: string, n: nat, j: nat): (r: Option<nat>)
    requires n > 0 && j <= |s|
    ensures r.Some? ==> j + n <= r.value <= |s|
    decreases |s| - j
  {
    if j + n <= |s| && RunLength(s, j, '`') >= n then Some(j + n)
    else if j == |s| || EndsLine(s[j]) then None
    else CodeEnd(s, n, j + 1)
  }

  /** The code span at the start of `s`, opened by at most `n` backticks: the longest opening that is
      closed wins, as the pattern backtracks. */
  function CodeSpan(s: string, n: nat): (r: Option<nat>)
    requires n <= |s|
    ensures r.Some? ==> 0 < r.value <= |s|
  {
    if n == 0 then None
    else match CodeEnd(s, n, n) case Some(end) => Some(end) case None => CodeSpan(s, n - 1)
  }

  function MaskCode(s: string): string
    decreases |s|
  {
    if s == "" then ""
    else match CodeSpan(s, RunLength(s, 0, '`'))
         case Some(n) => Blank(s[..n]) + MaskCode(s[n..])
         case None => [s[0]] + MaskCode(s[1..])
  }

  /** The end of the line comes between. */
  predicate Apart(s: string, i: int, j: int) {
    exists k :: i < k < j < |s| && 0 <= k && EndsLine(s[k])
  }

  /** `n` backticks stand in `s` at `i`. */
  predicate TicksAt(s: string, n: int, i: int) {
    0 <= i && i + n <= |s| && forall k :: i <= k < i + n ==> s[k] == '`'
  }

  /** `n` backticks end in `s` at `e`. */
  predicate TicksEnd(s: string, n: int, e: int) {
    TicksAt(s, n, e - n)
  }

  /** `s` has a code span at `a`: `n` backticks, no end of line, and `n` backticks that end at `e`. */
  predicate SpanAt(s: string, a: int, n: int, e: int) {
    && 0 < n && TicksAt(s, n, a) && a + 2 * n <= e && TicksEnd(s, n, e)
    && forall k :: a + n <= k < e - n ==> !EndsLine(s[k])
  }

  /** The span that is taken: closed at the first place where it can be, by the longest opening that has a
      closing on its line. */
  ghost predicate CodeAt(s: string, a: int, n: int, e: int) {
    && SpanAt(s, a, n, e)
    && (forall j :: a + n <= j < e - n ==> !TicksAt(s, n, j))
    && (forall m, e' :: m > n ==> !SpanAt(s, a, m, e'))
  }

  lemma {:induction false} CodeEndExactly(s: string, n: nat, j: nat)
    requires n > 0 && j <= |s|
    ensures CodeEnd(s, n, j).Some? ==>
              var e := CodeEnd(s, n, j).value;
              TicksEnd(s, n, e) && forall k :: j <= k < e - n ==> !EndsLine(s[k]) && !TicksAt(s, n, k)
    ensures CodeEnd(s, n, j).None? ==>
              forall e :: j <= e - n && TicksEnd(s, n, e) ==> exists k :: j <= k < e - n && EndsLine(s[k])
    decreases |s| - j
  {
    RunIsTicks(s, n, j);
    if !TicksAt(s, n, j) && j < |s| && !EndsLine(s[j]) {
      CodeEndExactly(s, n, j + 1);
      forall e | CodeEnd(s, n, j).None? && j <= e - n && TicksEnd(s, n, e) ensures exists k :: j <= k < e - n && EndsLine(s[k]) {
        assert j + 1 <= e - n;
      }
    }
  }

  lemma RunIsTicks(s: string, n: nat, j: nat)
    requires j <= |s|
    ensures TicksAt(s, n, j) <==> RunLength(s, j, '`') >= n
  {
  }

  lemma {:induction false} CodeSpanTaken(s: string, n: nat) returns (m: nat)
    requires n <= |s| && CodeSpan(s, n).Some? && TicksAt(s, n, 0) && forall m, e :: m > n ==> !SpanAt(s, 0, m, e)
    ensures CodeAt(s, 0, m, CodeSpan(s, n).value)
  {
    CodeEndExactly(s, n, n);
    if CodeEnd(s, n, n).Some? {
      m := n;
    } else {
      assert forall e :: !SpanAt(s, 0, n, e);
      m := CodeSpanTaken(s, n - 1);
    }
  }

  lemma {:induction false} NoSpanTaken(s: string, n: nat)
    requires n <= |s| && CodeSpan(s, n).None? && forall m, e :: m > n ==> !SpanAt(s, 0, m, e)
    ensures forall m, e :: !SpanAt(s, 0, m, e)
  {
    if n > 0 {
      CodeEndExactly(s, n, n);
      assert forall e :: !SpanAt(s, 0, n, e);
      NoSpanTaken(s, n - 1);
    }
  }

  lemma NoLongerSpan(s: string)
    ensures TicksAt(s, RunLength(s, 0, '`'), 0)
    ensures forall m, e :: m > RunLength(s, 0, '`') ==> !SpanAt(s, 0, m, e)
  {
    forall m, e | m > RunLength(s, 0, '`') ensures !SpanAt(s, 0, m, e) {
      if TicksAt(s, m, 0) { RunIsTicks(s, m, 0); }
    }
  }

  lemma SpanSuffix(s: string, n: nat, a: int, m: int, e: int)
    requires n <= |s| && 0 <= a
    ensures SpanAt(s[n..], a, m, e) <==> SpanAt(s, a + n, m, e + n)
  {
    TicksSuffix(s, n, m, a);
    if a + 2 * m <= e && 0 < m {
      TicksSuffix(s, n, m, e - m);
      if TicksAt(s, m, e + n - m) {
        assert forall k :: a + m <= k < e - m ==> s[n..][k] == s[k + n];
        assert forall k :: a + n + m <= k < e + n - m ==> s[k] == s[n..][k - n];
      }
    }
  }

  lemma TicksSuffix(s: string, n: nat, m: int, i: int)
    requires n <= |s| && 0 <= i
    ensures TicksAt(s[n..], m, i) <==> TicksAt(s, m, i + n)
  {
    if i + n + m <= |s| {
      assert forall k :: i <= k < i + m ==> s[n..][k] == s[k + n];
      assert forall k :: i + n <= k < i + n + m ==> s[k] == s[n..][k - n];
    }
  }

  lemma CodeSuffix(s: string, n: nat, a: int, m: int, e: int)
    requires n <= |s| && 0 <= a && CodeAt(s[n..], a, m, e)
    ensures CodeAt(s, a + n, m, e + n)
  {
    SpanSuffix(s, n, a, m, e);
    forall j | a + n + m <= j < e + n - m ensures !TicksAt(s, m, j) { TicksSuffix(s, n, m, j - n); }
    var start := a + n;
    forall m', e' | m' > m ensures !SpanAt(s, start, m', e') { SpanSuffix(s, n, a, m', e' - n); }
  }

  // ----- what is masked -----

  /** What the two patterns match. */
  datatype Pattern = Comments | Code

  datatype Region = Region(start: nat, end: nat)

  /** The pattern, tried at `a`, matches up to `e`. */
  ghost predicate Matches(p: Pattern, s: string, a: int, e: int) {
    match p
    case Comments => CommentAt(s, a, e)
    case Code => exists n :: CodeAt(s, a, n, e)
  }

  /** Where a match starts and ends. */
  type Places = iset<(int, int)>

  ghost function MatchesOf(p: Pattern, s: string): Places {
    iset a, e | Matches(p, s, a, e) :: (a, e)
  }

  ghost predicate NoMatch(m: Places, from: int, to: int) {
    forall i, e :: from <= i < to ==> (i, e) !in m
  }

  /** The regions a global replacement takes between `from` and `to`: each where there first is a match. */
  ghost predicate TakenOf(m: Places, regions: seq<Region>, from: int, to: int)
    decreases |regions|
  {
    if regions == [] then NoMatch(m, from, to)
    else
      && from <= regions[0].start < regions[0].end <= to && (regions[0].start as int, regions[0].end as int) in m
      && NoMatch(m, from, regions[0].start)
      && TakenOf(m, regions[1..], regions[0].end, to)
  }

  ghost predicate Taken(p: Pattern, s: string, regions: seq<Region>) {
    TakenOf(MatchesOf(p, s), regions, 0, |s|)
  }

  predicate Inside(regions: seq<Region>, i: int) {
    exists k :: 0 <= k < |regions| && regions[k].start <= i < regions[k].end
  }

  /** Blank inside the regions, save for newlines, and as it was outside. */
  predicate Blanked(s: string, r: string, regions: seq<Region>) {
    |r| == |s| && forall i :: 0 <= i < |s| ==> r[i] == if Inside(regions, i) && s[i] != '\n' then ' ' else s[i]
  }

  lemma OneMatch(p: Pattern, s: string, a: int, e: int, e': int)
    requires Matches(p, s, a, e) && Matches(p, s, a, e')
    ensures e == e'
  {
    match p
    case Comments =>
    case Code =>
      var n :| CodeAt(s, a, n, e);
      var n' :| CodeAt(s, a, n', e');
      assert n == n' && TicksEnd(s, n, e) && TicksEnd(s, n, e');
  }

  lemma {:induction false} TakenOfOnce(m: Places, a: seq<Region>, b: seq<Region>, from: int, to: int)
    requires TakenOf(m, a, from, to) && TakenOf(m, b, from, to)
    requires forall i, e, e' :: (i, e) in m && (i, e') in m ==> e == e'
    ensures a == b
    decreases |a|
  {
    if a != [] && b != [] {
      assert a[0] == b[0];
      TakenOfOnce(m, a[1..], b[1..], a[0].end, to);
      assert a == [a[0]] + a[1..] && b == [b[0]] + b[1..];
    }
  }

  /** There is one way to take them. */
  lemma TakenOnce(p: Pattern, s: string, a: seq<Region>, b: seq<Region>)
    requires Taken(p, s, a) && Taken(p, s, b)
    ensures a == b
  {
    var m := MatchesOf(p, s);
    forall i, e, e' | (i, e) in m && (i, e') in m ensures e == e' { OneMatch(p, s, i, e, e'); }
    TakenOfOnce(m, a, b, 0, |s|);
  }

  function Shift(regions: seq<Region>, n: nat): (r: seq<Region>)
    ensures |r| == |regions|
    ensures forall k :: 0 <= k < |r| ==> r[k] == Region(regions[k].start + n, regions[k].end + n)
  {
    seq(|regions|, k requires 0 <= k < |regions| => Region(regions[k].start + n, regions[k].end + n))
  }

  lemma MatchesSuffix(p: Pattern, s: string, n: nat, a: int, e: int)
    requires n <= |s| && 0 <= a
    ensures Matches(p, s[n..], a, e) <==> Matches(p, s, a + n, e + n)
  {
    match p
    case Comments => CommentSuffix(s, n, a, e);
    case Code =>
      if m :| CodeAt(s[n..], a, m, e) { CodeSuffix(s, n, a, m, e); }
      var start, end := a + n, e + n;
      if m :| CodeAt(s, start, m, end) { CodePrefix(s, n, a, m, e); }
  }

  lemma CodePrefix(s: string, n: nat, a: int, m: int, e: int)
    requires n <= |s| && 0 <= a && CodeAt(s, a + n, m, e + n)
    ensures CodeAt(s[n..], a, m, e)
  {
    SpanSuffix(s, n, a, m, e);
    forall j | a + m <= j < e - m ensures !TicksAt(s[n..], m, j) { TicksSuffix(s, n, m, j); }
    forall m', e' | m' > m ensures !SpanAt(s[n..], a, m', e') { SpanSuffix(s, n, a, m', e'); }
  }

  lemma CommentSuffix(s: string, n: nat, a: int, e: int)
    requires n <= |s| && 0 <= a
    ensures CommentAt(s[n..], a, e) <==> CommentAt(s, a + n, e + n)
  {
    AtSuffix(s, n, a + n, OPEN);
    if a + 7 <= e {
      AtSuffix(s, n, e + n - 3, CLOSE);
      NoCloseSuffix(s, n, a + 4, e - 3);
    }
  }

  lemma NoCloseSuffix(s: string, n: nat, from: int, to: int)
    requires n <= |s| && 0 <= from
    ensures (forall j :: from <= j < to ==> !At(s[n..], j, CLOSE)) <==> (forall j :: from + n <= j < to + n ==> !At(s, j, CLOSE))
  {
    if forall j :: from <= j < to ==> !At(s[n..], j, CLOSE) {
      forall j | from + n <= j < to + n ensures !At(s, j, CLOSE) { AtSuffix(s, n, j, CLOSE); }
    }
    if forall j :: from + n <= j < to + n ==> !At(s, j, CLOSE) {
      forall j | from <= j < to ensures !At(s[n..], j, CLOSE) { AtSuffix(s, n, j + n, CLOSE); }
    }
  }

  /** `m` is what `m'` has from `n` on, seen from there. */
  ghost predicate SeenFrom(m: Places, m': Places, n: nat) {
    && (forall i, e :: 0 <= i && (i, e) in m ==> (i + n, e + n) in m')
    && (forall i, e :: n <= i && (i, e) in m' ==> (i - n, e - n) in m)
  }

  lemma SuffixSeen(p: Pattern, s: string, n: nat)
    requires n <= |s|
    ensures SeenFrom(MatchesOf(p, s[n..]), MatchesOf(p, s), n)
  {
    var m, m' := MatchesOf(p, s[n..]), MatchesOf(p, s);
    forall i, e | 0 <= i && (i, e) in m ensures (i + n, e + n) in m' { MatchesSuffix(p, s, n, i, e); }
    forall i, e | n <= i && (i, e) in m' ensures (i - n, e - n) in m { MatchesSuffix(p, s, n, i - n, e - n); }
  }

  lemma NoMatchShifted(m: Places, m': Places, n: nat, from: nat, to: int)
    requires SeenFrom(m, m', n) && NoMatch(m, from, to)
    ensures NoMatch(m', from + n, to + n)
  {
    forall i, e | from + n <= i < to + n ensures (i, e) !in m' {
      assert (i - n, e - n) !in m;
    }
  }

  lemma {:induction false} TakenShifted(m: Places, m': Places, n: nat, regions: seq<Region>, from: nat, to: int)
    requires SeenFrom(m, m', n) && TakenOf(m, regions, from, to)
    ensures TakenOf(m', Shift(regions, n), from + n, to + n)
    decreases |regions|
  {
    if regions == [] {
      NoMatchShifted(m, m', n, from, to);
    } else {
      NoMatchShifted(m, m', n, from, regions[0].start);
      TakenShifted(m, m', n, regions[1..], regions[0].end, to);
      assert Shift(regions, n)[1..] == Shift(regions[1..], n);
    }
  }

  /** How the masking of `s` goes on after its first step, and what the step takes. */
  function Mask(p: Pattern, s: string): string {
    match p case Comments => MaskComments(s) case Code => MaskCode(s)
  }

  function FirstMatch(p: Pattern, s: string): (r: Option<nat>)
    ensures r.Some? ==> 0 < r.value <= |s|
  {
    match p case Comments => Comment(s) case Code => CodeSpan(s, RunLength(s, 0, '`'))
  }

  lemma FirstMatches(p: Pattern, s: string)
    ensures match FirstMatch(p, s) case Some(n) => Matches(p, s, 0, n) case None => forall e :: !Matches(p, s, 0, e)
  {
    match p
    case Comments => if Comment(s).Some? { CommentFound(s); }
    case Code =>
      var run := RunLength(s, 0, '`');
      NoLongerSpan(s);
      if CodeSpan(s, run).Some? {
        var m := CodeSpanTaken(s, run);
      } else {
        NoSpanTaken(s, run);
      }
  }

  lemma FirstPlace(p: Pattern, s: string)
    ensures match FirstMatch(p, s)
            case Some(n) => (0, n as int) in MatchesOf(p, s)
            case None => forall e :: (0, e) !in MatchesOf(p, s)
  {
    FirstMatches(p, s);
  }

  /** The masks are global replacements: every region that is taken is blanked, and nothing else. */
  lemma {:induction false} MasksTaken(p: Pattern, s: string) returns (regions: seq<Region>)
    ensures Taken(p, s, regions) && Blanked(s, Mask(p, s), regions)
    decreases |s|
  {
    if s == "" {
      regions := [];
    } else {
      var n := match FirstMatch(p, s) case Some(n) => n case None => 1;
      var rest := MasksTaken(p, s[n..]);
      regions := (if FirstMatch(p, s).Some? then [Region(0, n)] else []) + Shift(rest, n);
      TakenStep(p, s, n, rest, regions);
      BlankedStep(p, s, n, rest, regions);
    }
  }

  lemma TakenStep(p: Pattern, s: string, n: nat, rest: seq<Region>, regions: seq<Region>)
    requires 0 < n <= |s| && Taken(p, s[n..], rest)
    requires match FirstMatch(p, s)
             case Some(m) => m == n && regions == [Region(0, n)] + Shift(rest, n)
             case None => n == 1 && regions == [] + Shift(rest, n)
    ensures Taken(p, s, regions)
  {
    assert TakenOf(MatchesOf(p, s), Shift(rest, n), n, |s|) by {
      SuffixSeen(p, s, n);
      TakenShifted(MatchesOf(p, s[n..]), MatchesOf(p, s), n, rest, 0, |s[n..]|);
    }
    FirstPlace(p, s);
    TakenFirst(MatchesOf(p, s), regions, Shift(rest, n), n, |s|);
  }

  lemma TakenFirst(m: Places, regions: seq<Region>, later: seq<Region>, n: nat, to: int)
    requires TakenOf(m, later, n, to) && 0 < n <= to
    requires || (regions == [Region(0, n)] + later && (0, n as int) in m)
             || (regions == [] + later && n == 1 && forall e :: (0, e) !in m)
    ensures TakenOf(m, regions, 0, to)
  {
    if regions == [Region(0, n)] + later {
      assert regions[1..] == later;
    } else {
      assert regions == later;
    }
  }

  lemma BlankedStep(p: Pattern, s: string, n: nat, rest: seq<Region>, regions: seq<Region>)
    requires s != "" && 0 < n <= |s| && Blanked(s[n..], Mask(p, s[n..]), rest)
    requires match FirstMatch(p, s)
             case Some(m) => m == n && regions == [Region(0, n)] + Shift(rest, n)
             case None => n == 1 && regions == Shift(rest, n)
    ensures Blanked(s, Mask(p, s), regions)
  {
    var later := Shift(rest, n);
    assert Mask(p, s) == (if FirstMatch(p, s).Some? then Blank(s[..n]) else [s[0]]) + Mask(p, s[n..]);
    forall i | 0 <= i < |s| ensures Mask(p, s)[i] == if Inside(regions, i) && s[i] != '\n' then ' ' else s[i] {
      if i < n {
        InsideHead(regions, later, n, i);
      } else {
        InsideShifted(rest, n, i);
        InsideRest(regions, later, n, i);
        assert s[n..][i - n] == s[i];
      }
    }
  }

  lemma InsideShifted(rest: seq<Region>, n: nat, i: int)
    ensures Inside(Shift(rest, n), i) <==> Inside(rest, i - n)
  {
    if Inside(rest, i - n) {
      var k :| 0 <= k < |rest| && rest[k].start <= i - n < rest[k].end;
      assert Shift(rest, n)[k].start <= i < Shift(rest, n)[k].end;
    }
  }

  lemma InsideHead(regions: seq<Region>, later: seq<Region>, n: nat, i: int)
    requires 0 <= i < n && forall k :: 0 <= k < |later| ==> later[k].start >= n
    requires regions == [Region(0, n)] + later || regions == later
    ensures Inside(regions, i) <==> regions != later
  {
    if regions != later { assert regions[0] == Region(0, n); }
  }

  lemma InsideRest(regions: seq<Region>, later: seq<Region>, n: nat, i: int)
    requires n <= i && (regions == [Region(0, n)] + later || regions == later)
    ensures Inside(regions, i) <==> Inside(later, i)
  {
    if regions != later {
      if k :| 0 <= k < |later| && later[k].start <= i < later[k].end { assert regions[k + 1] == later[k]; }
    }
  }

  lemma {:induction false} InsideTaken(m: Places, regions: seq<Region>, from: int, to: int, i: int)
    requires TakenOf(m, regions, from, to) && Inside(regions, i)
    ensures exists a, e :: a <= i < e && (a, e) in m
    decreases |regions|
  {
    var k :| 0 <= k < |regions| && regions[k].start <= i < regions[k].end;
    if k > 0 {
      assert regions[1..][k - 1] == regions[k];
      InsideTaken(m, regions[1..], regions[0].end, to, i);
    }
  }

  lemma MaskKeeps(p: Pattern, s: string)
    ensures Masks(s, Mask(p, s))
  {
    var regions := MasksTaken(p, s);
  }

  /** A place where there is a match lies in a region that is taken. */
  lemma {:induction false} StartsInside(m: Places, regions: seq<Region>, from: int, to: int, i: int, e: int)
    requires TakenOf(m, regions, from, to) && from <= i < to && (i, e) in m
    ensures Inside(regions, i)
    decreases |regions|
  {
    if regions[0].end <= i {
      StartsInside(m, regions[1..], regions[0].end, to, i, e);
      var k :| 0 <= k < |regions[1..]| && regions[1..][k].start <= i < regions[1..][k].end;
      assert regions[k + 1] == regions[1..][k];
    }
  }

  /** So a character that starts a match is blanked. */
  lemma StartIsBlank(p: Pattern, s: string, i: nat, e: int)
    requires i < |s| && s[i] != '\n' && Matches(p, s, i, e)
    ensures i < |Mask(p, s)| && Mask(p, s)[i] == ' '
  {
    var regions := MasksTaken(p, s);
    assert (i as int, e) in MatchesOf(p, s);
    StartsInside(MatchesOf(p, s), regions, 0, |s|, i, e);
  }

  lemma CommentStarts(s: string, i: nat) returns (e: int)
    requires At(s, i, OPEN) && !Dangling(s, i)
    ensures Matches(Comments, s, i, e)
  {
    FirstFound(s, CLOSE, i + 4);
    e := Find(s, CLOSE, i + 4).value + 3;
  }

  /** Every comment is masked: an opening that is left has no closing after it. */
  lemma CommentsMasked(s: string, i: int)
    requires At(MaskComments(s), i, OPEN)
    ensures Dangling(s, i)
  {
    MaskKeeps(Comments, s);
    UnmaskedAt(s, MaskComments(s), i, OPEN);
    AtOf(MaskComments(s), i, OPEN);
    assert MaskComments(s)[i] == OPEN[0] == s[i];
    if !Dangling(s, i) {
      var e := CommentStarts(s, i);
      StartIsBlank(Comments, s, i, e);
    }
  }

  /** Where there is a span at all, one is taken. */
  lemma SpanStarts(s: string, i: nat, n: int, e: int) returns (end: int)
    requires i <= |s| && SpanAt(s, i, n, e)
    ensures Matches(Code, s, i, end)
  {
    var tail, run := s[i..], RunLength(s[i..], 0, '`');
    SpanSuffix(s, i, 0, n, e - i);
    NoLongerSpan(tail);
    if CodeSpan(tail, run).None? { NoSpanTaken(tail, run); }
    FirstMatches(Code, tail);
    end := CodeSpan(tail, run).value + i;
    MatchesSuffix(Code, s, i, 0, end - i);
  }

  lemma TicksMakeSpan(s: string, i: nat, j: nat)
    requires i < j < |s| && s[i] == '`' && s[j] == '`' && !Apart(s, i, j)
    ensures SpanAt(s, i, 1, j + 1)
  {
  }

  /** Every code span is masked: backticks that are left cannot form one with each other. */
  lemma CodeMasked(s: string, i: nat, j: nat)
    requires i < j < |MaskCode(s)| && MaskCode(s)[i] == '`' && MaskCode(s)[j] == '`'
    ensures Apart(s, i, j)
  {
    MaskKeeps(Code, s);
    assert s[i] == '`' && s[j] == '`';
    if !Apart(s, i, j) {
      TicksMakeSpan(s, i, j);
      var end := SpanStarts(s, i, 1, j + 1);
      StartIsBlank(Code, s, i, end);
    }
  }

  ghost predicate InSpan(s: string, i: int) {
    exists a, e :: a <= i < e && Matches(Code, s, a, e)
  }

  /** Nothing else is masked in the text: a character that changes lies in a comment. */
  lemma OnlyCommentsMasked(s: string, i: nat)
    requires i < |s| == |MaskComments(s)| && MaskComments(s)[i] != s[i]
    ensures InComment(s, i)
  {
    var regions := MasksTaken(Comments, s);
    InsideTaken(MatchesOf(Comments, s), regions, 0, |s|, i);
    var a, e :| a <= i < e && (a, e) in MatchesOf(Comments, s);
    assert CommentAt(s, a, e);
  }

  /** Nothing else on a line is masked: a character that changes lies in a code span that ends at its first
      closing, opened by as many backticks as have a closing. */
  lemma OnlyCodeMasked(s: string, i: nat)
    requires i < |s| == |MaskCode(s)| && MaskCode(s)[i] != s[i]
    ensures InSpan(s, i)
  {
    var regions := MasksTaken(Code, s);
    InsideTaken(MatchesOf(Code, s), regions, 0, |s|, i);
    var a, e :| a <= i < e && (a, e) in MatchesOf(Code, s);
    assert Matches(Code, s, a, e);
  }

  // ----- the whole scanner -----

  function MaskLine(fence: Option<Fence>, line: string): string {
    if fence.Some? || MarkerOf(line).Some? then Blank(line) else MaskCode(line)
  }

  /** The code spans of a line are blanked, and nothing else. */
  ghost predicate CodeBlanked(line: string, text: string) {
    exists regions :: Taken(Code, line, regions) && Blanked(line, text, regions)
  }

  ghost predicate InFence(lines: seq<string>, k: nat)
    requires k <= |lines|
  {
    exists o, f :: OpenedAt(lines, k, o, f)
  }

  /** Line `k` is blank if it is a marker or inside a fence, and loses its inline code otherwise. */
  ghost predicate MaskedLine(lines: seq<string>, k: nat, text: string)
    requires k < |lines|
  {
    && '\n' !in lines[k]
    && if InFence(lines, k) || MarkerOf(lines[k]).Some? then |text| == |lines[k]| && forall i :: 0 <= i < |text| ==> text[i] == ' '
       else CodeBlanked(lines[k], text)
  }

  lemma LineIsMasked(lines: seq<string>, k: nat)
    requires k < |lines| && '\n' !in lines[k]
    ensures MaskedLine(lines, k, MaskLine(FenceBefore(lines, k), lines[k]))
  {
    var fence := FenceBefore(lines, k);
    if fence.Some? { InsideFence(lines, k, fence.value); }
    if o, f :| OpenedAt(lines, k, o, f) { InsideFence(lines, k, f); }
    if fence.None? && MarkerOf(lines[k]).None? {
      var regions := MasksTaken(Code, lines[k]);
    }
  }

  lemma LineMasks(lines: seq<string>, k: nat, text: string)
    requires k < |lines| && MaskedLine(lines, k, text)
    ensures Masks(lines[k], text)
  {
  }

  ghost predicate LineWise(lines: seq<string>, masked: seq<string>) {
    && |masked| == |lines|
    && forall k :: 0 <= k < |lines| ==> MaskedLine(lines, k, masked[k])
  }

  /** `text` is the source with its comments blanked, and nothing else. */
  ghost predicate CommentsBlanked(source: string, text: string) {
    exists regions :: Taken(Comments, source, regions) && Blanked(source, text, regions)
  }

  /** The prose: comments go first, and then each line as its fences and its code spans say. */
  ghost predicate IsProse(source: string, prose: string) {
    exists text :: CommentsBlanked(source, text) && LineWise(SplitLines(text), SplitLines(prose))
  }

  /** `withoutExamples` */
  method WithoutExamples(source: string) returns (prose: string)
    ensures Masks(source, prose) && IsProse(source, prose)
    ensures forall i :: At(prose, i, OPEN) ==> Dangling(source, i)
  {
    ghost var regions := MasksTaken(Comments, source);
    assert CommentsBlanked(source, MaskComments(source));
    var lines := SplitLines(MaskComments(source));
    var masked := MaskLines(lines);
    prose := JoinLines(masked);
    MaskedLines(lines, masked);
    JoinSplit(MaskComments(source));
    CommentsStayMasked(source, prose);
  }

  method MaskLines(lines: seq<string>) returns (masked: seq<string>)
    requires forall k :: 0 <= k < |lines| ==> '\n' !in lines[k]
    ensures LineWise(lines, masked)
  {
    var fence: Option<Fence> := None;
    masked := [];
    for k := 0 to |lines|
      invariant |masked| == k && fence == FenceBefore(lines, k)
      invariant forall j :: 0 <= j < k ==> MaskedLine(lines, j, masked[j])
    {
      var line;
      fence, line := NextLine(lines, k, fence);
      masked := masked + [line];
    }
  }

  method NextLine(lines: seq<string>, k: nat, fence: Option<Fence>) returns (next: Option<Fence>, masked: string)
    requires k < |lines| && '\n' !in lines[k] && fence == FenceBefore(lines, k)
    ensures next == FenceBefore(lines, k + 1) && MaskedLine(lines, k, masked)
  {
    LineIsMasked(lines, k);
    var line := lines[k];
    var marker := MarkerOf(line);
    next := fence;
    if fence.Some? {
      if Closes(line, fence.value) {
        next := None;
      }
      return next, Blank(line);
    }
    if marker.Some? {
      return Some(marker.value.fence), Blank(line);
    }
    masked := MaskCode(line);
  }

  lemma CommentsStayMasked(source: string, prose: string)
    requires Masks(MaskComments(source), prose)
    ensures Masks(source, prose) && forall i :: At(prose, i, OPEN) ==> Dangling(source, i)
  {
    MaskKeeps(Comments, source);
    MasksTwice(source, MaskComments(source), prose);
    forall i | At(prose, i, OPEN) ensures Dangling(source, i) {
      UnmaskedAt(MaskComments(source), prose, i, OPEN);
      CommentsMasked(source, i);
    }
  }

  /** Lines masked one by one are the lines of a masked text. */
  lemma MaskedLines(lines: seq<string>, masked: seq<string>)
    requires lines != [] && LineWise(lines, masked)
    ensures Masks(JoinLines(lines), JoinLines(masked)) && SplitLines(JoinLines(masked)) == masked
  {
    forall k | 0 <= k < |masked| ensures Masks(lines[k], masked[k]) && '\n' !in masked[k] {
      assert MaskedLine(lines, k, masked[k]);
      LineMasks(lines, k, masked[k]);
    }
    JoinMasks(lines, masked);
    SplitJoin(masked);
  }

  lemma {:induction false} JoinMasks(a: seq<string>, b: seq<string>)
    requires |a| == |b| && forall k :: 0 <= k < |a| ==> Masks(a[k], b[k])
    ensures Masks(JoinLines(a), JoinLines(b))
  {
    if |a| > 1 {
      JoinMasks(a[1..], b[1..]);
      MasksConcat(a[0], b[0], "\n", "\n");
      MasksConcat(a[0] + "\n", b[0] + "\n", JoinLines(a[1..]), JoinLines(b[1..]));
    }
  }

  lemma {:induction false} SplitLine(line: string, rest: string)
    requires '\n' !in line
    ensures SplitLines(line) == [line] && SplitLines(line + "\n" + rest) == [line] + SplitLines(rest)
  {
    var whole := line + "\n" + rest;
    if line == "" {
      assert whole[1..] == rest;
    } else {
      assert whole[1..] == line[1..] + "\n" + rest;
      SplitLine(line[1..], rest);
      assert [line[0]] + line[1..] == line;
    }
  }

  lemma {:induction false} SplitJoin(lines: seq<string>)
    requires lines != [] && forall k :: 0 <= k < |lines| ==> '\n' !in lines[k]
    ensures SplitLines(JoinLines(lines)) == lines
  {
    if |lines| == 1 {
      SplitLine(lines[0], "");
    } else {
      SplitLine(lines[0], JoinLines(lines[1..]));
      SplitJoin(lines[1..]);
    }
  }

  // ----- inline links -----

  /** `[text](target)` as offsets: the opening bracket (or the `!` before it), the closing bracket, and
      the closing parenthesis. */
  datatype Link = Link(index: nat, bracket: nat, close: nat)

  /** How far the characters of a class run: up to `stop` or the end of the line. */
  function Until(s: string, i: nat, stop: char): (j: nat)
    requires i <= |s|
    ensures i <= j <= |s| && (forall k :: i <= k < j ==> s[k] != stop && s[k] != '\n')
    ensures j < |s| ==> s[j] == stop || s[j] == '\n'
    decreases |s| - i
  {
    if i == |s| || s[i] == stop || s[i] == '\n' then i else Until(s, i + 1, stop)
  }

  predicate Is(s: string, i: nat, c: char) {
    i < |s| && s[i] == c
  }

  /** The closing parenthesis of a target that starts at `i`: `<...>` when that works out, otherwise the
      next one on the line. */
  function TargetEnd(s: string, i: nat): (r: Option<nat>)
    requires i <= |s|
    ensures r.Some? ==> i < r.value < |s| && s[r.value] == ')' && forall k :: i <= k < r.value ==> s[k] != '\n'
  {
    var angle := if Is(s, i, '<') then Until(s, i + 1, '>') else i;
    if Is(s, i, '<') && angle > i + 1 && Is(s, angle, '>') && Is(s, angle + 1, ')') then Some(angle + 1)
    else
      var j := Until(s, i, ')');
      if j > i && Is(s, j, ')') then Some(j) else None
  }

  /** A well-formed link of the text, all on one line. */
  predicate WellPlaced(s: string, l: Link) {
    && l.index < l.bracket && l.bracket + 2 < l.close < |s|
    && (s[l.index] == '[' || (s[l.index] == '!' && s[l.index + 1] == '['))
    && s[l.bracket] == ']' && s[l.bracket + 1] == '(' && s[l.close] == ')'
    && forall k :: l.index <= k <= l.close ==> s[k] != '\n'
  }

  /** `[i, j)` holds neither `stop` nor a newline. */
  predicate Clear(s: string, i: int, j: int, stop: char) {
    0 <= i <= j <= |s| && forall k :: i <= k < j ==> s[k] != stop && s[k] != '\n'
  }

  /** `<target>)` */
  predicate AngleShape(s: string, t: int, close: int) {
    0 <= t && t + 2 < close < |s| && s[close] == ')' && s[t] == '<' && s[close - 1] == '>' && Clear(s, t + 1, close - 1, '>')
  }

  /** `(<target>)` or `(target)`, read from the opening parenthesis on. */
  predicate TargetShape(s: string, t: int, close: int) {
    && 0 <= t < close < |s| && s[close] == ')'
    && (Clear(s, t, close, ')') || AngleShape(s, t, close))
  }

  /** The first alternative is taken wherever it fits. */
  ghost predicate TargetTaken(s: string, t: int, close: int) {
    TargetShape(s, t, close) && ((exists c :: AngleShape(s, t, c)) ==> AngleShape(s, t, close))
  }

  /** The shape the pattern describes, whichever way it gets there. */
  predicate LinkShape(s: string, i: int, bracket: int, close: int) {
    && 0 <= i < bracket && bracket + 1 < |s|
    && var start := if s[i] == '!' then i + 1 else i;
       && start < bracket && s[start] == '[' && Clear(s, start + 1, bracket, ']')
       && s[bracket] == ']' && s[bracket + 1] == '(' && TargetShape(s, bracket + 2, close)
  }

  lemma UntilIs(s: string, i: nat, j: nat, stop: char)
    requires i <= j < |s| && Clear(s, i, j, stop) && (s[j] == stop || s[j] == '\n')
    ensures Until(s, i, stop) == j
  {
  }

  lemma AngleExactly(s: string, t: nat, close: int)
    requires t <= |s| && AngleShape(s, t, close)
    ensures TargetEnd(s, t) == Some(close)
  {
    UntilIs(s, t + 1, close - 1, '>');
  }

  lemma TargetSound(s: string, t: nat)
    requires t <= |s| && TargetEnd(s, t).Some?
    ensures TargetTaken(s, t, TargetEnd(s, t).value)
  {
    if c :| AngleShape(s, t, c) { AngleExactly(s, t, c); }
  }

  lemma TargetComplete(s: string, t: nat, close: nat)
    requires TargetTaken(s, t, close)
    ensures TargetEnd(s, t) == Some(close)
  {
    if AngleShape(s, t, close) {
      AngleExactly(s, t, close);
    } else {
      UntilIs(s, t, close, ')');
      PlainTarget(s, t, close);
    }
  }

  lemma PlainTarget(s: string, t: nat, close: nat)
    requires t < close < |s| && Until(s, t, ')') == close && s[close] == ')' && forall c :: !AngleShape(s, t, c)
    ensures TargetEnd(s, t) == Some(close)
  {
    if Is(s, t, '<') {
      var angle := Until(s, t + 1, '>');
      assert !AngleShape(s, t, angle + 1);
    }
  }

  function LinkAt(s: string, i: nat): Option<Link>
    requires i < |s|
  {
    var start := if s[i] == '!' then i + 1 else i;
    if !Is(s, start, '[') then None
    else
      var bracket := Until(s, start + 1, ']');
      if !Is(s, bracket, ']') || !Is(s, bracket + 1, '(') then None
      else match TargetEnd(s, bracket + 2)
           case None => None
           case Some(close) => Some(Link(i, bracket, close))
  }

  /** The link that is found: of the pattern's shape, with the alternative for its target that is tried first. */
  ghost predicate LinkTaken(s: string, l: Link) {
    LinkShape(s, l.index, l.bracket, l.close) && TargetTaken(s, l.bracket + 2, l.close)
  }

  lemma LinkSound(s: string, i: nat)
    requires i < |s| && LinkAt(s, i).Some?
    ensures LinkAt(s, i).value.index == i && LinkTaken(s, LinkAt(s, i).value)
  {
    TargetSound(s, LinkAt(s, i).value.bracket + 2);
  }

  lemma LinkComplete(s: string, l: Link)
    requires LinkTaken(s, l)
    ensures LinkAt(s, l.index) == Some(l)
  {
    UntilIs(s, if s[l.index] == '!' then l.index + 2 else l.index + 1, l.bracket, ']');
    TargetComplete(s, l.bracket + 2, l.close);
  }

  /** A link of the pattern's shape has one that is taken, at the same place. */
  lemma ShapeTaken(s: string, i: nat, bracket: nat, close: nat) returns (l: Link)
    requires LinkShape(s, i, bracket, close)
    ensures l.index == i && l.bracket == bracket && LinkTaken(s, l)
  {
    var target := bracket + 2;
    if c :| AngleShape(s, target, c) {
      l := Link(i, bracket, c);
    } else {
      l := Link(i, bracket, close);
    }
  }

  /** A link is found at a place exactly when the characters there have a link's shape, and it is the one that
      the pattern takes. */
  lemma LinkExactly(s: string, i: nat)
    requires i < |s|
    ensures forall l: Link :: LinkAt(s, i) == Some(l) <==> l.index == i && LinkTaken(s, l)
    ensures LinkAt(s, i).Some? <==> exists bracket: nat, close: nat :: LinkShape(s, i, bracket, close)
  {
    if LinkAt(s, i).Some? { LinkSound(s, i); }
    forall l: Link | l.index == i && LinkTaken(s, l) ensures LinkAt(s, i) == Some(l) { LinkComplete(s, l); }
    if bracket: nat, close: nat :| LinkShape(s, i, bracket, close) {
      var l := ShapeTaken(s, i, bracket, close);
    }
  }

  lemma LinkWellPlaced(s: string, i: nat)
    requires i < |s| && LinkAt(s, i).Some?
    ensures LinkAt(s, i).value.index == i && WellPlaced(s, LinkAt(s, i).value)
  {
  }

  /** What starts at each place of the text. */
  function Candidates(s: string): (r: seq<Option<Link>>)
    ensures Placed(r) && |r| == |s|
    ensures forall i :: 0 <= i < |s| ==> r[i] == LinkAt(s, i)
  {
    assert forall i :: 0 <= i < |s| && LinkAt(s, i).Some? ==> LinkAt(s, i).value.index == i <= LinkAt(s, i).value.close < |s| by {
      forall i | 0 <= i < |s| && LinkAt(s, i).Some? ensures LinkAt(s, i).value.index == i <= LinkAt(s, i).value.close < |s| {
        LinkWellPlaced(s, i);
      }
    }
    seq(|s|, i requires 0 <= i < |s| => LinkAt(s, i))
  }

  predicate Placed(found: seq<Option<Link>>) {
    forall i :: 0 <= i < |found| && found[i].Some? ==> found[i].value.index == i <= found[i].value.close < |found|
  }

  /** The links a scan from left to right takes, each after the end of the one before. */
  function LinksFrom(found: seq<Option<Link>>, i: nat): (r: seq<Link>)
    requires i <= |found| && Placed(found)
    decreases |found| - i
  {
    if i == |found| then []
    else match found[i]
         case Some(l) => [l] + LinksFrom(found, l.close + 1)
         case None => LinksFrom(found, i + 1)
  }

  /** They are candidates, in order, and do not overlap. */
  lemma {:induction false} LinksApart(found: seq<Option<Link>>, i: nat)
    requires i <= |found| && Placed(found)
    ensures forall l :: l in LinksFrom(found, i) ==> i <= l.index < |found| && found[l.index] == Some(l)
    ensures forall a, b :: 0 <= a < b < |LinksFrom(found, i)| ==> LinksFrom(found, i)[a].close < LinksFrom(found, i)[b].index
    decreases |found| - i
  {
    if i < |found| {
      match found[i]
      case Some(l) => LinksApart(found, l.close + 1);
      case None => LinksApart(found, i + 1);
    }
  }

  ghost predicate Covered(links: seq<Link>, k: nat) {
    exists l :: l in links && l.index <= k <= l.close
  }

  lemma CoveredLater(l: Link, links: seq<Link>, k: nat)
    requires Covered(links, k)
    ensures Covered([l] + links, k)
  {
    var m :| m in links && m.index <= k <= m.close;
    assert m in [l] + links;
  }

  /** A scan passes over no place where a link starts, unless it lies inside a link found before. */
  lemma {:induction false} LinksComplete(found: seq<Option<Link>>, i: nat, k: nat)
    requires i <= k < |found| && Placed(found) && found[k].Some?
    ensures Covered(LinksFrom(found, i), k)
    decreases |found| - i
  {
    match found[i]
    case Some(l) =>
      if k <= l.close {
        assert l in [l] + LinksFrom(found, l.close + 1);
      } else {
        LinksComplete(found, l.close + 1, k);
        CoveredLater(l, LinksFrom(found, l.close + 1), k);
      }
    case None => LinksComplete(found, i + 1, k);
  }

  function LineOf(s: string, i: nat): nat
    requires i <= |s|
  {
    if i == 0 then 0 else LineOf(s, i - 1) + if s[i - 1] == '\n' then 1 else 0
  }

  lemma {:induction false} SameLine(a: string, b: string, i: nat)
    requires Masks(a, b) && i <= |a|
    ensures LineOf(a, i) == LineOf(b, i)
  {
    if i > 0 { SameLine(a, b, i - 1); }
  }

  /** The links of a text, as a global match finds them: each where one is taken, in order, without overlap,
      and no place of a link's shape left out. */
  ghost predicate AreLinks(s: string, links: seq<Link>) {
    && (forall l :: l in links ==> LinkTaken(s, l))
    && (forall a, b :: 0 <= a < b < |links| ==> links[a].close < links[b].index)
    && forall i: nat, bracket: nat, close: nat :: LinkShape(s, i, bracket, close) ==> Covered(links, i)
  }

  lemma ScannedLinks(s: string)
    ensures AreLinks(s, LinksFrom(Candidates(s), 0))
  {
    var found := Candidates(s);
    var links := LinksFrom(found, 0);
    LinksApart(found, 0);
    forall l | l in links ensures LinkTaken(s, l) { LinkSound(s, l.index); }
    forall i: nat, bracket: nat, close: nat | LinkShape(s, i, bracket, close) ensures Covered(links, i) {
      LinkExactly(s, i);
      LinksComplete(found, 0, i);
    }
  }

  /** The first pass of `markdownLinks`: the inline links of the prose, found in a loop. Each stands at the
      same offsets, on the same line, in the source. */
  method InlineLinks(source: string) returns (prose: string, links: seq<Link>)
    ensures Masks(source, prose) && IsProse(source, prose) && AreLinks(prose, links)
    ensures forall l :: l in links ==> WellPlaced(source, l) && LineOf(source, l.index) == LineOf(prose, l.index)
  {
    prose := WithoutExamples(source);
    links := ScanLinks(Candidates(prose));
    ScannedLinks(prose);
    LinksApart(Candidates(prose), 0);
    forall l | l in links ensures WellPlaced(prose, l) {
      LinkWellPlaced(prose, l.index);
    }
    LinksInSource(source, prose, links);
  }

  method ScanLinks(found: seq<Option<Link>>) returns (links: seq<Link>)
    requires Placed(found)
    ensures links == LinksFrom(found, 0)
  {
    links := [];
    var i := 0;
    while i < |found|
      invariant i <= |found| && LinksFrom(found, 0) == links + LinksFrom(found, i)
    {
      LinksNext(found, i, links);
      var l := found[i];
      if l.Some? {
        links := links + [l.value];
        i := l.value.close + 1;
      } else {
        i := i + 1;
      }
    }
  }

  lemma LinksNext(found: seq<Option<Link>>, i: nat, links: seq<Link>)
    requires i < |found| && Placed(found)
    ensures match found[i]
            case Some(l) => links + LinksFrom(found, i) == (links + [l]) + LinksFrom(found, l.close + 1)
            case None => LinksFrom(found, i) == LinksFrom(found, i + 1)
  {
  }

  lemma LinksInSource(source: string, prose: string, links: seq<Link>)
    requires Masks(source, prose) && forall l :: l in links ==> WellPlaced(prose, l)
    ensures forall l :: l in links ==> WellPlaced(source, l) && LineOf(source, l.index) == LineOf(prose, l.index)
  {
    forall l | l in links ensures WellPlaced(source, l) && LineOf(source, l.index) == LineOf(prose, l.index) {
      assert WellPlaced(prose, l);
      SameLine(source, prose, l.index);
    }
  }
}
