/** Shared vocabulary: optional values, results, and the meaning of SQL's `ORDER BY ... LIMIT`. */
module Prelude {
  datatype Option<+T> = None | Some(value: T)

  datatype Result<+T, +E> = Ok(value: T) | Err(error: E)

  /** A two-column sort key and its lexicographic order. */
  datatype SortKey = SortKey(major: int, minor: int)

  predicate KeyLe(a: SortKey, b: SortKey) {
    a.major < b.major || (a.major == b.major && a.minor <= b.minor)
  }

  /** `chosen` is a possible answer of `SELECT ... FROM rows ORDER BY key LIMIT limit`:
      as many rows as the limit allows, and no row left out sorts strictly before a chosen one. */
  ghost predicate IsFirstBatch<T(!new)>(rows: map<T, SortKey>, limit: nat, chosen: set<T>) {
    && chosen <= rows.Keys
    && |chosen| == (if |rows| < limit then |rows| else limit)
    && forall x, y :: x in chosen && y in rows.Keys - chosen ==> KeyLe(rows[x], rows[y])
  }

  predicate Distinct<T(==)>(s: seq<T>) {
    forall i, j :: 0 <= i < j < |s| ==> s[i] != s[j]
  }

  /** The first place of `x`. */
  function IndexOf<T(==)>(s: seq<T>, x: T): (i: nat)
    requires x in s
    ensures i < |s| && s[i] == x && forall h :: 0 <= h < i ==> s[h] != x
  {
    if s[0] == x then 0 else 1 + IndexOf(s[1..], x)
  }

  lemma Assoc<T>(a: seq<T>, b: seq<T>, c: seq<T>)
    ensures (a + b) + c == a + (b + c)
  {
  }

  lemma SubsetSize<T>(a: set<T>, b: set<T>)
    requires a <= b
    ensures |a| <= |b|
  {
    assert |b - a| == |b| - |a|;
  }

  /** A batch that does not reach its limit is all there is. */
  lemma WholeBatch<T(!new)>(rows: map<T, SortKey>, chosen: set<T>)
    requires chosen <= rows.Keys && |chosen| == |rows|
    ensures chosen == rows.Keys
  {
    var rest := rows.Keys - chosen;
    assert |rest| == |rows.Keys| - |chosen|;
    assert rest == {} && rows.Keys == chosen + rest;
  }

  /** The row that sorts first, by a scan. */
  method FirstRow<T(!new, ==)>(rows: map<T, SortKey>) returns (first: T)
    requires |rows| > 0
    ensures first in rows
    ensures forall y :: y in rows ==> KeyLe(rows[first], rows[y])
  {
    first :| first in rows;
    var rest := rows.Keys - {first};
    while rest != {}
      invariant rest <= rows.Keys && first in rows
      invariant forall y :: y in rows.Keys - rest ==> KeyLe(rows[first], rows[y])
      decreases rest
    {
      var y :| y in rest;
      if !KeyLe(rows[first], rows[y]) {
        first := y;
      }
      rest := rest - {y};
    }
  }

  /** Selects one admissible batch, taking the first remaining row until the limit is reached. */
  method FirstBatch<T(!new, ==)>(rows: map<T, SortKey>, limit: nat) returns (chosen: set<T>)
    ensures IsFirstBatch(rows, limit, chosen)
  {
    chosen := {};
    var left := rows;
    while |chosen| < limit && |left| > 0
      invariant chosen <= rows.Keys
      invariant left == rows - chosen
      invariant |chosen| <= limit && |left| + |chosen| == |rows|
      invariant forall x, y :: x in chosen && y in rows.Keys - chosen ==> KeyLe(rows[x], rows[y])
      decreases |left|
    {
      var first := FirstRow(left);
      assert left.Keys == rows.Keys - chosen;
      assert (left - {first}).Keys == left.Keys - {first};
      chosen, left := chosen + {first}, left - {first};
      assert left == rows - chosen;
    }
  }

  /** `join("\n")` */
  function JoinLines(lines: seq<string>): string {
    if lines == [] then "" else if |lines| == 1 then lines[0] else lines[0] + "\n" + JoinLines(lines[1..])
  }

  /** `split("\n")` */
  function SplitLines(s: string): (r: seq<string>)
    ensures r != [] && forall k :: 0 <= k < |r| ==> '\n' !in r[k]
  {
    if s == "" then [""]
    else
      var rest := SplitLines(s[1..]);
      if s[0] == '\n' then [""] + rest else [[s[0]] + rest[0]] + rest[1..]
  }

  lemma {:induction false} JoinSplit(s: string)
    ensures JoinLines(SplitLines(s)) == s
  {
    if s != "" {
      JoinSplit(s[1..]);
      var rest := SplitLines(s[1..]);
      if s[0] == '\n' {
        assert SplitLines(s)[1..] == rest;
      } else if |rest| > 1 {
        assert SplitLines(s)[1..] == rest[1..];
      }
    }
  }
}
