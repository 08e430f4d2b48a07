/** Shared vocabulary of the analysis engine: optional values, JavaScript's
    rounding, ASCII text helpers, insertion-ordered string-keyed tables (the
    plain objects the source builds) and the stable descending sort that the
    source obtains from `Array.prototype.sort`. */
module Common {

  datatype Option<T> = None | Some(value: T)

  datatype Result<T> = Ok(value: T) | Err(error: string)

  // ---------------------------------------------------------------------------
  // Rounding

  /** `Math.round(num / den)` for a positive denominator: the integer nearest to
      the quotient, halves rounding up (also for negative quotients). */
  function Round(num: int, den: int): (r: int)
    requires den > 0
    ensures 2 * den * r <= 2 * num + den < 2 * den * r + 2 * den
  {
    (2 * num + den) / (2 * den)
  }

  /** Rounding a quotient that lies between two integers stays between them. */
  lemma RoundWithin(num: int, den: int, lo: int, hi: int)
    requires den > 0
    requires den * lo <= num <= den * hi
    ensures lo <= Round(num, den) <= hi
  {
    var r := Round(num, den);
    if r < lo {
      assert 2 * den * r + 2 * den <= 2 * den * lo by {
        assert r + 1 <= lo;
        MulLeft(2 * den, r + 1, lo);
      }
      assert false;
    }
    if r > hi {
      assert 2 * den * hi + 2 * den <= 2 * den * r by {
        assert hi + 1 <= r;
        MulLeft(2 * den, hi + 1, r);
      }
      assert false;
    }
  }

  lemma MulLeft(k: int, a: int, b: int)
    requires k >= 0 && a <= b
    ensures k * a <= k * b
  {
  }

  // ---------------------------------------------------------------------------
  // ASCII text

  /** `toLowerCase` restricted to ASCII letters. */
  function LowerChar(c: char): char
  {
    if 'A' <= c <= 'Z' then (c as int + 32) as char else c
  }

  function Lower(s: string): string
  {
    seq(|s|, i requires 0 <= i < |s| => LowerChar(s[i]))
  }

  /** `String.prototype.includes`: `k` occurs in `s` at some offset. */
  predicate Contains(s: string, k: string)
  {
    exists i | 0 <= i <= |s| - |k| :: OccursAt(s, k, i)
  }

  predicate OccursAt(s: string, k: string, i: int)
  {
    0 <= i && i + |k| <= |s| && s[i..i + |k|] == k
  }

  lemma NothingInEmpty(k: string)
    requires |k| > 0
    ensures !Contains("", k)
  {
  }

  /** Whitespace recognised by `trim` and `parseInt` (ASCII part only). */
  predicate IsSpace(c: char)
  {
    c == ' ' || c == '\t' || c == '\n' || c == '\r' || c == '\U{0B}' || c == '\U{0C}'
  }

  predicate IsDigit(c: char)
  {
    '0' <= c <= '9'
  }

  function DigitChar(d: int): char
    requires 0 <= d < 10
  {
    ('0' as int + d) as char
  }

  /** Decimal rendering of an integer, as template literals print it. */
  function NatToString(n: nat): (s: string)
    ensures |s| > 0
    ensures forall i :: 0 <= i < |s| ==> IsDigit(s[i])
    ensures s[0] == '0' ==> n == 0
    decreases n
  {
    if n < 10 then [DigitChar(n)] else NatToString(n / 10) + [DigitChar(n % 10)]
  }

  function IntToString(n: int): string
  {
    if n < 0 then "-" + NatToString(-n) else NatToString(n)
  }

  /** `Array.prototype.join`. */
  function Join(parts: seq<string>, sep: string): string
  {
    if parts == [] then ""
    else if |parts| == 1 then parts[0]
    else parts[0] + sep + Join(parts[1..], sep)
  }

  function Min(a: int, b: int): int
  {
    if a <= b then a else b
  }

  // ---------------------------------------------------------------------------
  // Sequences

  predicate Distinct<T(==)>(s: seq<T>)
  {
    forall i, j :: 0 <= i < j < |s| ==> s[i] != s[j]
  }

  /** `[...new Set(s)]`: first occurrences, in order. */
  function Dedup(s: seq<string>): (r: seq<string>)
    ensures Distinct(r)
    ensures forall x :: x in r <==> x in s
    ensures |r| <= |s|
  {
    if s == [] then []
    else
      var d := Dedup(s[..|s| - 1]);
      var x := s[|s| - 1];
      assert forall y :: y in s <==> y in s[..|s| - 1] || y == x by {
        assert s == s[..|s| - 1] + [x];
      }
      if x in d then d else d + [x]
  }

  lemma {:induction false} DedupOfDistinct(s: seq<string>)
    requires Distinct(s)
    ensures Dedup(s) == s
  {
    if s != [] {
      var p := s[..|s| - 1];
      assert Distinct(p);
      DedupOfDistinct(p);
      assert s[|s| - 1] !in p;
      assert s == p + [s[|s| - 1]];
    }
  }

  function Reverse<T>(s: seq<T>): (r: seq<T>)
    ensures |r| == |s|
  {
    if s == [] then [] else Reverse(s[1..]) + [s[0]]
  }

  lemma {:induction false} ReverseAt<T>(s: seq<T>, i: nat)
    requires i < |s|
    ensures Reverse(s)[i] == s[|s| - 1 - i]
  {
    if i < |s| - 1 {
      ReverseAt(s[1..], i);
    }
  }

  // ---------------------------------------------------------------------------
  // Insertion-ordered tables (JavaScript plain objects with string keys)

  type Table = seq<(string, int)>

  function Keys(m: Table): seq<string>
  {
    seq(|m|, i requires 0 <= i < |m| => m[i].0)
  }

  lemma KeysCons(x: (string, int), m: Table)
    ensures Keys([x] + m) == [x.0] + Keys(m)
  {
  }

  lemma KeysSnoc(m: Table, x: (string, int))
    ensures Keys(m + [x]) == Keys(m) + [x.0]
  {
  }

  predicate DistinctKeys(m: Table)
  {
    forall i, j :: 0 <= i < j < |m| ==> m[i].0 != m[j].0
  }

  /** `obj[k] || 0`: the value of the first entry with key `k`, or 0. */
  function Get(m: Table, k: string): int
  {
    if m == [] then 0 else if m[0].0 == k then m[0].1 else Get(m[1..], k)
  }

  lemma {:induction false} GetAt(m: Table, i: nat)
    requires DistinctKeys(m) && i < |m|
    ensures Get(m, m[i].0) == m[i].1
  {
    if i > 0 {
      GetAt(m[1..], i - 1);
    }
  }

  lemma {:induction false} GetMissing(m: Table, k: string)
    requires k !in Keys(m)
    ensures Get(m, k) == 0
  {
    if m != [] {
      assert Keys(m) == [m[0].0] + Keys(m[1..]);
      GetMissing(m[1..], k);
    }
  }

  /** `acc[k] = (acc[k] || 0) + v`: an existing key keeps its place and grows
      by `v`, a new key is appended at the end. */
  function Add(m: Table, k: string, v: int): (r: Table)
    ensures Keys(r) == if k in Keys(m) then Keys(m) else Keys(m) + [k]
    ensures forall j :: Get(r, j) == Get(m, j) + (if j == k then v else 0)
  {
    if m == [] then [(k, v)]
    else if m[0].0 == k then
      assert Keys(m)[0] == k;
      assert Keys([(k, m[0].1 + v)] + m[1..]) == Keys(m);
      [(k, m[0].1 + v)] + m[1..]
    else
      var t := Add(m[1..], k, v);
      KeysCons(m[0], m[1..]);
      KeysCons(m[0], t);
      assert m == [m[0]] + m[1..];
      [m[0]] + t
  }

  lemma AddKeepsDistinct(m: Table, k: string, v: int)
    requires DistinctKeys(m)
    ensures DistinctKeys(Add(m, k, v))
  {
    var r := Add(m, k, v);
    var ks := Keys(r);
    if k in Keys(m) {
      assert forall i :: 0 <= i < |r| ==> r[i].0 == Keys(m)[i];
    } else {
      assert forall i :: 0 <= i < |r| ==> r[i].0 == ks[i];
      assert forall i :: 0 <= i < |m| ==> ks[i] == m[i].0;
    }
  }

  // ---------------------------------------------------------------------------
  // Stable descending sort, as `entries.sort((a, b) => b[1] - a[1])`

  predicate SortedDesc(s: Table)
  {
    forall i, j :: 0 <= i < j < |s| ==> s[i].1 >= s[j].1
  }

  /** The entries whose value is `c`, in their order. */
  function WithValue(s: Table, c: int): Table
  {
    if s == [] then []
    else (if s[0].1 == c then [s[0]] else []) + WithValue(s[1..], c)
  }

  /** Put `x` in front of the first entry whose value does not exceed its own,
      so that it precedes the later entries it ties with. */
  function InsertDesc(x: (string, int), s: Table): (r: Table)
    ensures |r| == |s| + 1
  {
    if s == [] then [x]
    else if s[0].1 <= x.1 then [x] + s
    else [s[0]] + InsertDesc(x, s[1..])
  }

  lemma {:induction false} InsertDescSorted(x: (string, int), s: Table)
    requires SortedDesc(s)
    ensures SortedDesc(InsertDesc(x, s))
    ensures InsertDesc(x, s)[0].1 == if s != [] && s[0].1 > x.1 then s[0].1 else x.1
  {
    if s != [] && s[0].1 > x.1 {
      InsertDescSorted(x, s[1..]);
    }
  }

  lemma {:induction false} InsertDescPerm(x: (string, int), s: Table)
    ensures multiset(InsertDesc(x, s)) == multiset(s) + multiset{x}
  {
    if s != [] && s[0].1 > x.1 {
      InsertDescPerm(x, s[1..]);
      assert s == [s[0]] + s[1..];
    }
  }

  lemma {:induction false} InsertDescStable(x: (string, int), s: Table, c: int)
    ensures WithValue(InsertDesc(x, s), c) == if x.1 == c then [x] + WithValue(s, c) else WithValue(s, c)
  {
    if s == [] {
    } else if s[0].1 <= x.1 {
      assert ([x] + s)[1..] == s;
    } else {
      var t := InsertDesc(x, s[1..]);
      InsertDescStable(x, s[1..], c);
      assert ([s[0]] + t)[1..] == t;
    }
  }

  /** Stable sort by descending value. */
  function SortDesc(s: Table): (r: Table)
    ensures |r| == |s|
  {
    if s == [] then [] else InsertDesc(s[0], SortDesc(s[1..]))
  }

  /** The sort orders by value, loses and adds nothing, and keeps the input
      order among entries of equal value. */
  lemma SortDescCorrect(s: Table)
    ensures SortedDesc(SortDesc(s))
    ensures multiset(SortDesc(s)) == multiset(s)
    ensures forall c :: WithValue(SortDesc(s), c) == WithValue(s, c)
  {
    SortDescSorted(s);
    SortDescPerm(s);
    forall c ensures WithValue(SortDesc(s), c) == WithValue(s, c) {
      SortDescStable(s, c);
    }
  }

  lemma {:induction false} SortDescSorted(s: Table)
    ensures SortedDesc(SortDesc(s))
  {
    if s != [] {
      SortDescSorted(s[1..]);
      InsertDescSorted(s[0], SortDesc(s[1..]));
    }
  }

  lemma {:induction false} SortDescPerm(s: Table)
    ensures multiset(SortDesc(s)) == multiset(s)
  {
    if s != [] {
      SortDescPerm(s[1..]);
      InsertDescPerm(s[0], SortDesc(s[1..]));
      assert s == [s[0]] + s[1..];
    }
  }

  lemma {:induction false} SortDescStable(s: Table, c: int)
    ensures WithValue(SortDesc(s), c) == WithValue(s, c)
  {
    if s != [] {
      SortDescStable(s[1..], c);
      InsertDescStable(s[0], SortDesc(s[1..]), c);
    }
  }

  lemma {:induction false} InsertDescKeys(x: (string, int), s: Table)
    ensures forall k :: k in Keys(InsertDesc(x, s)) <==> k == x.0 || k in Keys(s)
    ensures DistinctKeys(s) && x.0 !in Keys(s) ==> DistinctKeys(InsertDesc(x, s))
  {
    if s == [] {
      assert Keys([x]) == [x.0];
    } else if s[0].1 <= x.1 {
      KeysCons(x, s);
      assert forall j :: 0 <= j < |s| ==> Keys(s)[j] == s[j].0;
    } else {
      var t := InsertDesc(x, s[1..]);
      InsertDescKeys(x, s[1..]);
      assert s == [s[0]] + s[1..];
      KeysCons(s[0], s[1..]);
      KeysCons(s[0], t);
      if DistinctKeys(s) && x.0 !in Keys(s) {
        assert forall j :: 0 <= j < |t| ==> Keys(t)[j] == t[j].0;
        assert s[0].0 !in Keys(t);
        assert forall j :: 0 <= j < |t| ==> t[j].0 != s[0].0;
      }
    }
  }

  /** Sorting keeps the key set, and distinct keys stay distinct. */
  lemma {:induction false} SortDescKeys(s: Table)
    ensures forall k :: k in Keys(SortDesc(s)) <==> k in Keys(s)
    ensures DistinctKeys(s) ==> DistinctKeys(SortDesc(s))
  {
    if s != [] {
      SortDescKeys(s[1..]);
      InsertDescKeys(s[0], SortDesc(s[1..]));
      assert s == [s[0]] + s[1..];
      KeysCons(s[0], s[1..]);
    }
  }

  /** The first entry of the sorted table has the largest value, and it is the
      first entry of the input that has that value. */
  lemma SortDescHead(s: Table)
    requires s != []
    ensures SortDesc(s)[0] in s
    ensures forall i :: 0 <= i < |s| ==> s[i].1 <= SortDesc(s)[0].1
    ensures exists i :: 0 <= i < |s| && s[i] == SortDesc(s)[0] &&
              forall j :: 0 <= j < i ==> s[j].1 != s[i].1
  {
    var r := SortDesc(s);
    SortDescCorrect(s);
    assert r[0] in multiset(r);
    forall i | 0 <= i < |s| ensures s[i].1 <= r[0].1 {
      assert s[i] in multiset(s);
      var j :| 0 <= j < |r| && r[j] == s[i];
      if j > 0 { assert r[0].1 >= r[j].1; }
    }
    var c := r[0].1;
    assert WithValue(r, c) == [r[0]] + WithValue(r[1..], c);
    var i := FirstWithValue(s, c);
  }

  /** The head of `WithValue(s, c)` is the first entry of `s` with value `c`. */
  lemma {:induction false} FirstWithValue(s: Table, c: int) returns (i: nat)
    requires WithValue(s, c) != []
    ensures i < |s| && s[i] == WithValue(s, c)[0] && s[i].1 == c
    ensures forall j :: 0 <= j < i ==> s[j].1 != c
  {
    if s[0].1 == c {
      i := 0;
    } else {
      var k := FirstWithValue(s[1..], c);
      i := k + 1;
    }
  }
}
