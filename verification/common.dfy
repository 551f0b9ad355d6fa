/** Values shared by every page model: optional values, the rounding the pages
    use, the non-finite outcomes of a division, and order-preserving filtering. */
module Common {

  /** A value that may be absent: the pages' `null`/`undefined`. */
  datatype Option<+T> = None | Some(value: T)

  /** `Math.round` on a finite number: round half up. */
  function Round(x: real): (r: int)
    ensures r as real <= x + 0.5 < r as real + 1.0
  {
    (x + 0.5).Floor
  }

  /** Rounding is monotone. */
  lemma RoundMonotone(x: real, y: real)
    requires x <= y
    ensures Round(x) <= Round(y)
  {
  }

  /** Rounding a number that lies between two integers stays between them. */
  lemma RoundBetween(x: real, lo: int, hi: int)
    requires lo as real <= x <= hi as real
    ensures lo <= Round(x) <= hi
  {
  }

  /** Rounding an integer gives it back. */
  lemma RoundInteger(n: int)
    ensures Round(n as real) == n
  {
  }

  /** The outcome of a floating-point division: a finite number, or one of
      the non-finite values a division by zero produces. */
  datatype Extended = Finite(value: real) | PosInfinity | NegInfinity | NotANumber

  /** `a / b` as the pages compute it: `x / 0` is +Infinity for a positive
      `x`, -Infinity for a negative one and NaN for zero. */
  function Divide(a: real, b: real): (r: Extended)
    ensures r.Finite? <==> b != 0.0
    ensures r.Finite? ==> r.value * b == a
    ensures r == PosInfinity <==> b == 0.0 && a > 0.0
    ensures r == NegInfinity <==> b == 0.0 && a < 0.0
  {
    if b != 0.0 then Finite(a / b)
    else if a > 0.0 then PosInfinity
    else if a < 0.0 then NegInfinity
    else NotANumber
  }

  /** `e * k` for a positive finite `k` (the sign of a non-finite value is kept). */
  function Scale(e: Extended, k: real): (r: Extended)
    requires k > 0.0
    ensures e.Finite? <==> r.Finite?
    ensures e.Finite? ==> r.value == e.value * k
    ensures !e.Finite? ==> r == e
  {
    match e
    case Finite(v) => Finite(v * k)
    case _ => e
  }

  /** `e + c` for a finite `c`. */
  function Shift(e: Extended, c: real): (r: Extended)
    ensures e.Finite? ==> r == Finite(e.value + c)
    ensures !e.Finite? ==> r == e
  {
    match e
    case Finite(v) => Finite(v + c)
    case _ => e
  }

  /** `c - e` for a finite `c`: infinities change sign, NaN stays NaN. */
  function SubtractFrom(c: real, e: Extended): (r: Extended)
    ensures e.Finite? ==> r == Finite(c - e.value)
    ensures e == PosInfinity <==> r == NegInfinity
    ensures e == NegInfinity <==> r == PosInfinity
    ensures e == NotANumber <==> r == NotANumber
  {
    match e
    case Finite(v) => Finite(c - v)
    case PosInfinity => NegInfinity
    case NegInfinity => PosInfinity
    case NotANumber => NotANumber
  }

  /** `Math.round(e)`: non-finite values round to themselves. */
  function RoundExtended(e: Extended): (r: Extended)
    ensures e.Finite? ==> r == Finite(Round(e.value) as real)
    ensures !e.Finite? ==> r == e
  {
    match e
    case Finite(v) => Finite(Round(v) as real)
    case _ => e
  }

  /** `e > c` as IEEE comparison decides it (NaN compares false). */
  predicate Above(e: Extended, c: real) {
    match e
    case Finite(v) => v > c
    case PosInfinity => true
    case _ => false
  }

  /** `e < c` as IEEE comparison decides it. */
  predicate Below(e: Extended, c: real) {
    match e
    case Finite(v) => v < c
    case NegInfinity => true
    case _ => false
  }

  /** `e >= c` as IEEE comparison decides it. */
  predicate AtLeast(e: Extended, c: real) {
    match e
    case Finite(v) => v >= c
    case PosInfinity => true
    case _ => false
  }

  /** `Array.prototype.filter`: the elements satisfying `p`, in order. */
  function Filter<T(==,!new)>(s: seq<T>, p: T -> bool): (r: seq<T>)
    ensures |r| <= |s|
    ensures forall x :: x in r <==> x in s && p(x)
    ensures IsSubsequence(r, s)
  {
    if |s| == 0 then []
    else if p(s[0]) then [s[0]] + Filter(s[1..], p)
    else Filter(s[1..], p)
  }

  /** `r` is obtained from `s` by deleting elements (order preserved). */
  predicate IsSubsequence<T(==)>(r: seq<T>, s: seq<T>)
    decreases |s|
  {
    if |r| == 0 then true
    else if |s| == 0 then false
    else if r[0] == s[0] then IsSubsequence(r[1..], s[1..])
    else IsSubsequence(r, s[1..])
  }

  /** Filtering with a condition that holds everywhere gives the sequence back. */
  lemma {:induction false} FilterAll<T(!new)>(s: seq<T>, p: T -> bool)
    requires forall x :: x in s ==> p(x)
    ensures Filter(s, p) == s
  {
    if |s| > 0 {
      FilterAll(s[1..], p);
    }
  }

  /** Filtering keeps the multiplicity of every element that passes, and
      drops every element that does not. */
  lemma {:induction false} FilterCount<T(!new)>(s: seq<T>, p: T -> bool, x: T)
    ensures multiset(Filter(s, p))[x] == if p(x) then multiset(s)[x] else 0
  {
    if |s| > 0 {
      FilterCount(s[1..], p, x);
      assert s == [s[0]] + s[1..];
      assert multiset(s) == multiset{s[0]} + multiset(s[1..]);
      if p(s[0]) {
        assert multiset(Filter(s, p)) == multiset{s[0]} + multiset(Filter(s[1..], p));
      }
    }
  }

  /** Sum of a sequence of reals, as `reduce((acc, x) => acc + x, 0)`. */
  function Sum(s: seq<real>): real {
    if |s| == 0 then 0.0 else s[0] + Sum(s[1..])
  }

  /** `s` is in non-decreasing order of `key`. */
  predicate SortedByKey<T>(s: seq<T>, key: T -> real) {
    forall i, j :: 0 <= i < j < |s| ==> key(s[i]) <= key(s[j])
  }

  /** Insert `x` before the first element whose key is not smaller, so that
      `x` stays ahead of the elements with an equal key. */
  function InsertByKey<T>(x: T, s: seq<T>, key: T -> real): (r: seq<T>)
    ensures multiset(r) == multiset(s) + multiset{x}
    ensures |r| == |s| + 1
  {
    if |s| == 0 then [x]
    else if key(x) <= key(s[0]) then [x] + s
    else
      assert s == [s[0]] + s[1..];
      [s[0]] + InsertByKey(x, s[1..], key)
  }

  /** Inserting into a sorted sequence keeps it sorted. */
  lemma {:induction false} InsertKeepsSorted<T>(x: T, s: seq<T>, key: T -> real)
    requires SortedByKey(s, key)
    ensures SortedByKey(InsertByKey(x, s, key), key)
  {
    if |s| > 0 && key(x) > key(s[0]) {
      var rest := InsertByKey(x, s[1..], key);
      InsertKeepsSorted(x, s[1..], key);
      forall j | 0 <= j < |rest|
        ensures key(s[0]) <= key(rest[j])
      {
        assert rest[j] in multiset(rest);
        if rest[j] != x {
          assert rest[j] in multiset(s[1..]);
          var k :| 0 <= k < |s[1..]| && s[1..][k] == rest[j];
          assert s[k + 1] == rest[j];
        }
      }
    }
  }

  /** A stable sort by `key` (insertion sort): what `Array.prototype.sort`
      produces with a consistent comparator comparing the keys. */
  function SortByKey<T>(s: seq<T>, key: T -> real): (r: seq<T>)
    ensures multiset(r) == multiset(s) && |r| == |s|
    ensures SortedByKey(r, key)
  {
    if |s| == 0 then []
    else
      var tail := SortByKey(s[1..], key);
      InsertKeepsSorted(s[0], tail, key);
      assert multiset(s) == multiset(s[1..]) + multiset{s[0]} by {
        assert s == [s[0]] + s[1..];
      }
      InsertByKey(s[0], tail, key)
  }

  /** The first `k` elements of the sorted sequence are drawn from the input
      and no element left out has a smaller key than one taken. */
  lemma SortedPrefix<T>(s: seq<T>, key: T -> real, k: nat)
    requires k <= |s|
    ensures var sorted := SortByKey(s, key);
      && multiset(sorted[..k]) <= multiset(s)
      && (forall x :: x in sorted[..k] ==> x in s)
      && (forall x, y :: x in sorted[..k] && y in multiset(s) - multiset(sorted[..k]) ==> key(x) <= key(y))
  {
    var sorted := SortByKey(s, key);
    SplitSorted(sorted, key, k);
    forall x | x in sorted[..k] ensures x in s {
      assert x in multiset(sorted);
    }
  }

  /** Splitting a sorted sequence: the two parts make up the whole, and every
      key of the first part is at most every key of the second. */
  lemma SplitSorted<T>(sorted: seq<T>, key: T -> real, k: nat)
    requires k <= |sorted| && SortedByKey(sorted, key)
    ensures multiset(sorted) == multiset(sorted[..k]) + multiset(sorted[k..])
    ensures forall x, y :: x in sorted[..k] && y in multiset(sorted) - multiset(sorted[..k]) ==> key(x) <= key(y)
  {
    var chosen, rest := sorted[..k], sorted[k..];
    assert sorted == chosen + rest;
    forall x, y | x in chosen && y in multiset(sorted) - multiset(chosen)
      ensures key(x) <= key(y)
    {
      assert y in multiset(rest);
      var i :| 0 <= i < |chosen| && chosen[i] == x;
      var j :| 0 <= j < |rest| && rest[j] == y;
      assert sorted[i] == x && sorted[k + j] == y;
    }
  }

  /** `Array.prototype.find`: the first element satisfying `p`, if any. */
  function Find<T(==)>(s: seq<T>, p: T -> bool): (r: Option<T>)
    ensures r.Some? ==> r.value in s && p(r.value)
    ensures r.None? <==> forall x :: x in s ==> !p(x)
  {
    if |s| == 0 then None
    else if p(s[0]) then Some(s[0])
    else Find(s[1..], p)
  }

  /** `find` returns the element at the first index where `p` holds. */
  lemma {:induction false} FindIsFirst<T>(s: seq<T>, p: T -> bool, i: nat)
    requires i < |s| && p(s[i])
    requires forall j :: 0 <= j < i ==> !p(s[j])
    ensures Find(s, p) == Some(s[i])
  {
    if i > 0 {
      FindIsFirst(s[1..], p, i - 1);
    }
  }
}
