/** Small building blocks shared by every copy of the engine: an optional value,
    Swift's `Int(_:)` truncation and `ceil`, the 1-based year index of a period,
    and the stable ordering by a key that `sorted(by:)` produces. */
module Common {

  datatype Option<+T> = None | Some(value: T)

  function Max(a: real, b: real): (r: real)
    ensures r >= a && r >= b
    ensures r == a || r == b
  {
    if a >= b then a else b
  }

  /** Swift's `Int(x)` on a finite Double or Decimal: truncation toward zero. */
  function Trunc(x: real): (r: int)
    ensures x >= 0.0 ==> 0 <= r && r as real <= x < r as real + 1.0
    ensures x < 0.0 ==> r <= 0 && r as real - 1.0 < x <= r as real
  {
    if x >= 0.0 then x.Floor else -((-x).Floor)
  }

  /** Foundation's `ceil` on a real value. */
  function Ceil(x: real): (r: int)
    ensures r as real - 1.0 < x <= r as real
  {
    -((-x).Floor)
  }

  /** The year a 1-based period falls in, written as the Swift copies compute it:
      `Int((Double(periodNumber - 1) / paymentsPerYear) + 1)`. */
  function YearIndex(periodNumber: int, paymentsPerYear: int): (year: int)
    requires periodNumber >= 1 && paymentsPerYear >= 1
    ensures year == (periodNumber - 1) / paymentsPerYear + 1
  {
    FloorOfQuotient(periodNumber - 1, paymentsPerYear);
    Trunc((periodNumber - 1) as real / paymentsPerYear as real + 1.0)
  }

  lemma QuotientAtLeast(n: real, d: real, lo: real)
    requires d > 0.0 && lo * d <= n
    ensures lo <= n / d
  {
  }

  lemma QuotientBelow(n: real, d: real, hi: real)
    requires d > 0.0 && n < hi * d
    ensures n / d < hi
  {
  }

  lemma QuotientAtMost(n: real, d: real, hi: real)
    requires d > 0.0 && n <= hi * d
    ensures n / d <= hi
  {
  }

  lemma QuotientAbove(n: real, d: real, lo: real)
    requires d > 0.0 && lo * d < n
    ensures lo < n / d
  {
  }

  lemma FloorOfQuotient(a: int, b: int)
    requires a >= 0 && b >= 1
    ensures (a as real / b as real).Floor == a / b
    ensures (a as real / b as real + 1.0).Floor == a / b + 1
  {
    var q := a / b;
    assert q * b <= a < (q + 1) * b;
    assert q as real * b as real <= a as real;
    QuotientAtLeast(a as real, b as real, q as real);
    assert a as real < (q + 1) as real * b as real;
    QuotientBelow(a as real, b as real, (q + 1) as real);
  }

  /** `Int(ceil(Double(count) / Double(paymentsPerYear)))`: the number of (possibly
      partial) years a schedule of `count` periods spans. */
  function YearCount(count: nat, paymentsPerYear: int): (years: int)
    requires paymentsPerYear >= 1
    ensures years == (count + paymentsPerYear - 1) / paymentsPerYear
  {
    CeilOfQuotient(count, paymentsPerYear);
    Trunc(Ceil(count as real / paymentsPerYear as real) as real)
  }

  lemma CeilOfQuotient(a: nat, b: int)
    requires b >= 1
    ensures Ceil(a as real / b as real) == (a + b - 1) / b
  {
    var q := (a + b - 1) / b;
    assert q * b <= a + b - 1 < (q + 1) * b;
    assert (q - 1) * b < a <= q * b;
    assert (q - 1) as real * b as real < a as real;
    QuotientAbove(a as real, b as real, (q - 1) as real);
    assert a as real <= q as real * b as real;
    QuotientAtMost(a as real, b as real, q as real);
  }

  /** Sequences ordered by an integer key, ascending. */
  ghost predicate SortedBy<T>(s: seq<T>, key: T -> int) {
    forall i, j :: 0 <= i < j < |s| ==> key(s[i]) <= key(s[j])
  }

  /** `sorted(by: { key($0) < key($1) })`, taken as the stable ordering: elements with
      equal keys keep their relative order. */
  function SortByKey<T(==)>(s: seq<T>, key: T -> int): (r: seq<T>)
    ensures multiset(r) == multiset(s) && |r| == |s|
    ensures SortedBy(r, key)
  {
    if s == [] then [] else
    assert s == [s[0]] + s[1..];
    InsertByKey(s[0], SortByKey(s[1..], key), key)
  }

  function InsertByKey<T(==)>(x: T, s: seq<T>, key: T -> int): (r: seq<T>)
    requires SortedBy(s, key)
    ensures multiset(r) == multiset(s) + multiset{x} && |r| == |s| + 1
    ensures SortedBy(r, key)
  {
    if s == [] || key(x) <= key(s[0]) then
      SortedCons(x, s, key);
      [x] + s
    else
      var rest := InsertByKey(x, s[1..], key);
      assert s == [s[0]] + s[1..];
      LowerBound(s[0], x, s[1..], rest, key);
      SortedCons(s[0], rest, key);
      [s[0]] + rest
  }

  lemma SortedCons<T>(lo: T, s: seq<T>, key: T -> int)
    requires SortedBy(s, key)
    requires s == [] || key(lo) <= key(s[0])
    ensures SortedBy([lo] + s, key)
  {
  }

  /** An element whose key is at most every key of `s` and at most `x`'s is at most
      every key of a permutation of `s` with `x` added. */
  lemma LowerBound<T>(lo: T, x: T, s: seq<T>, r: seq<T>, key: T -> int)
    requires multiset(r) == multiset(s) + multiset{x}
    requires key(lo) <= key(x) && forall i :: 0 <= i < |s| ==> key(lo) <= key(s[i])
    ensures forall j :: 0 <= j < |r| ==> key(lo) <= key(r[j])
  {
    forall j | 0 <= j < |r| ensures key(lo) <= key(r[j]) {
      assert r[j] in multiset(r);
      if r[j] != x {
        assert r[j] in multiset(s);
        var i :| 0 <= i < |s| && s[i] == r[j];
      }
    }
  }

  /** `firstIndex(where:)`: the position of the first element that matches. */
  function FirstIndex<T>(s: seq<T>, matches: T -> bool): (r: Option<nat>)
    ensures r.Some? ==> r.value < |s| && matches(s[r.value]) && forall k :: 0 <= k < r.value ==> !matches(s[k])
    ensures r.None? ==> forall k :: 0 <= k < |s| ==> !matches(s[k])
  {
    if s == [] then None
    else if matches(s[0]) then Some(0)
    else match FirstIndex(s[1..], matches)
      case None => None
      case Some(i) => Some(i + 1)
  }

  /** The elements that `keep` accepts, in their order: what `removeAll(where:)`
      leaves with the negated predicate. */
  function Filter<T>(s: seq<T>, keep: T -> bool): (r: seq<T>)
    ensures |r| <= |s|
    ensures forall x :: x in r ==> x in s && keep(x)
    ensures forall i :: 0 <= i < |s| && keep(s[i]) ==> s[i] in r
  {
    if s == [] then []
    else if keep(s[0]) then [s[0]] + Filter(s[1..], keep)
    else Filter(s[1..], keep)
  }

  /** Filtering twice keeps what both filters accept. */
  lemma {:induction false} FilterTwice<T>(s: seq<T>, first: T -> bool, second: T -> bool, both: T -> bool)
    requires forall x :: both(x) == (first(x) && second(x))
    ensures Filter(Filter(s, first), second) == Filter(s, both)
  {
    if s != [] {
      FilterTwice(s[1..], first, second, both);
    }
  }

  /** Filtering distributes over concatenation, so the kept elements stay in
      their order: a kept element before another in `s` is before it in the result. */
  lemma {:induction false} FilterAppend<T>(s: seq<T>, t: seq<T>, keep: T -> bool)
    ensures Filter(s + t, keep) == Filter(s, keep) + Filter(t, keep)
  {
    if s == [] {
      assert s + t == t;
    } else {
      assert (s + t)[1..] == s[1..] + t;
      FilterAppend(s[1..], t, keep);
    }
  }

  /** The positions below `n` that are not among the offsets, ascending. */
  function KeptPositions(n: nat, offsets: set<int>): (r: seq<int>)
    ensures forall k :: 0 <= k < |r| ==> 0 <= r[k] < n && r[k] !in offsets
    ensures forall k, l :: 0 <= k < l < |r| ==> r[k] < r[l]
    ensures forall i :: 0 <= i < n && i !in offsets ==> i in r
  {
    if n == 0 then []
    else if n - 1 in offsets then KeptPositions(n - 1, offsets)
    else KeptPositions(n - 1, offsets) + [n - 1]
  }

  /** `remove(atOffsets:)`: the elements whose positions are not among the offsets,
      in their order; every offset must be a position of the sequence. */
  function RemoveAt<T>(s: seq<T>, offsets: set<int>): (r: seq<T>)
    requires forall o :: o in offsets ==> 0 <= o < |s|
    ensures |r| == |s| - |offsets|
    ensures forall i :: 0 <= i < |s| && i !in offsets ==> s[i] in r
    ensures forall x :: x in r ==> exists i :: 0 <= i < |s| && i !in offsets && s[i] == x
  {
    if s == [] then
      assert forall o :: o !in offsets;
      assert offsets == {};
      []
    else
      var last := |s| - 1;
      var front := RemoveAt(s[..last], offsets - {last});
      if last in offsets then
        assert |offsets - {last}| == |offsets| - 1;
        front
      else
        assert offsets - {last} == offsets;
        front + [s[last]]
  }

  /** `r` holds the elements of `s` at the positions `positions`, in that order. */
  ghost predicate Picks<T>(r: seq<T>, s: seq<T>, positions: seq<int>) {
    |r| == |positions| && forall k :: 0 <= k < |r| ==> 0 <= positions[k] < |s| && r[k] == s[positions[k]]
  }

  lemma PicksWiden<T>(r: seq<T>, s: seq<T>, positions: seq<int>, n: nat)
    requires n <= |s| && Picks(r, s[..n], positions)
    ensures Picks(r, s, positions)
  {
    forall k | 0 <= k < |r| ensures 0 <= positions[k] < |s| && r[k] == s[positions[k]] {
      assert s[..n][positions[k]] == s[positions[k]];
    }
  }

  lemma PicksSnoc<T>(r: seq<T>, s: seq<T>, positions: seq<int>, i: int)
    requires Picks(r, s, positions) && 0 <= i < |s|
    ensures Picks(r + [s[i]], s, positions + [i])
  {
    var r', p' := r + [s[i]], positions + [i];
    forall k | 0 <= k < |r'| ensures 0 <= p'[k] < |s| && r'[k] == s[p'[k]] {
      if k < |r| {
        assert r'[k] == r[k] && p'[k] == positions[k];
      }
    }
  }

  /** `remove(atOffsets:)` keeps the elements at the kept positions, in
      ascending order of position. */
  lemma {:induction false} RemoveAtKeepsOrder<T>(s: seq<T>, offsets: set<int>)
    requires forall o :: o in offsets ==> 0 <= o < |s|
    ensures Picks(RemoveAt(s, offsets), s, KeptPositions(|s|, offsets))
  {
    if s != [] {
      var last := |s| - 1;
      var rest := offsets - {last};
      RemoveAtKeepsOrder(s[..last], rest);
      KeptPositionsBelow(last, offsets, last);
      var front := RemoveAt(s[..last], rest);
      var kept := KeptPositions(last, offsets);
      PicksWiden(front, s, kept, last);
      if last !in offsets {
        PicksSnoc(front, s, kept, last);
      }
    }
  }

  /** Removing an offset at or above `n` does not change the positions kept below `n`. */
  lemma {:induction false} KeptPositionsBelow(n: nat, offsets: set<int>, m: int)
    requires m >= n
    ensures KeptPositions(n, offsets - {m}) == KeptPositions(n, offsets)
  {
    if n > 0 {
      KeptPositionsBelow(n - 1, offsets, m);
    }
  }

  /** `if let i = s.firstIndex(where: matches) { s[i] = x }`: the first match is
      replaced and everything else stays; without a match nothing changes. */
  function ReplaceFirst<T>(s: seq<T>, matches: T -> bool, x: T): (r: seq<T>)
    ensures |r| == |s|
    ensures (forall k :: 0 <= k < |s| ==> !matches(s[k])) ==> r == s
    ensures forall i :: 0 <= i < |s| && matches(s[i]) && (forall k :: 0 <= k < i ==> !matches(s[k])) ==>
      r == s[i := x]
  {
    match FirstIndex(s, matches)
    case None => s
    case Some(i) => s[i := x]
  }
}
