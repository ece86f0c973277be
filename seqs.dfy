/**
 * Array methods the pages use as values: `filter`, a stable `sort` with a
 * comparator, and the swap of two positions.
 */
module Seqs {

  /** `le` orders every pair and is transitive, as a `sort` comparator must. */
  ghost predicate IsTotalPreorder<T(!new)>(le: (T, T) -> bool) {
    && (forall a, b :: le(a, b) || le(b, a))
    && (forall a, b, c :: le(a, b) && le(b, c) ==> le(a, c))
  }

  predicate SortedBy<T>(s: seq<T>, le: (T, T) -> bool) {
    forall i, j :: 0 <= i < j < |s| ==> le(s[i], s[j])
  }

  /** `s.filter(p)`: the elements satisfying `p`, in their original order. */
  function Filter<T(!new)>(s: seq<T>, p: T -> bool): (r: seq<T>)
    ensures |r| <= |s|
    ensures forall x :: x in r <==> x in s && p(x)
  {
    if s == [] then [] else (if p(s[0]) then [s[0]] else []) + Filter(s[1..], p)
  }

  /** Each element kept occurs in the filtered sequence as often as in `s`. */
  lemma {:induction false} FilterCounts<T(!new)>(s: seq<T>, p: T -> bool)
    ensures forall x :: multiset(Filter(s, p))[x] == if p(x) then multiset(s)[x] else 0
  {
    if s != [] {
      FilterCounts(s[1..], p);
      assert s == [s[0]] + s[1..];
    }
  }

  lemma {:induction false} FilterAll<T(!new)>(s: seq<T>, p: T -> bool)
    requires forall x :: x in s ==> p(x)
    ensures Filter(s, p) == s
  {
    if s != [] {
      FilterAll(s[1..], p);
    }
  }

  /** Filtering a concatenation filters each part. */
  lemma {:induction false} FilterAppend<T(!new)>(a: seq<T>, b: seq<T>, p: T -> bool)
    ensures Filter(a + b, p) == Filter(a, p) + Filter(b, p)
  {
    if a == [] {
      assert a + b == b;
    } else {
      var h := if p(a[0]) then [a[0]] else [];
      assert (a + b)[0] == a[0] && (a + b)[1..] == a[1..] + b;
      assert Filter(a + b, p) == h + Filter(a[1..] + b, p);
      FilterAppend(a[1..], b, p);
      assert Filter(a, p) == h + Filter(a[1..], p);
    }
  }

  /** No element occurs twice. */
  predicate NoDuplicates<T(==)>(s: seq<T>) {
    forall x :: x in s ==> multiset(s)[x] <= 1
  }

  /** Filtering out an element the predicate rejects, appended last, leaves the rest's filter. */
  lemma {:induction false} FilterSnoc<T(!new)>(s: seq<T>, x: T, p: T -> bool)
    requires !p(x)
    ensures Filter(s + [x], p) == Filter(s, p)
  {
    if s == [] {
      assert Filter([x], p) == Filter([x][1..], p);
    } else {
      assert (s + [x])[1..] == s[1..] + [x];
      FilterSnoc(s[1..], x, p);
    }
  }

  /** Filtering with a predicate that rejects index `i` and keeps every other index removes exactly `i`. */
  lemma {:induction false} FilterOutOne<T(!new)>(s: seq<T>, i: nat, p: T -> bool)
    requires i < |s| && !p(s[i])
    requires forall j :: 0 <= j < |s| && j != i ==> p(s[j])
    ensures Filter(s, p) == s[..i] + s[i + 1..]
  {
    if i == 0 {
      assert Filter(s, p) == Filter(s[1..], p);
      FilterAll(s[1..], p);
      assert s[..0] + s[1..] == s[1..];
    } else {
      assert Filter(s, p) == [s[0]] + Filter(s[1..], p);
      FilterOutOne(s[1..], i - 1, p);
      SpliceAfterHead(s, i);
    }
  }

  lemma SpliceAfterHead<T>(s: seq<T>, i: nat)
    requires 0 < i < |s|
    ensures [s[0]] + (s[1..][..i - 1] + s[1..][i..]) == s[..i] + s[i + 1..]
  {
    assert s[1..][..i - 1] == s[1..i] && s[1..][i..] == s[i + 1..];
    assert s[..i] == [s[0]] + s[1..i];
  }

  /** Puts `x` in front of the first element it may precede, so earlier equals stay earlier. */
  function Insert<T(!new)>(x: T, s: seq<T>, le: (T, T) -> bool): (r: seq<T>)
    requires IsTotalPreorder(le) && SortedBy(s, le)
    ensures multiset(r) == multiset(s) + multiset{x}
    ensures SortedBy(r, le)
  {
    if s == [] then [x]
    else if le(x, s[0]) then
      HeadBoundsAll(x, s, le);
      ConsSorted(x, s, le);
      [x] + s
    else
      var t := Insert(x, s[1..], le);
      InsertedTailBound(x, s, t, le);
      ConsSorted(s[0], t, le);
      assert s == [s[0]] + s[1..];
      [s[0]] + t
  }

  lemma HeadBoundsAll<T(!new)>(x: T, s: seq<T>, le: (T, T) -> bool)
    requires IsTotalPreorder(le) && SortedBy(s, le) && s != [] && le(x, s[0])
    ensures forall z :: z in s ==> le(x, z)
  {
    forall z | z in s
      ensures le(x, z)
    {
      var j :| 0 <= j < |s| && s[j] == z;
      if j > 0 { assert le(s[0], s[j]); }
    }
  }

  lemma InsertedTailBound<T(!new)>(x: T, s: seq<T>, t: seq<T>, le: (T, T) -> bool)
    requires IsTotalPreorder(le) && SortedBy(s, le) && s != [] && !le(x, s[0])
    requires multiset(t) == multiset(s[1..]) + multiset{x}
    ensures forall z :: z in t ==> le(s[0], z)
  {
    forall z | z in t
      ensures le(s[0], z)
    {
      assert z in multiset(t);
      if z != x {
        assert z in multiset(s[1..]);
        var j :| 0 <= j < |s[1..]| && s[1..][j] == z;
        assert s[j + 1] == z;
      }
    }
  }

  lemma ConsSorted<T(!new)>(y: T, t: seq<T>, le: (T, T) -> bool)
    requires SortedBy(t, le)
    requires forall z :: z in t ==> le(y, z)
    ensures SortedBy([y] + t, le)
  {
    var r := [y] + t;
    forall i, j | 0 <= i < j < |r|
      ensures le(r[i], r[j])
    {
      if i == 0 {
        assert r[j] == t[j - 1] && r[j] in t;
      }
    }
  }

  /** `s.sort(cmp)` with `le(a, b)` meaning `cmp(a, b) <= 0`: sorted, and a permutation of `s`. */
  function SortBy<T(!new)>(s: seq<T>, le: (T, T) -> bool): (r: seq<T>)
    requires IsTotalPreorder(le)
    ensures multiset(r) == multiset(s) && |r| == |s|
    ensures SortedBy(r, le)
  {
    if s == [] then []
    else
      assert s == [s[0]] + s[1..];
      Insert(s[0], SortBy(s[1..], le), le)
  }

  /** `p` selects elements that `le` cannot tell apart: any two of them are ordered both ways. */
  ghost predicate TiedUnder<T(!new)>(p: T -> bool, le: (T, T) -> bool) {
    forall y, z :: p(y) && p(z) ==> le(y, z)
  }

  /** Inserting `x` keeps the order among tied elements, with `x` placed before its equals. */
  lemma {:induction false} InsertKeepsTies<T(!new)>(x: T, s: seq<T>, le: (T, T) -> bool, p: T -> bool)
    requires IsTotalPreorder(le) && SortedBy(s, le) && TiedUnder(p, le)
    ensures Filter(Insert(x, s, le), p) == (if p(x) then [x] else []) + Filter(s, p)
    decreases |s|
  {
    if s == [] {
      assert Insert(x, s, le) == [x];
      assert Filter([x], p) == (if p(x) then [x] else []) + Filter([x][1..], p);
    } else if le(x, s[0]) {
      assert Insert(x, s, le) == [x] + s;
      assert ([x] + s)[1..] == s;
    } else {
      InsertKeepsTies(x, s[1..], le, p);
      assert Insert(x, s, le) == [s[0]] + Insert(x, s[1..], le);
      FilterConsPast(s[0], Insert(x, s[1..], le), x, s[1..], p);
      assert [s[0]] + s[1..] == s;
    }
  }

  /** Moving `x` past a head `y` it is not filtered together with leaves the filter unchanged. */
  lemma FilterConsPast<T(!new)>(y: T, t: seq<T>, x: T, rest: seq<T>, p: T -> bool)
    requires !(p(x) && p(y))
    requires Filter(t, p) == (if p(x) then [x] else []) + Filter(rest, p)
    ensures Filter([y] + t, p) == (if p(x) then [x] else []) + Filter([y] + rest, p)
  {
    assert ([y] + t)[1..] == t;
    assert ([y] + rest)[1..] == rest;
    if p(x) {
      assert !p(y);
    }
  }

  /**
   * `SortBy` is stable, as `Array.prototype.sort` is: elements the comparator
   * cannot tell apart appear in the result in their input order.
   */
  lemma {:induction false} SortByStable<T(!new)>(s: seq<T>, le: (T, T) -> bool, p: T -> bool)
    requires IsTotalPreorder(le) && TiedUnder(p, le)
    ensures Filter(SortBy(s, le), p) == Filter(s, p)
  {
    if s != [] {
      SortByStable(s[1..], le, p);
      InsertKeepsTies(s[0], SortBy(s[1..], le), le, p);
    }
  }

  /** `[s[i], s[j]] = [s[j], s[i]]` on a copy of `s`. */
  function Swap<T>(s: seq<T>, i: nat, j: nat): (r: seq<T>)
    requires i < |s| && j < |s|
    ensures |r| == |s| && r[i] == s[j] && r[j] == s[i]
    ensures forall k :: 0 <= k < |s| && k != i && k != j ==> r[k] == s[k]
    ensures multiset(r) == multiset(s)
  {
    var r := s[i := s[j]][j := s[i]];
    assert multiset(r) == multiset(s) by {
      if i != j {
        assert multiset(s[i := s[j]]) == multiset(s) - multiset{s[i]} + multiset{s[j]};
      }
    }
    r
  }

  /** A sequence holding exactly `a` and `b` is one of their two orders. */
  lemma TwoElements<T>(w: seq<T>, a: T, b: T)
    requires multiset(w) == multiset{a, b}
    ensures w == [a, b] || w == [b, a]
  {
    assert |w| == |multiset(w)| == 2;
    assert w == [w[0], w[1]];
    assert multiset{w[0], w[1]} == multiset{a, b};
  }

  /** Two sequences with the same multiset hold the same elements. */
  lemma SameElements<T>(r: seq<T>, s: seq<T>)
    requires multiset(r) == multiset(s)
    ensures forall x :: x in r <==> x in s
  {
    forall x
      ensures x in r <==> x in s
    {
      assert x in r <==> x in multiset(r);
      assert x in s <==> x in multiset(s);
    }
  }
}
