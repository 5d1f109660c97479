/** Sequence operations the shop code uses through `Array.prototype`: `filter`, and a
    stable `sort` with a comparator. */
module Seqs {

  /** `s.filter(p)`: the elements that satisfy `p`, in their original order. */
  function Filter<T>(s: seq<T>, p: T -> bool): (r: seq<T>)
    ensures |r| <= |s|
    ensures forall i :: 0 <= i < |r| ==> p(r[i])
    ensures forall i :: 0 <= i < |s| && p(s[i]) ==> s[i] in r
    ensures multiset(r) <= multiset(s)
    ensures forall x | x in s :: multiset(r)[x] == if p(x) then multiset(s)[x] else 0
    decreases |s|
  {
    if s == [] then []
    else
      var rest := Filter(s[1..], p);
      FilterStep(s, p, rest);
      if p(s[0]) then [s[0]] + rest else rest
  }

  lemma FilterStep<T>(s: seq<T>, p: T -> bool, rest: seq<T>)
    requires s != []
    requires |rest| <= |s| - 1
    requires forall i :: 0 <= i < |rest| ==> p(rest[i])
    requires forall i :: 1 <= i < |s| && p(s[i]) ==> s[i] in rest
    requires multiset(rest) <= multiset(s[1..])
    requires forall x | x in s[1..] :: multiset(rest)[x] == if p(x) then multiset(s[1..])[x] else 0
    ensures var r := if p(s[0]) then [s[0]] + rest else rest;
      |r| <= |s| && (forall i :: 0 <= i < |r| ==> p(r[i]))
      && (forall i :: 0 <= i < |s| && p(s[i]) ==> s[i] in r)
      && multiset(r) <= multiset(s)
      && (forall x | x in s :: multiset(r)[x] == if p(x) then multiset(s)[x] else 0)
  {
    assert s == [s[0]] + s[1..];
    assert multiset(s) == multiset{s[0]} + multiset(s[1..]);
    if p(s[0]) {
      var r := [s[0]] + rest;
      assert multiset(r) == multiset{s[0]} + multiset(rest);
      assert forall i :: 1 <= i < |r| ==> r[i] == rest[i - 1];
    }
  }

  /** `a` is `b` with some elements left out, the rest in the same order. */
  predicate IsSubseq<T(==)>(a: seq<T>, b: seq<T>)
    decreases |b|
  {
    if a == [] then true
    else if b == [] then false
    else if a[0] == b[0] && IsSubseq(a[1..], b[1..]) then true
    else IsSubseq(a, b[1..])
  }

  /** What the filter keeps comes from the sequence and passes the test. */
  lemma FilterMember<T>(s: seq<T>, p: T -> bool, x: T)
    requires x in Filter(s, p)
    ensures x in s && p(x)
  {
    var r := Filter(s, p);
    assert x in multiset(r);
    assert x in multiset(s);
    var i :| 0 <= i < |r| && r[i] == x;
  }

  lemma {:induction false} FilterIsSubseq<T>(s: seq<T>, p: T -> bool)
    ensures IsSubseq(Filter(s, p), s)
  {
    if s != [] {
      FilterIsSubseq(s[1..], p);
      var rest := Filter(s[1..], p);
      if p(s[0]) {
        assert Filter(s, p) == [s[0]] + rest;
        assert (([s[0]] + rest)[1..]) == rest;
      } else {
        assert Filter(s, p) == rest;
        if rest != [] {
          assert IsSubseq(rest, s[1..]);
        }
      }
    }
  }

  /** Filtering with a predicate that every element satisfies changes nothing. */
  lemma {:induction false} FilterAll<T>(s: seq<T>, p: T -> bool)
    requires forall i :: 0 <= i < |s| ==> p(s[i])
    ensures Filter(s, p) == s
  {
    if s != [] {
      FilterAll(s[1..], p);
    }
  }

  /** Filtering with a predicate that no element satisfies leaves nothing. */
  lemma {:induction false} FilterNone<T>(s: seq<T>, p: T -> bool)
    requires forall i :: 0 <= i < |s| ==> !p(s[i])
    ensures Filter(s, p) == []
  {
    if s != [] {
      FilterNone(s[1..], p);
    }
  }

  /** Filtering a list with one more element at the end filters the rest as before. */
  lemma {:induction false} FilterAppend<T>(s: seq<T>, x: T, p: T -> bool)
    ensures Filter(s + [x], p) == Filter(s, p) + (if p(x) then [x] else [])
  {
    if s == [] {
      assert [] + [x] == [x];
      assert [x][1..] == [];
    } else {
      assert (s + [x])[1..] == s[1..] + [x];
      FilterAppend(s[1..], x, p);
    }
  }

  /** `s.map(f)` */
  function Map<T, U>(s: seq<T>, f: T -> U): (r: seq<U>)
    ensures |r| == |s|
    ensures forall i :: 0 <= i < |s| ==> r[i] == f(s[i])
  {
    seq(|s|, i requires 0 <= i < |s| => f(s[i]))
  }

  /** One more element mapped and filtered: what a loop pushing `f(x)` for every `x` that
      satisfies `p` adds in one step. */
  lemma FilterMapStep<T, U>(s: seq<T>, i: nat, p: T -> bool, f: T -> U)
    requires i < |s|
    ensures Map(Filter(s[..i + 1], p), f) == Map(Filter(s[..i], p), f) + (if p(s[i]) then [f(s[i])] else [])
  {
    assert s[..i + 1] == s[..i] + [s[i]];
    FilterAppend(s[..i], s[i], p);
  }

  /** `le` orders every pair of elements of `s` one way or the other. */
  predicate TotalOn<T>(le: (T, T) -> bool, s: seq<T>) {
    forall i, j :: 0 <= i < |s| && 0 <= j < |s| ==> le(s[i], s[j]) || le(s[j], s[i])
  }

  /** `le` is transitive on the elements of `s`. */
  predicate TransitiveOn<T>(le: (T, T) -> bool, s: seq<T>) {
    forall i, j, k :: 0 <= i < |s| && 0 <= j < |s| && 0 <= k < |s| && le(s[i], s[j]) && le(s[j], s[k])
      ==> le(s[i], s[k])
  }

  /** Every element is `le` every later one. */
  predicate SortedBy<T>(s: seq<T>, le: (T, T) -> bool) {
    forall i, j :: 0 <= i < j < |s| ==> le(s[i], s[j])
  }

  /** Inserts `x` in front of the first element it is `le` to. */
  function Insert<T>(x: T, ys: seq<T>, le: (T, T) -> bool): (r: seq<T>)
    ensures |r| == |ys| + 1
    ensures multiset(r) == multiset(ys) + multiset{x}
  {
    if ys == [] || le(x, ys[0]) then [x] + ys
    else
      assert ys == [ys[0]] + ys[1..];
      [ys[0]] + Insert(x, ys[1..], le)
  }

  /** A stable sort by the comparator `le` (`le(a, b)` when `compare(a, b) <= 0`): an element
      ends up behind the earlier elements it is not strictly below. */
  function SortBy<T>(s: seq<T>, le: (T, T) -> bool): (r: seq<T>)
    ensures |r| == |s|
    ensures multiset(r) == multiset(s)
  {
    if s == [] then []
    else
      assert s == [s[0]] + s[1..];
      Insert(s[0], SortBy(s[1..], le), le)
  }

  lemma LeTotal<T>(le: (T, T) -> bool, all: seq<T>, a: T, b: T)
    requires TotalOn(le, all) && a in all && b in all
    ensures le(a, b) || le(b, a)
  {
    var i :| 0 <= i < |all| && all[i] == a;
    var j :| 0 <= j < |all| && all[j] == b;
    assert le(all[i], all[j]) || le(all[j], all[i]);
  }

  lemma LeTransitive<T>(le: (T, T) -> bool, all: seq<T>, a: T, b: T, c: T)
    requires TransitiveOn(le, all) && a in all && b in all && c in all && le(a, b) && le(b, c)
    ensures le(a, c)
  {
    var i :| 0 <= i < |all| && all[i] == a;
    var j :| 0 <= j < |all| && all[j] == b;
    var k :| 0 <= k < |all| && all[k] == c;
    assert le(all[i], all[j]) && le(all[j], all[k]);
  }

  lemma {:induction false} InsertSorted<T>(x: T, ys: seq<T>, le: (T, T) -> bool, all: seq<T>)
    requires SortedBy(ys, le)
    requires x in all && forall y :: y in ys ==> y in all
    requires TotalOn(le, all) && TransitiveOn(le, all)
    ensures SortedBy(Insert(x, ys, le), le)
  {
    var r := Insert(x, ys, le);
    if ys == [] {
    } else if le(x, ys[0]) {
      assert r == [x] + ys;
      forall i, j | 0 <= i < j < |r| ensures le(r[i], r[j]) {
        if i == 0 {
          if j > 1 {
            assert le(ys[0], ys[j - 1]);
            LeTransitive(le, all, x, ys[0], ys[j - 1]);
          }
        } else {
          assert le(ys[i - 1], ys[j - 1]);
        }
      }
    } else {
      var y0 := ys[0];
      var rest := Insert(x, ys[1..], le);
      assert forall y :: y in ys[1..] ==> y in ys;
      assert SortedBy(ys[1..], le) by {
        forall i, j | 0 <= i < j < |ys| - 1 ensures le(ys[1..][i], ys[1..][j]) {
          assert le(ys[i + 1], ys[j + 1]);
        }
      }
      InsertSorted(x, ys[1..], le, all);
      LeTotal(le, all, x, y0);
      HeadBelowInserted(x, ys, le);
      assert r == [y0] + rest;
      forall i, j | 0 <= i < j < |r| ensures le(r[i], r[j]) {
        if i == 0 {
          assert r[j] == rest[j - 1];
          assert rest[j - 1] in rest;
        } else {
          assert r[i] == rest[i - 1] && r[j] == rest[j - 1];
        }
      }
    }
  }

  /** The head of a sorted list is below everything that inserting an element above it
      leaves behind it. */
  lemma HeadBelowInserted<T>(x: T, ys: seq<T>, le: (T, T) -> bool)
    requires ys != [] && SortedBy(ys, le) && le(ys[0], x)
    ensures forall z | z in Insert(x, ys[1..], le) :: le(ys[0], z)
  {
    var rest := Insert(x, ys[1..], le);
    forall z | z in rest ensures le(ys[0], z) {
      assert z in multiset(rest);
      if z != x {
        assert z in multiset(ys[1..]);
        var k :| 0 <= k < |ys[1..]| && ys[1..][k] == z;
        assert le(ys[0], ys[k + 1]);
      }
    }
  }

  /** With a comparator that is total and transitive on the input, the result is sorted. */
  lemma {:induction false} SortBySorted<T>(s: seq<T>, le: (T, T) -> bool)
    requires TotalOn(le, s) && TransitiveOn(le, s)
    ensures SortedBy(SortBy(s, le), le)
  {
    SortBySortedWithin(s, le, s);
  }

  lemma {:induction false} SortBySortedWithin<T>(s: seq<T>, le: (T, T) -> bool, all: seq<T>)
    requires forall x :: x in s ==> x in all
    requires TotalOn(le, all) && TransitiveOn(le, all)
    ensures SortedBy(SortBy(s, le), le)
  {
    if s != [] {
      assert forall x :: x in s[1..] ==> x in s;
      SortBySortedWithin(s[1..], le, all);
      var sorted := SortBy(s[1..], le);
      forall y | y in sorted ensures y in all {
        assert y in multiset(sorted);
        assert y in multiset(s[1..]);
      }
      InsertSorted(s[0], sorted, le, all);
    }
  }
}
