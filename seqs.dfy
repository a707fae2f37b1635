/** The handful of JavaScript array and value idioms the application is built from:
    optional values (`undefined`), `find`, `findIndex`, `filter` and a summing `reduce`. */
module Seqs {

  /** A value that may be `undefined`. */
  datatype Option<+T> = None | Some(value: T) {
    /** `x !== undefined ? x : fallback` */
    function GetOr(fallback: T): T {
      match this
      case Some(v) => v
      case None => fallback
    }
  }

  /** `Array.prototype.findIndex`: the first index whose element satisfies `p` (None for -1). */
  function FindIndex<T>(s: seq<T>, p: T -> bool): (r: Option<nat>)
    ensures r.Some? ==> r.value < |s| && p(s[r.value])
    ensures r.Some? ==> forall k :: 0 <= k < r.value ==> !p(s[k])
    ensures r.None? <==> forall k :: 0 <= k < |s| ==> !p(s[k])
  {
    if s == [] then None
    else if p(s[0]) then Some(0)
    else match FindIndex(s[1..], p)
      case None => None
      case Some(k) => Some(k + 1)
  }

  /** `Array.prototype.find`: the first element satisfying `p`. */
  function Find<T>(s: seq<T>, p: T -> bool): (r: Option<T>)
    ensures r.Some? <==> exists k :: 0 <= k < |s| && p(s[k])
    ensures r.Some? ==> r.value in s && p(r.value)
  {
    match FindIndex(s, p)
    case None => None
    case Some(k) => Some(s[k])
  }

  /** `find` on an array with one matching element, appended last, returns that element. */
  lemma FindAppended<T>(s: seq<T>, x: T, p: T -> bool)
    requires forall k :: 0 <= k < |s| ==> !p(s[k])
    requires p(x)
    ensures Find(s + [x], p) == Some(x)
  {
    var all := s + [x];
    assert all[|s|] == x;
    assert FindIndex(all, p) == Some(|s|);
  }

  /** `Array.prototype.filter`: the elements satisfying `p`, in their original order. */
  function Filter<T>(s: seq<T>, p: T -> bool): (r: seq<T>)
    ensures |r| <= |s|
    ensures forall k :: 0 <= k < |r| ==> p(r[k])
  {
    if s == [] then [] else (if p(s[0]) then [s[0]] else []) + Filter(s[1..], p)
  }

  /** `filter` keeps exactly the elements satisfying `p`: what it returns comes from `s`, and
      nothing in `s` that satisfies `p` is lost. */
  lemma {:induction false} FilterMembers<T>(s: seq<T>, p: T -> bool)
    ensures forall k :: 0 <= k < |Filter(s, p)| ==> Filter(s, p)[k] in s
    ensures forall k :: 0 <= k < |s| && p(s[k]) ==> s[k] in Filter(s, p)
  {
    if s != [] {
      FilterMembers(s[1..], p);
      var head := if p(s[0]) then [s[0]] else [];
      var rest := Filter(s[1..], p);
      var r := Filter(s, p);
      assert r == head + rest;
      forall k | 0 <= k < |r| ensures r[k] in s {
        if k >= |head| {
          assert r[k] == rest[k - |head|];
          assert rest[k - |head|] in s[1..];
        }
      }
      forall k | 0 <= k < |s| && p(s[k]) ensures s[k] in r {
        if k > 0 {
          assert s[k] == s[1..][k - 1];
        }
      }
    }
  }

  lemma {:induction false} FilterConcat<T>(a: seq<T>, b: seq<T>, p: T -> bool)
    ensures Filter(a + b, p) == Filter(a, p) + Filter(b, p)
  {
    if a == [] {
      assert a + b == b;
    } else {
      assert (a + b)[1..] == a[1..] + b;
      FilterConcat(a[1..], b, p);
    }
  }

  /** Filtering with a predicate every element satisfies changes nothing. */
  lemma {:induction false} FilterKeepsAll<T>(s: seq<T>, p: T -> bool)
    requires forall k :: 0 <= k < |s| ==> p(s[k])
    ensures Filter(s, p) == s
  {
    if s != [] {
      FilterKeepsAll(s[1..], p);
    }
  }

  /** Filtering with a predicate no element satisfies leaves nothing. */
  lemma {:induction false} FilterDropsAll<T>(s: seq<T>, p: T -> bool)
    requires forall k :: 0 <= k < |s| ==> !p(s[k])
    ensures Filter(s, p) == []
  {
    if s != [] {
      FilterDropsAll(s[1..], p);
    }
  }

  /** Two predicates that agree on every element filter alike. */
  lemma {:induction false} FilterSameOn<T>(s: seq<T>, p: T -> bool, q: T -> bool)
    requires forall k :: 0 <= k < |s| ==> p(s[k]) == q(s[k])
    ensures Filter(s, p) == Filter(s, q)
  {
    if s != [] {
      FilterSameOn(s[1..], p, q);
    }
  }

  /** `filter` of a one-element array. */
  lemma FilterSingleton<T>(x: T, p: T -> bool)
    ensures Filter([x], p) == if p(x) then [x] else []
  {
    assert [x][1..] == [];
  }

  /** Removing the elements satisfying `p` is the same as keeping those that do not. */
  lemma {:induction false} FilterSplit<T>(s: seq<T>, p: T -> bool, q: T -> bool)
    requires forall k :: 0 <= k < |s| ==> (p(s[k]) <==> !q(s[k]))
    ensures |Filter(s, p)| + |Filter(s, q)| == |s|
  {
    if s != [] {
      FilterSplit(s[1..], p, q);
    }
  }

  /** `reduce((acc, x) => acc + f(x), 0)` over exact (real) numbers. */
  function Sum<T>(s: seq<T>, f: T -> real): real
  {
    if s == [] then 0.0 else f(s[0]) + Sum(s[1..], f)
  }

  lemma {:induction false} SumConcat<T>(a: seq<T>, b: seq<T>, f: T -> real)
    ensures Sum(a + b, f) == Sum(a, f) + Sum(b, f)
  {
    if a == [] {
      assert a + b == b;
    } else {
      assert (a + b)[1..] == a[1..] + b;
      SumConcat(a[1..], b, f);
    }
  }

  /** A sum of terms none of which is negative is not negative. */
  lemma {:induction false} SumNonNegative<T>(s: seq<T>, f: T -> real)
    ensures (forall k :: 0 <= k < |s| ==> f(s[k]) >= 0.0) ==> Sum(s, f) >= 0.0
  {
    if s != [] && forall k :: 0 <= k < |s| ==> f(s[k]) >= 0.0 {
      forall k | 0 <= k < |s[1..]| ensures f(s[1..][k]) >= 0.0 {
        assert s[1..][k] == s[k + 1];
      }
      SumNonNegative(s[1..], f);
    }
  }

  /** With no negative term, filtering can only lower a sum, and never below zero. */
  lemma {:induction false} SumFilterBounds<T>(s: seq<T>, p: T -> bool, f: T -> real)
    ensures (forall k :: 0 <= k < |s| ==> f(s[k]) >= 0.0) ==> 0.0 <= Sum(Filter(s, p), f) <= Sum(s, f)
  {
    if s != [] && forall k :: 0 <= k < |s| ==> f(s[k]) >= 0.0 {
      var rest := s[1..];
      forall k | 0 <= k < |rest| ensures f(rest[k]) >= 0.0 {
        assert rest[k] == s[k + 1];
      }
      SumFilterBounds(rest, p, f);
      var head := if p(s[0]) then [s[0]] else [];
      assert Filter(s, p) == head + Filter(rest, p);
      SumConcat(head, Filter(rest, p), f);
      assert [s[0]][1..] == [];
    }
  }

  /** Replacing one element changes the sum by the difference of the two values. */
  lemma {:induction false} SumUpdate<T>(s: seq<T>, i: int, x: T, f: T -> real)
    requires 0 <= i < |s|
    ensures Sum(s[i := x], f) == Sum(s, f) - f(s[i]) + f(x)
  {
    if i == 0 {
      assert s[i := x][1..] == s[1..];
    } else {
      assert s[i := x][1..] == s[1..][i - 1 := x];
      SumUpdate(s[1..], i - 1, x, f);
    }
  }

  /** `slice().reverse()`: the elements in the opposite order. */
  function Reverse<T>(s: seq<T>): (r: seq<T>)
    ensures |r| == |s|
    ensures forall k :: 0 <= k < |s| ==> r[k] == s[|s| - 1 - k]
  {
    if s == [] then [] else Reverse(s[1..]) + [s[0]]
  }

  /** The same reduction over integers. */
  function SumInt<T>(s: seq<T>, f: T -> int): int
  {
    if s == [] then 0 else f(s[0]) + SumInt(s[1..], f)
  }

  /** With no negative term, an integer sum is not negative and no term exceeds it. */
  lemma {:induction false} SumIntBounds<T>(s: seq<T>, f: T -> int)
    ensures (forall k :: 0 <= k < |s| ==> f(s[k]) >= 0) ==>
              SumInt(s, f) >= 0 && forall k :: 0 <= k < |s| ==> f(s[k]) <= SumInt(s, f)
  {
    if s != [] && forall k :: 0 <= k < |s| ==> f(s[k]) >= 0 {
      var rest := s[1..];
      forall k | 0 <= k < |rest| ensures f(rest[k]) >= 0 {
        assert rest[k] == s[k + 1];
      }
      SumIntBounds(rest, f);
      forall k | 1 <= k < |s| ensures f(s[k]) <= SumInt(s, f) {
        assert s[k] == rest[k - 1];
      }
    }
  }
}
