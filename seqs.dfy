/** Sequence combinators used by the views and the scorers: filtering, mapping,
    reversal, occurrence counting and first-seen grouping. */
module Seqs {

  function Min(a: int, b: int): int { if a <= b then a else b }

  function Max(a: int, b: int): int { if a <= b then b else a }

  /** The elements of `s` that satisfy `p`, in their original order (`Array.prototype.filter`). */
  function Filter<T>(s: seq<T>, p: T -> bool): (r: seq<T>)
    ensures |r| <= |s|
    ensures forall i :: 0 <= i < |r| ==> p(r[i])
  {
    if s == [] then [] else (if p(s[0]) then [s[0]] else []) + Filter(s[1..], p)
  }

  /** Filtering keeps exactly the elements of `s` that satisfy `p`. */
  lemma {:induction false} FilterMembers<T>(s: seq<T>, p: T -> bool)
    ensures forall i :: 0 <= i < |Filter(s, p)| ==> Filter(s, p)[i] in s
    ensures forall i :: 0 <= i < |s| && p(s[i]) ==> s[i] in Filter(s, p)
  {
    if s != [] {
      FilterMembers(s[1..], p);
      assert s == [s[0]] + s[1..];
    }
  }

  /** Filtering distributes over concatenation, so the relative order of kept elements is the input's. */
  lemma {:induction false} FilterConcat<T>(a: seq<T>, b: seq<T>, p: T -> bool)
    ensures Filter(a + b, p) == Filter(a, p) + Filter(b, p)
  {
    if a == [] {
      assert a + b == b;
    } else {
      assert (a + b)[0] == a[0];
      assert (a + b)[1..] == a[1..] + b;
      FilterConcat(a[1..], b, p);
    }
  }

  /** A filter that keeps every element returns its input unchanged. */
  lemma {:induction false} FilterKeepsAll<T>(s: seq<T>, p: T -> bool)
    requires forall i :: 0 <= i < |s| ==> p(s[i])
    ensures Filter(s, p) == s
  {
    if s != [] {
      FilterKeepsAll(s[1..], p);
    }
  }

  /** `f` applied to each element (`Array.prototype.map`). */
  function Map<T, U>(s: seq<T>, f: T -> U): (r: seq<U>)
    ensures |r| == |s|
    ensures forall i :: 0 <= i < |s| ==> r[i] == f(s[i])
  {
    seq(|s|, i requires 0 <= i < |s| => f(s[i]))
  }

  /** `s` back to front (`Array.prototype.reverse` on a copy). */
  function Reverse<T>(s: seq<T>): (r: seq<T>)
    ensures |r| == |s|
  {
    if s == [] then [] else Reverse(s[1..]) + [s[0]]
  }

  lemma {:induction false} ReverseAt<T>(s: seq<T>, k: nat)
    requires k < |s|
    ensures Reverse(s)[k] == s[|s| - 1 - k]
  {
    if k < |s| - 1 {
      ReverseAt(s[1..], k);
    }
  }

  /** The last `k` elements of the reversal are the reversal of the first `k` elements. */
  lemma {:induction false} ReverseSuffix<T>(s: seq<T>, k: nat)
    requires k <= |s|
    ensures Reverse(s)[|s| - k..] == Reverse(s[..k])
  {
    var a, b := Reverse(s)[|s| - k..], Reverse(s[..k]);
    assert |a| == k == |b|;
    forall j | 0 <= j < k
      ensures a[j] == b[j]
    {
      ReverseAt(s, |s| - k + j);
      ReverseAt(s[..k], j);
    }
  }

  /** The number of occurrences of `x` in `s`. */
  function Count<T(==)>(s: seq<T>, x: T): nat
  {
    if s == [] then 0 else Count(s[..|s| - 1], x) + (if s[|s| - 1] == x then 1 else 0)
  }

  lemma CountSnoc<T>(s: seq<T>, y: T, x: T)
    ensures Count(s + [y], x) == Count(s, x) + (if y == x then 1 else 0)
  {
    assert (s + [y])[..|s|] == s;
  }

  lemma {:induction false} CountPositive<T>(s: seq<T>, x: T)
    ensures Count(s, x) > 0 <==> x in s
  {
    if s != [] {
      var p := s[..|s| - 1];
      assert s == p + [s[|s| - 1]];
      CountPositive(p, x);
    }
  }

  /** No element occurs twice. */
  predicate Distinct<T(==)>(s: seq<T>)
  {
    forall i, j :: 0 <= i < j < |s| ==> s[i] != s[j]
  }

  /** The distinct elements of `s` in the order they are first seen: the key order of
      a JavaScript object that `s` is folded into. */
  function FirstSeen<T(==)>(s: seq<T>): (r: seq<T>)
    ensures Distinct(r)
  {
    if s == [] then []
    else
      var p := FirstSeen(s[..|s| - 1]);
      var x := s[|s| - 1];
      if x in p then p else p + [x]
  }

  /** The first-seen keys are exactly the elements of `s`. */
  lemma {:induction false} FirstSeenMembers<T>(s: seq<T>)
    ensures forall i :: 0 <= i < |FirstSeen(s)| ==> FirstSeen(s)[i] in s
    ensures forall i :: 0 <= i < |s| ==> s[i] in FirstSeen(s)
  {
    if s != [] {
      var p := s[..|s| - 1];
      FirstSeenMembers(p);
      assert s == p + [s[|s| - 1]];
    }
  }

  /** The occurrence counts of `keys` in `s`, key by key. */
  function CountsOf<T(==)>(keys: seq<T>, s: seq<T>): (r: seq<nat>)
    ensures |r| == |keys|
  {
    if keys == [] then [] else [Count(s, keys[0])] + CountsOf(keys[1..], s)
  }

  function Sum(s: seq<int>): int
  {
    if s == [] then 0 else s[0] + Sum(s[1..])
  }

  lemma {:induction false} SumSnoc(s: seq<int>, v: int)
    ensures Sum(s + [v]) == Sum(s) + v
  {
    if s == [] {
      assert [] + [v] == [v];
    } else {
      assert (s + [v])[1..] == s[1..] + [v];
      SumSnoc(s[1..], v);
    }
  }

  lemma {:induction false} CountsOfSnoc<T>(keys: seq<T>, y: T, s: seq<T>)
    ensures CountsOf(keys + [y], s) == CountsOf(keys, s) + [Count(s, y)]
  {
    if keys == [] {
      assert [] + [y] == [y];
    } else {
      assert (keys + [y])[1..] == keys[1..] + [y];
      CountsOfSnoc(keys[1..], y, s);
    }
  }

  /** Appending one element to `s` adds one to the total of distinct `keys` iff it is one of them. */
  lemma {:induction false} SumCountsOfSnoc<T>(keys: seq<T>, s: seq<T>, x: T)
    requires Distinct(keys)
    ensures Sum(CountsOf(keys, s + [x])) == Sum(CountsOf(keys, s)) + (if x in keys then 1 else 0)
  {
    if keys != [] {
      CountSnoc(s, x, keys[0]);
      assert Distinct(keys[1..]) by {
        forall i, j | 0 <= i < j < |keys[1..]| ensures keys[1..][i] != keys[1..][j] {
          assert keys[1..][i] == keys[i + 1] && keys[1..][j] == keys[j + 1];
        }
      }
      SumCountsOfSnoc(keys[1..], s, x);
      assert x in keys <==> x == keys[0] || x in keys[1..] by {
        assert keys == [keys[0]] + keys[1..];
      }
    }
  }

  /** The counts of the first-seen keys add up to the length of the input: every
      element is counted in exactly one bucket. */
  lemma {:induction false} FirstSeenTotal<T>(s: seq<T>)
    ensures Sum(CountsOf(FirstSeen(s), s)) == |s|
  {
    if s != [] {
      var p, x := s[..|s| - 1], s[|s| - 1];
      assert s == p + [x];
      var k := FirstSeen(p);
      FirstSeenMembers(p);
      FirstSeenTotal(p);
      SumCountsOfSnoc(k, p, x);
      if x !in k {
        CountsOfSnoc(k, x, s);
        SumSnoc(CountsOf(k, s), Count(s, x));
        CountPositive(p, x);
        CountSnoc(p, x, x);
      }
    }
  }

  /** Every first-seen key has a positive count. */
  lemma {:induction false} CountsOfPositive<T>(keys: seq<T>, s: seq<T>, i: nat)
    requires forall j :: 0 <= j < |keys| ==> keys[j] in s
    requires i < |keys|
    ensures CountsOf(keys, s)[i] >= 1
  {
    if i == 0 {
      CountPositive(s, keys[0]);
    } else {
      CountsOfPositive(keys[1..], s, i - 1);
    }
  }
}
