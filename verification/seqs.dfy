/** Order-preserving filtering of sequences, the `Array.prototype.filter`
    that the dashboard, the upload sweep and the map layer all rely on. */
module Seqs {

  /** The elements of `s` that satisfy `p`, in their order in `s`. Defined
      from the end, so that the filter of a prefix is a prefix of the filter. */
  function Filter<T>(p: T -> bool, s: seq<T>): (r: seq<T>)
    ensures |r| <= |s|
    ensures forall x :: x in r ==> x in s && p(x)
    decreases |s|
  {
    if s == [] then []
    else
      var n := |s| - 1;
      Filter(p, s[..n]) + (if p(s[n]) then [s[n]] else [])
  }

  /** Position that `s[i]` takes in `Filter(p, s)` when it is kept. */
  function Rank<T>(p: T -> bool, s: seq<T>, i: nat): nat
    requires i <= |s|
  {
    |Filter(p, s[..i])|
  }

  lemma {:induction false} FilterConcat<T>(p: T -> bool, a: seq<T>, b: seq<T>)
    ensures Filter(p, a + b) == Filter(p, a) + Filter(p, b)
    decreases |b|
  {
    if b == [] {
      assert a + b == a;
    } else {
      var n := |b| - 1;
      assert (a + b)[..|a + b| - 1] == a + b[..n];
      FilterConcat(p, a, b[..n]);
    }
  }

  /** Every kept element sits at its rank, so kept elements keep their order. */
  lemma FilterAt<T>(p: T -> bool, s: seq<T>, i: nat)
    requires i < |s| && p(s[i])
    ensures Rank(p, s, i) < |Filter(p, s)|
    ensures Filter(p, s)[Rank(p, s, i)] == s[i]
  {
    assert s == s[..i + 1] + s[i + 1..];
    FilterConcat(p, s[..i + 1], s[i + 1..]);
    assert s[..i + 1][..i] == s[..i];
  }

  /** Every element of the filter comes from a kept position of `s` of that rank. */
  lemma {:induction false} FilterOrigin<T>(p: T -> bool, s: seq<T>, k: nat) returns (i: nat)
    requires k < |Filter(p, s)|
    ensures i < |s| && p(s[i]) && Rank(p, s, i) == k && Filter(p, s)[k] == s[i]
    decreases |s|
  {
    var n := |s| - 1;
    assert s[..n + 1] == s;
    if k < |Filter(p, s[..n])| {
      i := FilterOrigin(p, s[..n], k);
      assert s[..n][..i] == s[..i];
    } else {
      i := n;
    }
  }

  /** A predicate that implies another keeps no more elements. */
  lemma {:induction false} FilterMonotone<T>(p: T -> bool, q: T -> bool, s: seq<T>)
    requires forall i :: 0 <= i < |s| && p(s[i]) ==> q(s[i])
    ensures |Filter(p, s)| <= |Filter(q, s)|
    decreases |s|
  {
    if s != [] {
      var n := |s| - 1;
      assert forall i :: 0 <= i < n ==> s[..n][i] == s[i];
      FilterMonotone(p, q, s[..n]);
    }
  }

  /** The filter is empty exactly when no element satisfies the predicate. */
  lemma {:induction false} FilterEmpty<T>(p: T -> bool, s: seq<T>)
    ensures Filter(p, s) == [] <==> forall i :: 0 <= i < |s| ==> !p(s[i])
    decreases |s|
  {
    if s != [] {
      var n := |s| - 1;
      var init := s[..n];
      FilterEmpty(p, init);
      assert Filter(p, s) == Filter(p, init) + (if p(s[n]) then [s[n]] else []);
      if Filter(p, s) == [] {
        forall i | 0 <= i < |s| ensures !p(s[i]) {
          if i < n {
            assert init[i] == s[i];
          }
        }
      }
      if forall i :: 0 <= i < |s| ==> !p(s[i]) {
        assert forall i :: 0 <= i < |init| ==> !p(init[i]);
      }
    }
  }

  /** Two sequences that agree, position by position, on the predicate keep
      equally many elements. */
  lemma {:induction false} FilterSameCount<T, U>(p: T -> bool, s: seq<T>, q: U -> bool, t: seq<U>)
    requires |s| == |t|
    requires forall i :: 0 <= i < |s| ==> (p(s[i]) <==> q(t[i]))
    ensures |Filter(p, s)| == |Filter(q, t)|
    decreases |s|
  {
    if s != [] {
      var n := |s| - 1;
      assert forall i :: 0 <= i < n ==> s[..n][i] == s[i] && t[..n][i] == t[i];
      FilterSameCount(p, s[..n], q, t[..n]);
    }
  }

  /** A predicate that holds everywhere keeps the whole sequence. */
  lemma {:induction false} FilterAll<T>(p: T -> bool, s: seq<T>)
    requires forall i :: 0 <= i < |s| ==> p(s[i])
    ensures Filter(p, s) == s
    decreases |s|
  {
    if s != [] {
      var n := |s| - 1;
      assert forall i :: 0 <= i < n ==> s[..n][i] == s[i];
      FilterAll(p, s[..n]);
      assert s[..n] + [s[n]] == s;
    }
  }
}
