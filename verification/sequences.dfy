/**
 * The "append what qualifies" loop that `buildFilterStrings` and
 * `convertHits` both run, as one generic filter-and-map over a sequence.
 */
module Sequences {
  import opened Wrappers

  /** Visits `xs` in order and appends `y` whenever `f` gives `Some(y)`. */
  function FilterMap<T, U>(xs: seq<T>, f: T -> Option<U>): (r: seq<U>)
    ensures |r| <= |xs|
    decreases |xs|
  {
    if |xs| == 0 then []
    else
      var prev := FilterMap(xs[..|xs| - 1], f);
      match f(xs[|xs| - 1])
      case Some(y) => prev + [y]
      case None => prev
  }

  /** Filtering a concatenation is concatenating the filtered parts. */
  lemma {:induction false} FilterMapAppend<T, U>(a: seq<T>, b: seq<T>, f: T -> Option<U>)
    ensures FilterMap(a + b, f) == FilterMap(a, f) + FilterMap(b, f)
    decreases |b|
  {
    if |b| == 0 {
      assert a + b == a;
    } else {
      var b' := b[..|b| - 1];
      assert (a + b)[..|a + b| - 1] == a + b';
      assert (a + b)[|a + b| - 1] == b[|b| - 1];
      FilterMapAppend(a, b', f);
    }
  }

  /** Every value `f` produces for some element is kept. */
  lemma {:induction false} FilterMapComplete<T, U>(xs: seq<T>, f: T -> Option<U>)
    ensures forall i :: 0 <= i < |xs| && f(xs[i]).Some? ==> f(xs[i]).value in FilterMap(xs, f)
    decreases |xs|
  {
    if |xs| > 0 {
      var n := |xs| - 1;
      FilterMapComplete(xs[..n], f);
      forall i | 0 <= i < |xs| && f(xs[i]).Some?
        ensures f(xs[i]).value in FilterMap(xs, f)
      {
        if i < n {
          assert xs[..n][i] == xs[i];
        }
      }
    }
  }

  /** Everything kept is what `f` produced for some element. */
  lemma {:induction false} FilterMapSound<T, U>(xs: seq<T>, f: T -> Option<U>)
    ensures forall y :: y in FilterMap(xs, f) ==> exists i :: 0 <= i < |xs| && f(xs[i]) == Some(y)
    decreases |xs|
  {
    if |xs| > 0 {
      var n := |xs| - 1;
      var prev := FilterMap(xs[..n], f);
      FilterMapSound(xs[..n], f);
      forall y | y in FilterMap(xs, f)
        ensures exists i :: 0 <= i < |xs| && f(xs[i]) == Some(y)
      {
        if y in prev {
          var i :| 0 <= i < n && f(xs[..n][i]) == Some(y);
          assert xs[..n][i] == xs[i];
        } else {
          assert f(xs[n]) == Some(y);
        }
      }
    }
  }

  /** Nothing is kept exactly when `f` rejects every element. */
  lemma {:induction false} FilterMapEmpty<T, U>(xs: seq<T>, f: T -> Option<U>)
    ensures |FilterMap(xs, f)| == 0 <==> forall i :: 0 <= i < |xs| ==> f(xs[i]).None?
    decreases |xs|
  {
    if |xs| > 0 {
      var n := |xs| - 1;
      FilterMapEmpty(xs[..n], f);
      assert forall i :: 0 <= i < n ==> xs[..n][i] == xs[i];
    }
  }

  /**
   * Everything is kept exactly when `f` accepts every element, and then each
   * element's value stays in its place.
   */
  lemma {:induction false} FilterMapAll<T, U>(xs: seq<T>, f: T -> Option<U>)
    ensures |FilterMap(xs, f)| == |xs| <==> forall i :: 0 <= i < |xs| ==> f(xs[i]).Some?
    ensures (forall i :: 0 <= i < |xs| ==> f(xs[i]).Some?) ==>
      |FilterMap(xs, f)| == |xs| && forall i :: 0 <= i < |xs| ==> FilterMap(xs, f)[i] == f(xs[i]).value
    decreases |xs|
  {
    if |xs| > 0 {
      var n := |xs| - 1;
      assert forall i :: 0 <= i < n ==> xs[..n][i] == xs[i];
      FilterMapAll(xs[..n], f);
    }
  }

  /** The result does not depend on the order in which the elements are visited, up to order. */
  lemma {:induction false} FilterMapPermutation<T, U>(a: seq<T>, b: seq<T>, f: T -> Option<U>)
    requires multiset(a) == multiset(b)
    ensures multiset(FilterMap(a, f)) == multiset(FilterMap(b, f))
    decreases |a|
  {
    if |a| == 0 {
      assert |b| == |multiset(b)| == 0;
    } else {
      var x := a[0];
      assert a == [x] + a[1..];
      assert x in multiset(b);
      var j :| 0 <= j < |b| && b[j] == x;
      var b1, b2 := b[..j], b[j + 1..];
      assert b == b1 + [x] + b2;
      assert multiset(a[1..]) == multiset(b1 + b2) by {
        assert multiset(a) == multiset{x} + multiset(a[1..]);
        assert multiset(b) == multiset(b1) + multiset{x} + multiset(b2);
        assert multiset(b1 + b2) == multiset(b1) + multiset(b2);
        assert multiset(a[1..]) == multiset(a) - multiset{x};
        assert multiset(b1 + b2) == multiset(b) - multiset{x};
      }
      FilterMapPermutation(a[1..], b1 + b2, f);
      FilterMapAppend([x], a[1..], f);
      FilterMapAppend(b1 + [x], b2, f);
      FilterMapAppend(b1, [x], f);
      FilterMapAppend(b1, b2, f);
    }
  }

  /** The positions, in increasing order, of the elements `f` accepts. */
  function Kept<T, U>(xs: seq<T>, f: T -> Option<U>): (idx: seq<nat>)
    ensures forall k :: 0 <= k < |idx| ==> idx[k] < |xs| && f(xs[idx[k]]).Some?
    ensures forall k, l :: 0 <= k < l < |idx| ==> idx[k] < idx[l]
    ensures forall i :: 0 <= i < |xs| && f(xs[i]).Some? ==> i in idx
    decreases |xs|
  {
    if |xs| == 0 then []
    else
      var n := |xs| - 1;
      var prev := Kept(xs[..n], f);
      assert forall i :: 0 <= i < n ==> xs[..n][i] == xs[i];
      if f(xs[n]).Some? then prev + [n] else prev
  }

  /**
   * The result is the subsequence of accepted elements: its k-th value is
   * what `f` gave for the k-th accepted position.
   */
  lemma {:induction false} FilterMapIsSubsequence<T, U>(xs: seq<T>, f: T -> Option<U>)
    ensures |FilterMap(xs, f)| == |Kept(xs, f)|
    ensures forall k :: 0 <= k < |Kept(xs, f)| ==> FilterMap(xs, f)[k] == f(xs[Kept(xs, f)[k]]).value
    decreases |xs|
  {
    if |xs| > 0 {
      var n := |xs| - 1;
      FilterMapIsSubsequence(xs[..n], f);
      assert forall i :: 0 <= i < n ==> xs[..n][i] == xs[i];
    }
  }
}
