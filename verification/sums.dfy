/** Sums of a real-valued measure over a sequence, and the algebra the
    pricing proofs need: splitting at a concatenation, removing one element,
    reordering, scaling and bounding. */
module Sums {

  /** The total of `f` over the elements of `s`, first to last. */
  function Sum<T>(s: seq<T>, f: T -> real): real
  {
    if |s| == 0 then 0.0 else f(s[0]) + Sum(s[1..], f)
  }

  /** A sum over a concatenation is the sum of the two parts. */
  lemma {:induction false} SumAppend<T>(a: seq<T>, b: seq<T>, f: T -> real)
    ensures Sum(a + b, f) == Sum(a, f) + Sum(b, f)
  {
    if |a| == 0 {
      assert a + b == b;
    } else {
      assert (a + b)[1..] == a[1..] + b;
      SumAppend(a[1..], b, f);
    }
  }

  /** A sum over three concatenated parts is the sum of the three. */
  lemma SumAppend3<T>(a: seq<T>, b: seq<T>, c: seq<T>, f: T -> real)
    ensures Sum(a + b + c, f) == Sum(a, f) + Sum(b, f) + Sum(c, f)
  {
    SumAppend(a + b, c, f);
    SumAppend(a, b, f);
  }

  /** Adding one element at the end adds its measure. */
  lemma SumSnoc<T>(s: seq<T>, x: T, f: T -> real)
    ensures Sum(s + [x], f) == Sum(s, f) + f(x)
  {
    SumAppend(s, [x], f);
    assert Sum([x], f) == f(x) + Sum([x][1..], f);
  }

  /** The sum over a prefix grows by the next element's measure. */
  lemma SumPrefix<T>(s: seq<T>, i: nat, f: T -> real)
    requires i < |s|
    ensures Sum(s[..i + 1], f) == Sum(s[..i], f) + f(s[i])
  {
    assert s[..i + 1] == s[..i] + [s[i]];
    SumSnoc(s[..i], s[i], f);
  }

  /** Taking element `i` out of a sequence takes its measure out of the sum. */
  lemma SumRemove<T>(s: seq<T>, i: nat, f: T -> real)
    requires i < |s|
    ensures Sum(s, f) == f(s[i]) + Sum(s[..i] + s[i + 1..], f)
  {
    assert s == s[..i] + s[i..];
    SumAppend(s[..i], s[i..], f);
    SumAppend(s[..i], s[i + 1..], f);
    assert s[i..][1..] == s[i + 1..];
  }

  /** Taking the first element of `a` out of `a`, and the same value out of
      `b` at index `i`, keeps the two multisets equal. */
  lemma MultisetRemoveMatching<T>(a: seq<T>, b: seq<T>, i: nat)
    requires multiset(a) == multiset(b) && |a| > 0 && i < |b| && b[i] == a[0]
    ensures multiset(a[1..]) == multiset(b[..i] + b[i + 1..])
  {
    var x := a[0];
    assert b == b[..i] + [x] + b[i + 1..];
    assert multiset(b) == multiset(b[..i]) + multiset{x} + multiset(b[i + 1..]);
    assert multiset(b[..i] + b[i + 1..]) == multiset(b[..i]) + multiset(b[i + 1..]);
    assert a == [x] + a[1..];
    assert multiset(a) == multiset{x} + multiset(a[1..]);
    assert multiset(a[1..]) == multiset(a) - multiset{x};
    assert multiset(b[..i] + b[i + 1..]) == multiset(b) - multiset{x};
  }

  /** A sum does not depend on the order of the elements. */
  lemma {:induction false} SumPermutation<T>(a: seq<T>, b: seq<T>, f: T -> real)
    requires multiset(a) == multiset(b)
    ensures Sum(a, f) == Sum(b, f)
  {
    if |a| == 0 {
      assert |b| == |multiset(b)| == 0;
    } else {
      assert a[0] in multiset(b);
      var i :| 0 <= i < |b| && b[i] == a[0];
      SumRemove(b, i, f);
      MultisetRemoveMatching(a, b, i);
      SumPermutation(a[1..], b[..i] + b[i + 1..], f);
    }
  }

  /** A sum of non-negative measures is non-negative. */
  lemma {:induction false} SumNonnegative<T>(s: seq<T>, f: T -> real)
    requires forall i :: 0 <= i < |s| ==> f(s[i]) >= 0.0
    ensures Sum(s, f) >= 0.0
  {
    if |s| > 0 {
      SumNonnegative(s[1..], f);
    }
  }

  /** A sum is monotone in the measure. */
  lemma {:induction false} SumMonotone<T>(s: seq<T>, f: T -> real, g: T -> real)
    requires forall i :: 0 <= i < |s| ==> f(s[i]) <= g(s[i])
    ensures Sum(s, f) <= Sum(s, g)
  {
    if |s| > 0 {
      SumMonotone(s[1..], f, g);
    }
  }

  /** A measure that is `c` times another sums to `c` times the other's sum. */
  lemma {:induction false} SumScale<T>(s: seq<T>, f: T -> real, g: T -> real, c: real)
    requires forall i :: 0 <= i < |s| ==> f(s[i]) == c * g(s[i])
    ensures Sum(s, f) == c * Sum(s, g)
  {
    if |s| > 0 {
      SumScale(s[1..], f, g, c);
    }
  }
}
