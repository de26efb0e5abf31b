// Small shared vocabulary: an optional value, and weighted sums over sequences.

module Prelude {

  datatype Option<+T> = None | Some(value: T)

  function Min(a: nat, b: nat): nat { if a <= b then a else b }

  function Max(a: nat, b: nat): nat { if a <= b then b else a }

  function Leading<T>(s: seq<T>, n: nat): seq<T> { s[..Min(n, |s|)] }

  /** The total weight of a sequence. With a weight that is one on a single element it counts that
      element; with the constant weight one it is the length. */
  ghost function Sum<T>(s: seq<T>, g: T -> nat): nat {
    if s == [] then 0 else g(s[0]) + Sum(s[1..], g)
  }

  lemma {:induction false} SumAppend<T>(a: seq<T>, b: seq<T>, g: T -> nat)
    ensures Sum(a + b, g) == Sum(a, g) + Sum(b, g)
  {
    if a == [] {
      assert a + b == b;
    } else {
      SumAppend(a[1..], b, g);
      assert (a + b)[1..] == a[1..] + b;
    }
  }

  lemma SumOne<T>(x: T, g: T -> nat)
    ensures Sum([x], g) == g(x)
  {
    assert [x][1..] == [];
  }

  lemma {:induction false} SumLength<T>(s: seq<T>, g: T -> nat)
    requires forall x :: x in s ==> g(x) == 1
    ensures Sum(s, g) == |s|
  {
    if s != [] { SumLength(s[1..], g); }
  }

  lemma {:induction false} SumAtLeast<T>(s: seq<T>, i: nat, g: T -> nat)
    requires i < |s|
    ensures g(s[i]) <= Sum(s, g)
  {
    if i > 0 { SumAtLeast(s[1..], i - 1, g); }
  }

  /** Two different positions both contribute. */
  lemma {:induction false} SumAtLeastTwo<T>(s: seq<T>, i: nat, j: nat, g: T -> nat)
    requires i < j < |s|
    ensures g(s[i]) + g(s[j]) <= Sum(s, g)
  {
    if i == 0 {
      SumAtLeast(s[1..], j - 1, g);
    } else {
      SumAtLeastTwo(s[1..], i - 1, j - 1, g);
    }
  }

  lemma {:induction false} SumZero<T>(s: seq<T>, g: T -> nat)
    requires forall x :: x in s ==> g(x) == 0
    ensures Sum(s, g) == 0
  {
    if s != [] { SumZero(s[1..], g); }
  }

  /** Replacing one element moves the total by the difference of its weights. */
  lemma {:induction false} SumUpdate<T>(s: seq<T>, i: nat, x: T, g: T -> nat)
    requires i < |s|
    ensures Sum(s[i := x], g) + g(s[i]) == Sum(s, g) + g(x)
  {
    if i == 0 {
      assert s[0 := x][1..] == s[1..];
    } else {
      SumUpdate(s[1..], i - 1, x, g);
      assert s[i := x][1..] == s[1..][i - 1 := x];
    }
  }
}
