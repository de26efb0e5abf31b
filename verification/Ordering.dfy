// The order in which rows are claimed: (next_attempt_at, id), with the top-n laws that let a
// claim query be split into per-branch scans.

module Ordering {
  import opened Prelude

  datatype Key = Key(at: real, id: nat)

  predicate Leq(a: Key, b: Key) { a.at < b.at || (a.at == b.at && a.id <= b.id) }

  ghost predicate Sorted(s: seq<Key>) {
    forall i, j :: 0 <= i < j < |s| ==> Leq(s[i], s[j])
  }

  function Merge(x: seq<Key>, y: seq<Key>): seq<Key>
    decreases |x| + |y|
  {
    if x == [] then y
    else if y == [] then x
    else if Leq(x[0], y[0]) then [x[0]] + Merge(x[1..], y)
    else [y[0]] + Merge(x, y[1..])
  }

  function Sort(s: seq<Key>): seq<Key> {
    if s == [] then [] else Merge([s[0]], Sort(s[1..]))
  }

  /** ORDER BY next_attempt_at, id LIMIT n. */
  function Oldest(s: seq<Key>, n: nat): seq<Key> { Leading(Sort(s), n) }

  lemma MergeStep(x: seq<Key>, y: seq<Key>) returns (head: Key, x': seq<Key>, y': seq<Key>)
    requires x != [] && y != []
    ensures Merge(x, y) == [head] + Merge(x', y')
    ensures |x'| + |y'| < |x| + |y|
    ensures (x == [head] + x' && y' == y) || (y == [head] + y' && x' == x)
    ensures Leq(head, x[0]) && Leq(head, y[0])
  {
    if Leq(x[0], y[0]) {
      head, x', y' := x[0], x[1..], y;
    } else {
      head, x', y' := y[0], x, y[1..];
    }
  }

  lemma {:induction false} MergeIsUnion(x: seq<Key>, y: seq<Key>)
    ensures multiset(Merge(x, y)) == multiset(x) + multiset(y)
    decreases |x| + |y|
  {
    if x != [] && y != [] {
      var head, x', y' := MergeStep(x, y);
      MergeIsUnion(x', y');
    }
  }

  lemma InMultiset(s: seq<Key>, k: Key)
    ensures k in s <==> k in multiset(s)
  {
  }

  lemma InMerge(x: seq<Key>, y: seq<Key>, k: Key)
    requires k in Merge(x, y)
    ensures k in x || k in y
  {
    MergeIsUnion(x, y);
    InMultiset(Merge(x, y), k);
  }

  lemma HeadFirst(s: seq<Key>, h: Key, k: Key)
    requires Sorted(s) && s != [] && Leq(h, s[0]) && k in s
    ensures Leq(h, k)
  {
    assert forall i :: 0 < i < |s| ==> Leq(s[0], s[i]);
  }

  lemma {:induction false} MergeSorted(x: seq<Key>, y: seq<Key>)
    requires Sorted(x) && Sorted(y)
    ensures Sorted(Merge(x, y))
    decreases |x| + |y|
  {
    if x != [] && y != [] {
      var head, x', y' := MergeStep(x, y);
      MergeSorted(x', y');
      forall k | k in Merge(x', y') ensures Leq(head, k) {
        InMerge(x', y', k);
        if k in x { HeadFirst(x, head, k); } else { HeadFirst(y, head, k); }
      }
    }
  }

  lemma {:induction false} SortSorts(s: seq<Key>)
    ensures Sorted(Sort(s)) && multiset(Sort(s)) == multiset(s) && |Sort(s)| == |s|
  {
    if s != [] {
      SortSorts(s[1..]);
      MergeSorted([s[0]], Sort(s[1..]));
      MergeIsUnion([s[0]], Sort(s[1..]));
      assert s == [s[0]] + s[1..];
      assert |multiset(Sort(s))| == |multiset(s)|;
    }
  }

  lemma HeadIsLeast(a: seq<Key>, k: Key)
    requires Sorted(a) && k in multiset(a)
    ensures a != [] && Leq(a[0], k)
  {
    InMultiset(a, k);
  }

  lemma TailMultiset(a: seq<Key>)
    requires a != []
    ensures multiset(a[1..]) == multiset(a) - multiset{a[0]}
  {
    assert a == [a[0]] + a[1..];
  }

  /** A sorted sequence is determined by its elements: nothing else about how it was built matters. */
  lemma {:induction false} SortedUnique(a: seq<Key>, b: seq<Key>)
    requires Sorted(a) && Sorted(b) && multiset(a) == multiset(b)
    ensures a == b
  {
    assert |a| == |multiset(a)| == |multiset(b)| == |b|;
    if a != [] {
      InMultiset(a, a[0]);
      InMultiset(b, b[0]);
      HeadIsLeast(b, a[0]);
      HeadIsLeast(a, b[0]);
      TailMultiset(a);
      TailMultiset(b);
      SortedUnique(a[1..], b[1..]);
      assert a == [a[0]] + a[1..] && b == [b[0]] + b[1..];
    }
  }

  lemma SortByContents(a: seq<Key>, b: seq<Key>)
    requires multiset(a) == multiset(b)
    ensures Sort(a) == Sort(b)
  {
    SortSorts(a);
    SortSorts(b);
    SortedUnique(Sort(a), Sort(b));
  }

  lemma SortIsMerge(a: seq<Key>, b: seq<Key>)
    ensures Sort(a + b) == Merge(Sort(a), Sort(b))
  {
    SortSorts(a);
    SortSorts(b);
    SortSorts(a + b);
    MergeSorted(Sort(a), Sort(b));
    MergeIsUnion(Sort(a), Sort(b));
    SortedUnique(Sort(a + b), Merge(Sort(a), Sort(b)));
  }

  /** Merging that stops after n elements. */
  ghost function MergeN(x: seq<Key>, y: seq<Key>, n: nat): seq<Key>
    decreases n
  {
    if n == 0 then []
    else if x == [] then Leading(y, n)
    else if y == [] then Leading(x, n)
    else if Leq(x[0], y[0]) then [x[0]] + MergeN(x[1..], y, n - 1)
    else [y[0]] + MergeN(x, y[1..], n - 1)
  }

  lemma TakeCons(h: Key, t: seq<Key>, n: nat)
    requires n > 0
    ensures Leading([h] + t, n) == [h] + Leading(t, n - 1)
  {
  }

  lemma {:induction false} MergeNTakes(x: seq<Key>, y: seq<Key>, n: nat)
    ensures MergeN(x, y, n) == Leading(Merge(x, y), n)
    decreases n
  {
    if n == 0 || x == [] || y == [] {
    } else if Leq(x[0], y[0]) {
      MergeNTakes(x[1..], y, n - 1);
      TakeCons(x[0], Merge(x[1..], y), n);
    } else {
      MergeNTakes(x, y[1..], n - 1);
      TakeCons(y[0], Merge(x, y[1..]), n);
    }
  }

  lemma TakeTail(s: seq<Key>, a: nat)
    requires s != [] && a > 0
    ensures Leading(s, a) != [] && Leading(s, a)[0] == s[0] && Leading(s, a)[1..] == Leading(s[1..], a - 1)
  {
  }

  /** The first n of a merge need only the first n of each side. */
  lemma {:induction false} MergeNCut(x: seq<Key>, y: seq<Key>, n: nat, a: nat, b: nat)
    requires n <= a && n <= b
    ensures MergeN(x, y, n) == MergeN(Leading(x, a), Leading(y, b), n)
    decreases n
  {
    if n == 0 {
    } else if x == [] {
      assert Leading(Leading(y, b), n) == Leading(y, n);
    } else if y == [] {
      assert Leading(Leading(x, a), n) == Leading(x, n);
    } else {
      TakeTail(x, a);
      TakeTail(y, b);
      if Leq(x[0], y[0]) {
        MergeNCut(x[1..], y, n - 1, a - 1, b);
      } else {
        MergeNCut(x, y[1..], n - 1, a, b - 1);
      }
    }
  }

  /** The oldest n of a union are the oldest n of the two sides' oldest n. */
  lemma OldestOfUnion(a: seq<Key>, b: seq<Key>, n: nat)
    ensures Oldest(a + b, n) == Oldest(Oldest(a, n) + Oldest(b, n), n)
  {
    var x, y := Sort(a), Sort(b);
    SortIsMerge(a, b);
    SortSorts(a);
    SortSorts(b);
    SortIsMerge(Leading(x, n), Leading(y, n));
    SortOfSorted(Leading(x, n));
    SortOfSorted(Leading(y, n));
    MergeNTakes(x, y, n);
    MergeNTakes(Leading(x, n), Leading(y, n), n);
    MergeNCut(x, y, n, n, n);
  }

  lemma SortOfSorted(s: seq<Key>)
    requires Sorted(s)
    ensures Sort(s) == s
  {
    SortSorts(s);
    SortedUnique(Sort(s), s);
  }

  function Flatten(bags: seq<seq<Key>>): seq<Key> {
    if bags == [] then [] else bags[0] + Flatten(bags[1..])
  }

  function EachOldest(bags: seq<seq<Key>>, n: nat): seq<seq<Key>> {
    if bags == [] then [] else [Oldest(bags[0], n)] + EachOldest(bags[1..], n)
  }

  lemma OldestOfOldest(s: seq<Key>, n: nat)
    ensures Oldest(Oldest(s, n), n) == Oldest(s, n)
  {
    SortSorts(s);
    SortOfSorted(Oldest(s, n));
  }

  /** The same for any number of branches, each cut at n before they are united. */
  lemma {:induction false} OldestOfBranches(bags: seq<seq<Key>>, n: nat)
    ensures Oldest(Flatten(EachOldest(bags, n)), n) == Oldest(Flatten(bags), n)
  {
    if bags != [] {
      var rest, cut := Flatten(bags[1..]), Flatten(EachOldest(bags[1..], n));
      OldestOfBranches(bags[1..], n);
      OldestOfUnion(bags[0], rest, n);
      OldestOfUnion(Oldest(bags[0], n), cut, n);
      OldestOfOldest(bags[0], n);
      assert EachOldest(bags, n)[1..] == EachOldest(bags[1..], n);
    }
  }

  /** Nothing left out is older than anything taken. */
  lemma OldestIsLeast(s: seq<Key>, n: nat, i: nat, k: Key)
    requires i < |Oldest(s, n)|
    requires (multiset(s) - multiset(Oldest(s, n)))[k] > 0
    ensures Leq(Oldest(s, n)[i], k)
  {
    SortSorts(s);
    var cut := Min(n, |Sort(s)|);
    assert Sort(s) == Sort(s)[..cut] + Sort(s)[cut..];
    assert multiset(s) == multiset(Sort(s)[..cut]) + multiset(Sort(s)[cut..]);
    assert k in Sort(s)[cut..];
  }
}
