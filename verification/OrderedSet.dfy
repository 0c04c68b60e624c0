/** A set kept as a sorted slice. */
module Optimistic {
  import opened Common

  // ----- comparison -----

  /** Three-way comparison that agrees with a total order. */
  ghost predicate Lawful<M(!new)>(compare: (M, M) -> int) {
    && (forall a, b :: compare(a, b) == 0 <==> a == b)
    && (forall a, b :: compare(a, b) < 0 <==> compare(b, a) > 0)
    && (forall a, b, c :: compare(a, b) < 0 && compare(b, c) < 0 ==> compare(a, c) < 0)
  }

  function CompareByLess(a: UUID, b: UUID): int {
    if a < b then -1 else if b < a then 1 else 0
  }

  lemma CompareByLessIsLawful()
    ensures Lawful(CompareByLess)
  {
  }

  // ----- sorted slices -----

  ghost predicate Sorted<M>(compare: (M, M) -> int, xs: seq<M>) {
    forall i, j :: 0 <= i < j < |xs| ==> compare(xs[i], xs[j]) < 0
  }

  ghost function Elements<M>(xs: seq<M>): set<M> {
    set x | x in xs
  }

  lemma NoElements<M>(xs: seq<M>)
    ensures Elements(xs) == {} <==> xs == []
  {
    if xs != [] {
      assert xs[0] in Elements(xs);
    }
  }

  /** The slice is determined by the set: it does not depend on how the set came about. */
  lemma {:induction false} SortedUnique<M(!new)>(compare: (M, M) -> int, xs: seq<M>, ys: seq<M>)
    requires Lawful(compare) && Sorted(compare, xs) && Sorted(compare, ys) && Elements(xs) == Elements(ys)
    ensures xs == ys
  {
    NoElements(xs);
    NoElements(ys);
    if xs != [] {
      SameLast(compare, xs, ys);
      WithoutLast(compare, xs);
      WithoutLast(compare, ys);
      SortedUnique(compare, xs[..|xs| - 1], ys[..|ys| - 1]);
      assert xs == xs[..|xs| - 1] + [xs[|xs| - 1]];
      assert ys == ys[..|ys| - 1] + [ys[|ys| - 1]];
    }
  }

  lemma SameLast<M(!new)>(compare: (M, M) -> int, xs: seq<M>, ys: seq<M>)
    requires Lawful(compare) && Sorted(compare, xs) && Sorted(compare, ys) && Elements(xs) == Elements(ys)
    requires xs != [] && ys != []
    ensures xs[|xs| - 1] == ys[|ys| - 1]
  {
    var x, y := xs[|xs| - 1], ys[|ys| - 1];
    assert x in Elements(ys) && y in Elements(xs);
    LastIsGreatest(compare, xs, y);
    LastIsGreatest(compare, ys, x);
  }

  lemma LastIsGreatest<M(!new)>(compare: (M, M) -> int, xs: seq<M>, x: M)
    requires Lawful(compare) && Sorted(compare, xs) && x in xs
    ensures x == xs[|xs| - 1] || compare(x, xs[|xs| - 1]) < 0
  {
  }

  lemma WithoutLast<M(!new)>(compare: (M, M) -> int, xs: seq<M>)
    requires Lawful(compare) && Sorted(compare, xs) && xs != []
    ensures Sorted(compare, xs[..|xs| - 1])
    ensures Elements(xs[..|xs| - 1]) == Elements(xs) - {xs[|xs| - 1]}
  {
    var n := |xs| - 1;
    forall x | x in xs && x != xs[n]
      ensures x in xs[..n]
    {
      var i :| 0 <= i < |xs| && xs[i] == x;
      assert xs[..n][i] == x;
    }
    forall i | 0 <= i < n
      ensures xs[i] != xs[n]
    {
      assert compare(xs[i], xs[n]) < 0;
    }
  }

  /** Everything left of `i` is smaller than `m`, and everything from `i` on is not. */
  ghost predicate Splits<M>(compare: (M, M) -> int, xs: seq<M>, m: M, i: nat) {
    && i <= |xs|
    && (forall k :: 0 <= k < i ==> compare(xs[k], m) < 0)
    && (forall k :: i <= k < |xs| ==> compare(xs[k], m) >= 0)
  }

  method BinarySearch<M(!new)>(compare: (M, M) -> int, xs: seq<M>, m: M) returns (i: nat, found: bool)
    requires Lawful(compare) && Sorted(compare, xs)
    ensures Splits(compare, xs, m, i)
    ensures found <==> m in xs
    ensures found ==> i < |xs| && xs[i] == m
  {
    i := 0;
    var j := |xs|;
    while i < j
      invariant i <= j <= |xs|
      invariant forall k :: 0 <= k < i ==> compare(xs[k], m) < 0
      invariant forall k :: j <= k < |xs| ==> compare(xs[k], m) >= 0
    {
      var h := (i + j) / 2;
      if compare(xs[h], m) < 0 {
        BelowIsSmaller(compare, xs, m, h);
        i := h + 1;
      } else {
        AboveIsNotSmaller(compare, xs, m, h);
        j := h;
      }
    }
    found := i < |xs| && compare(xs[i], m) == 0;
    FoundIfMember(compare, xs, m, i);
  }

  /** A member can only be where the slice splits. */
  lemma FoundIfMember<M(!new)>(compare: (M, M) -> int, xs: seq<M>, m: M, i: nat)
    requires Lawful(compare) && Sorted(compare, xs) && Splits(compare, xs, m, i)
    ensures m in xs ==> i < |xs| && xs[i] == m
  {
    forall k | i < k < |xs|
      ensures xs[k] != m
    {
      assert compare(xs[i], xs[k]) < 0;
    }
  }

  lemma BelowIsSmaller<M(!new)>(compare: (M, M) -> int, xs: seq<M>, m: M, h: nat)
    requires Lawful(compare) && Sorted(compare, xs) && h < |xs| && compare(xs[h], m) < 0
    ensures forall k :: 0 <= k <= h ==> compare(xs[k], m) < 0
  {
  }

  lemma AboveIsNotSmaller<M(!new)>(compare: (M, M) -> int, xs: seq<M>, m: M, h: nat)
    requires Lawful(compare) && Sorted(compare, xs) && h < |xs| && compare(xs[h], m) >= 0
    ensures forall k :: h <= k < |xs| ==> compare(xs[k], m) >= 0
  {
    forall k | h < k < |xs|
      ensures compare(xs[k], m) >= 0
    {
      assert compare(xs[h], xs[k]) < 0;
    }
  }

  /** Inserting where the search says keeps the slice sorted. */
  lemma InsertKeepsSorted<M(!new)>(compare: (M, M) -> int, xs: seq<M>, m: M, i: nat)
    requires Lawful(compare) && Sorted(compare, xs) && Splits(compare, xs, m, i) && m !in xs
    ensures Sorted(compare, xs[..i] + [m] + xs[i..])
    ensures Elements(xs[..i] + [m] + xs[i..]) == Elements(xs) + {m}
  {
    var ys := xs[..i] + [m] + xs[i..];
    forall a, b | 0 <= a < b < |ys|
      ensures compare(ys[a], ys[b]) < 0
    {
      assert forall k :: i <= k < |xs| ==> compare(m, xs[k]) < 0;
    }
    assert xs == xs[..i] + xs[i..];
  }

  lemma DeleteKeepsSorted<M(!new)>(compare: (M, M) -> int, xs: seq<M>, i: nat)
    requires Lawful(compare) && Sorted(compare, xs) && i < |xs|
    ensures Sorted(compare, xs[..i] + xs[i + 1..])
    ensures Elements(xs[..i] + xs[i + 1..]) == Elements(xs) - {xs[i]}
  {
    forall k | 0 <= k < |xs| && k != i
      ensures xs[k] != xs[i]
    {
      assert if k < i then compare(xs[k], xs[i]) < 0 else compare(xs[i], xs[k]) < 0;
    }
    assert xs == xs[..i] + [xs[i]] + xs[i + 1..];
    assert xs[i] !in xs[..i] && xs[i] !in xs[i + 1..];
  }

  lemma {:induction false} SortedSize<M(!new)>(compare: (M, M) -> int, xs: seq<M>)
    requires Lawful(compare) && Sorted(compare, xs)
    ensures |Elements(xs)| == |xs|
  {
    if xs != [] {
      WithoutLast(compare, xs);
      SortedSize(compare, xs[..|xs| - 1]);
      assert xs[|xs| - 1] in Elements(xs);
    }
  }

  class OrderedSet<M(!new)> {
    const compare: (M, M) -> int
    var members: seq<M>

    constructor (compare: (M, M) -> int)
      requires Lawful(compare)
      ensures Valid() && View() == {} && this.compare == compare
    {
      this.compare := compare;
      members := [];
    }

    ghost predicate Valid()
      reads this
    {
      Lawful(compare) && Sorted(compare, members)
    }

    ghost function View(): set<M>
      reads this
    {
      Elements(members)
    }

    method Add(m: M)
      requires Valid()
      modifies this
      ensures Valid() && View() == old(View()) + {m}
    {
      var i, ok := BinarySearch(compare, members, m);
      if !ok {
        InsertKeepsSorted(compare, members, m, i);
        members := members[..i] + [m] + members[i..];
      }
    }

    method Delete(m: M)
      requires Valid()
      modifies this
      ensures Valid() && View() == old(View()) - {m}
    {
      var i, ok := BinarySearch(compare, members, m);
      if ok {
        DeleteKeepsSorted(compare, members, i);
        members := members[..i] + members[i + 1..];
      }
    }

    method Has(m: M) returns (ok: bool)
      requires Valid()
      ensures ok <==> m in View()
    {
      var i;
      i, ok := BinarySearch(compare, members, m);
    }

    method Len() returns (n: nat)
      requires Valid()
      ensures n == |View()|
    {
      SortedSize(compare, members);
      n := |members|;
    }

    /** The members in order. */
    method Members() returns (xs: seq<M>)
      requires Valid()
      ensures Sorted(compare, xs) && Elements(xs) == View()
    {
      xs := members;
    }
  }
}
