// Sorting the entries found (sort_items of apps/app_directory.c): a bubble sort that stops after a
// pass without a swap.
module DirectorySort {
  import opened Prelude
  import opened DirectorySearch

  // strcasecmp
  function CaseCompare(a: string, b: string): int {
    if a == "" then if b == "" then 0 else -1
    else if b == "" then 1
    else
      var x, y := LowerChar(a[0]), LowerChar(b[0]);
      if x < y then -1 else if x > y then 1 else CaseCompare(a[1..], b[1..])
  }

  predicate Before(a: Item, b: Item) { CaseCompare(a.key, b.key) <= 0 }

  lemma {:induction false} CompareOpposite(a: string, b: string)
    ensures CaseCompare(a, b) == -CaseCompare(b, a)
  {
    if a != "" && b != "" {
      CompareOpposite(a[1..], b[1..]);
    }
  }

  lemma {:induction false} CompareTransitive(a: string, b: string, c: string)
    requires CaseCompare(a, b) <= 0 && CaseCompare(b, c) <= 0
    ensures CaseCompare(a, c) <= 0
  {
    if a != "" && b != "" && c != "" && LowerChar(a[0]) == LowerChar(b[0]) == LowerChar(c[0]) {
      CompareTransitive(a[1..], b[1..], c[1..]);
    }
  }

  lemma {:induction false} CompareSame(a: string, b: string)
    ensures CaseCompare(a, b) == 0 <==> SameName(a, b)
  {
    if a != "" && b != "" {
      CompareSame(a[1..], b[1..]);
      assert Lower(a)[1..] == Lower(a[1..]) && Lower(b)[1..] == Lower(b[1..]);
      assert Lower(a) == [LowerChar(a[0])] + Lower(a[1..]);
      assert Lower(b) == [LowerChar(b[0])] + Lower(b[1..]);
    }
  }

  // The two agree, but for case, up to a place where the first ends or has the earlier letter.
  predicate EarlierAt(a: string, b: string, n: nat) {
    && n <= |a| && n < |b| && SameName(a[..n], b[..n])
    && (n == |a| || LowerChar(a[n]) < LowerChar(b[n]))
  }

  // The order is that of a dictionary.
  lemma {:induction false} CompareLexicographic(a: string, b: string)
    ensures CaseCompare(a, b) < 0 <==> exists n :: 0 <= n <= |a| && EarlierAt(a, b, n)
  {
    if a == "" || b == "" {
      assert a[..0] == "" && b[..0] == "";
      assert a == "" && b != "" ==> EarlierAt(a, b, 0);
    } else {
      CompareLexicographic(a[1..], b[1..]);
      assert EarlierAt(a, b, 0) <==> LowerChar(a[0]) < LowerChar(b[0]);
      forall n | 0 < n <= |a|
        ensures EarlierAt(a, b, n) <==> LowerChar(a[0]) == LowerChar(b[0]) && EarlierAt(a[1..], b[1..], n - 1)
      {
        EarlierTail(a, b, n);
      }
      if n :| 0 <= n <= |a[1..]| && EarlierAt(a[1..], b[1..], n) {
        assert LowerChar(a[0]) == LowerChar(b[0]) ==> EarlierAt(a, b, n + 1);
      }
      if n :| 0 < n <= |a| && EarlierAt(a, b, n) {
        assert EarlierAt(a[1..], b[1..], n - 1);
      }
    }
  }

  lemma EarlierTail(a: string, b: string, n: nat)
    requires a != "" && b != "" && 0 < n <= |a|
    ensures EarlierAt(a, b, n) <==> LowerChar(a[0]) == LowerChar(b[0]) && EarlierAt(a[1..], b[1..], n - 1)
  {
    if n < |b| {
      var x, y := a[..n], b[..n];
      assert a[1..][..n - 1] == x[1..] && b[1..][..n - 1] == y[1..];
      assert Lower(x) == [LowerChar(x[0])] + Lower(x[1..]) && Lower(y) == [LowerChar(y[0])] + Lower(y[1..]);
      assert SameName(x, y) <==> LowerChar(x[0]) == LowerChar(y[0]) && Lower(x)[1..] == Lower(y)[1..];
      assert Lower(x)[1..] == Lower(x[1..]) && Lower(y)[1..] == Lower(y[1..]);
    }
  }

  // -------------------------------------------------------------------------- what is promised

  predicate Sorted(s: seq<Item>) {
    forall i, j :: 0 <= i < j < |s| ==> Before(s[i], s[j])
  }

  // The entries of one key, in order.
  function Keyed(s: seq<Item>, key: string): seq<Item> {
    if s == [] then [] else (if SameName(s[0].key, key) then [s[0]] else []) + Keyed(s[1..], key)
  }

  // Entries of the same key keep their order, and none is lost or made up.
  ghost predicate Stable(a: seq<Item>, b: seq<Item>) {
    forall key: string :: Keyed(a, key) == Keyed(b, key)
  }

  lemma {:induction false} KeyedHas(s: seq<Item>, i: nat)
    requires i < |s|
    ensures s[i] in Keyed(s, s[i].key)
  {
    if i > 0 {
      KeyedHas(s[1..], i - 1);
    }
  }

  lemma {:induction false} KeyedFrom(s: seq<Item>, key: string, x: Item)
    requires x in Keyed(s, key)
    ensures x in s && SameName(x.key, key)
  {
    if !(SameName(s[0].key, key) && x == s[0]) {
      KeyedFrom(s[1..], key, x);
      assert x in s[1..] ==> x in s;
    }
  }

  lemma HeadFirst(a: seq<Item>, b: seq<Item>)
    requires a != [] && b != [] && Sorted(b) && Stable(a, b)
    ensures CaseCompare(b[0].key, a[0].key) <= 0
  {
    KeyedHas(a, 0);
    KeyedFrom(b, a[0].key, a[0]);
    var i :| 0 <= i < |b| && b[i] == a[0];
    if i == 0 {
      CompareSame(b[0].key, b[0].key);
    } else {
      assert Before(b[0], b[i]);
    }
  }

  // Sortedness and stability leave no choice.
  lemma {:induction false} OnlyOneOrder(a: seq<Item>, b: seq<Item>)
    requires Sorted(a) && Sorted(b) && Stable(a, b)
    ensures a == b
  {
    if a == [] {
      if b != [] {
        KeyedHas(b, 0);
        assert false;
      }
    } else if b == [] {
      KeyedHas(a, 0);
      assert false;
    } else {
      HeadFirst(a, b);
      HeadFirst(b, a);
      CompareOpposite(a[0].key, b[0].key);
      CompareSame(a[0].key, b[0].key);
      var k := a[0].key;
      assert Keyed(a, k)[0] == Keyed(b, k)[0];
      forall key: string
        ensures Keyed(a[1..], key) == Keyed(b[1..], key)
      {
        var h := if SameName(a[0].key, key) then [a[0]] else [];
        assert Keyed(a, key) == h + Keyed(a[1..], key) && Keyed(b, key) == h + Keyed(b[1..], key);
        assert (h + Keyed(a[1..], key))[|h|..] == Keyed(a[1..], key);
        assert (h + Keyed(b[1..], key))[|h|..] == Keyed(b[1..], key);
      }
      OnlyOneOrder(a[1..], b[1..]);
      assert a == [a[0]] + a[1..] && b == [b[0]] + b[1..];
    }
  }

  lemma {:induction false} KeyedCount(s: seq<Item>, x: Item)
    ensures multiset(s)[x] == multiset(Keyed(s, x.key))[x]
  {
    if s != [] {
      KeyedCount(s[1..], x);
      assert s == [s[0]] + s[1..];
    }
  }

  lemma StablePermutes(a: seq<Item>, b: seq<Item>)
    requires Stable(a, b)
    ensures multiset(a) == multiset(b)
  {
    forall x: Item
      ensures multiset(a)[x] == multiset(b)[x]
    {
      KeyedCount(a, x);
      KeyedCount(b, x);
    }
  }

  // ---------------------------------------------------------------------------------- one swap

  function Swapped(s: seq<Item>, i: nat): seq<Item>
    requires i + 1 < |s|
  {
    s[i := s[i + 1]][i + 1 := s[i]]
  }

  // How many entries of s go before x.
  function Smaller(x: Item, s: seq<Item>): nat {
    if s == [] then 0 else (if Before(x, s[0]) then 0 else 1) + Smaller(x, s[1..])
  }

  // Pairs in the wrong order.
  function Inversions(s: seq<Item>): nat {
    if s == [] then 0 else Smaller(s[0], s[1..]) + Inversions(s[1..])
  }

  lemma SwapTail(s: seq<Item>, i: nat)
    requires 0 < i && i + 1 < |s|
    ensures Swapped(s, i)[0] == s[0] && Swapped(s, i)[1..] == Swapped(s[1..], i - 1)
  {
  }

  lemma SwapHead(s: seq<Item>)
    requires 1 < |s|
    ensures Swapped(s, 0)[0] == s[1] && Swapped(s, 0)[1] == s[0] && Swapped(s, 0)[1..][1..] == s[2..] == s[1..][1..]
    ensures Swapped(s, 0)[1..][0] == s[0] && s[1..][0] == s[1]
  {
  }

  lemma {:induction false} SwapSmaller(x: Item, s: seq<Item>, i: nat)
    requires i + 1 < |s|
    ensures Smaller(x, Swapped(s, i)) == Smaller(x, s)
  {
    if i == 0 {
      SwapHead(s);
    } else {
      SwapTail(s, i);
      SwapSmaller(x, s[1..], i - 1);
    }
  }

  // Every swap takes away one inversion.
  lemma {:induction false} SwapInversions(s: seq<Item>, i: nat)
    requires i + 1 < |s| && !Before(s[i], s[i + 1])
    ensures Inversions(s) == Inversions(Swapped(s, i)) + 1
  {
    if i == 0 {
      SwapHead(s);
      CompareOpposite(s[0].key, s[1].key);
    } else {
      SwapTail(s, i);
      SwapSmaller(s[0], s[1..], i - 1);
      SwapInversions(s[1..], i - 1);
    }
  }

  lemma {:induction false} SwapKeyed(s: seq<Item>, i: nat, key: string)
    requires i + 1 < |s| && !Before(s[i], s[i + 1])
    ensures Keyed(Swapped(s, i), key) == Keyed(s, key)
  {
    if i == 0 {
      SwapHead(s);
      CompareSame(s[0].key, s[1].key);
      assert !(SameName(s[0].key, key) && SameName(s[1].key, key));
    } else {
      SwapTail(s, i);
      SwapKeyed(s[1..], i - 1, key);
    }
  }

  lemma SwapStable(was: seq<Item>, s: seq<Item>, i: nat)
    requires i + 1 < |s| && !Before(s[i], s[i + 1]) && Stable(was, s)
    ensures Stable(was, Swapped(s, i))
  {
    forall key: string
      ensures Keyed(was, key) == Keyed(Swapped(s, i), key)
    {
      SwapKeyed(s, i, key);
    }
  }

  lemma {:induction false} AdjacentSorted(s: seq<Item>, i: nat, j: nat)
    requires forall k :: 0 <= k < |s| - 1 ==> Before(s[k], s[k + 1])
    requires i < j < |s|
    ensures Before(s[i], s[j])
  {
    if i + 1 < j {
      AdjacentSorted(s, i, j - 1);
      CompareTransitive(s[i].key, s[j - 1].key, s[j].key);
    }
  }

  // -------------------------------------------------------------------------- the code in place

  // The inner loop.
  method Pass(sorted: array<Item>) returns (reordered: nat)
    modifies sorted
    ensures Stable(old(sorted[..]), sorted[..])
    ensures Inversions(old(sorted[..])) == Inversions(sorted[..]) + reordered
    ensures reordered == 0 ==> sorted[..] == old(sorted[..])
    ensures reordered == 0 ==> forall k :: 0 <= k < sorted.Length - 1 ==> Before(sorted[..][k], sorted[..][k + 1])
  {
    ghost var was := sorted[..];
    reordered := 0;
    var i := 0;
    while i < sorted.Length - 1
      invariant 0 <= i && (i < sorted.Length || i == 0) && Stable(was, sorted[..])
      invariant Inversions(was) == Inversions(sorted[..]) + reordered
      invariant reordered == 0 ==> sorted[..] == was
      invariant reordered == 0 ==> forall k :: 0 <= k < i ==> Before(was[k], was[k + 1])
    {
      if CaseCompare(sorted[i].key, sorted[i + 1].key) > 0 {
        ghost var s := sorted[..];
        SwapStable(was, s, i);
        SwapInversions(s, i);
        var tmp := sorted[i];
        sorted[i] := sorted[i + 1];
        sorted[i + 1] := tmp;
        assert sorted[..] == Swapped(s, i);
        reordered := reordered + 1;
      }
      i := i + 1;
    }
  }

  // sort_items
  method SortItems(sorted: array<Item>)
    modifies sorted
    ensures Sorted(sorted[..]) && Stable(old(sorted[..]), sorted[..])
  {
    if sorted.Length < 2 {
      return;
    }
    ghost var was := sorted[..];
    var reordered := Pass(sorted);
    while reordered != 0
      invariant Stable(was, sorted[..])
      invariant reordered == 0 ==> forall k :: 0 <= k < sorted.Length - 1 ==> Before(sorted[..][k], sorted[..][k + 1])
      decreases Inversions(sorted[..]) + reordered
    {
      reordered := Pass(sorted);
    }
    forall i, j | 0 <= i < j < sorted.Length
      ensures Before(sorted[..][i], sorted[..][j])
    {
      AdjacentSorted(sorted[..], i, j);
    }
  }

  // The part of do_directory that makes the list a caller hears.
  method ListMatches(context: string, vmcfg: seq<Entry>, ucfg: seq<Entry>, ext: string, flags: Flags)
      returns (sorted: array<Item>)
    ensures Sorted(sorted[..]) && Stable(Found(context, vmcfg + ucfg, ext, flags), sorted[..])
  {
    var alist := SearchDirectorySub(context, vmcfg, ucfg, ext, flags, []);
    sorted := new Item[|alist|](i requires 0 <= i < |alist| => alist[i]);
    assert sorted[..] == alist == Found(context, vmcfg + ucfg, ext, flags);
    SortItems(sorted);
  }
}
