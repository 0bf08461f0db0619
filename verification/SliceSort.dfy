/** What the code relies on from sort.Slice: the slice is permuted in place until it is ordered. */
module SliceSort {

  /** What sort.Slice asks of its comparison. */
  ghost predicate StrictWeakOrder<T(!new)>(less: (T, T) -> bool) {
    && (forall x, y :: less(x, y) ==> !less(y, x))
    && (forall x, y, z :: !less(x, y) && !less(y, z) ==> !less(x, z))
  }

  ghost predicate Ordered<T(!new)>(less: (T, T) -> bool, s: seq<T>) {
    forall i, j | 0 <= i < j < |s| :: !less(s[j], s[i])
  }

  /** The outcome sort.Slice promises, whatever algorithm it uses. */
  ghost predicate SortedFrom<T(!new)>(less: (T, T) -> bool, s: seq<T>, sorted: seq<T>) {
    Ordered(less, sorted) && multiset(sorted) == multiset(s)
  }

  method Swap<T>(a: array<T>, i: nat, j: nat)
    requires i < j < a.Length
    modifies a
    ensures a[..] == old(a[..])[i := old(a[j])][j := old(a[i])]
    ensures multiset(a[..]) == multiset(old(a[..]))
  {
    a[i], a[j] := a[j], a[i];
  }

  /** Everything up to n is ordered, apart from the element at hole that is still sinking. */
  ghost predicate OrderedBut<T(!new)>(less: (T, T) -> bool, s: seq<T>, n: nat, hole: nat) {
    n < |s| && forall i, j | 0 <= i < j <= n && j != hole :: !less(s[j], s[i])
  }

  /** Swapping an element one place down keeps the rest ordered. */
  lemma SinkStep<T(!new)>(less: (T, T) -> bool, s: seq<T>, t: seq<T>, n: nat, hole: nat)
    requires StrictWeakOrder(less) && OrderedBut(less, s, n, hole) && 0 < hole <= n
    requires less(s[hole], s[hole - 1]) && t == s[hole - 1 := s[hole]][hole := s[hole - 1]]
    ensures OrderedBut(less, t, n, hole - 1)
  {
  }

  lemma SinkDone<T(!new)>(less: (T, T) -> bool, s: seq<T>, n: nat, hole: nat)
    requires StrictWeakOrder(less) && OrderedBut(less, s, n, hole) && hole <= n
    requires hole == 0 || !less(s[hole], s[hole - 1])
    ensures Ordered(less, s[..n + 1])
  {
    forall i, j | 0 <= i < j <= n ensures !less(s[j], s[i]) {
      if j == hole && i < hole - 1 {
        assert !less(s[hole - 1], s[i]);
      }
    }
  }

  method Slice<T(!new)>(a: array<T>, less: (T, T) -> bool)
    requires StrictWeakOrder(less)
    modifies a
    ensures SortedFrom(less, old(a[..]), a[..])
  {
    var n := 0;
    while n < a.Length
      invariant n <= a.Length
      invariant Ordered(less, a[..n])
      invariant multiset(a[..]) == multiset(old(a[..]))
    {
      assert forall i | 0 <= i < n :: a[..n][i] == a[..][i];
      var hole := n;
      while hole > 0 && less(a[hole], a[hole - 1])
        invariant hole <= n
        invariant OrderedBut(less, a[..], n, hole)
        invariant multiset(a[..]) == multiset(old(a[..]))
      {
        ghost var before := a[..];
        Swap(a, hole - 1, hole);
        SinkStep(less, before, a[..], n, hole);
        hole := hole - 1;
      }
      SinkDone(less, a[..], n, hole);
      assert a[..n + 1] == a[..][..n + 1];
      n := n + 1;
    }
    assert a[..n] == a[..];
  }

  /** The first of an ordered permutation is minimal in the input. */
  lemma FirstIsMinimal<T(!new)>(less: (T, T) -> bool, s: seq<T>, sorted: seq<T>)
    requires StrictWeakOrder(less) && SortedFrom(less, s, sorted) && s != []
    ensures sorted != [] && sorted[0] in s && forall x | x in s :: !less(x, sorted[0])
  {
    assert |multiset(s)| == |s| && |multiset(sorted)| == |sorted|;
    forall x | x in s ensures x in sorted {
      assert x in multiset(s);
    }
    assert sorted[0] in multiset(sorted);
  }

  lemma HeadsAgree<T(!new)>(less: (T, T) -> bool, s: seq<T>, t: seq<T>)
    requires Ordered(less, s) && Ordered(less, t) && multiset(s) == multiset(t) && s != [] && t != []
    requires forall x, y | x in s && y in s && !less(x, y) && !less(y, x) :: x == y
    ensures s[0] == t[0]
  {
    assert t[0] in multiset(t) && s[0] in multiset(s);
    assert t[0] in s && s[0] in t;
  }

  lemma TailsAgree<T>(s: seq<T>, t: seq<T>)
    requires s != [] && t != [] && s[0] == t[0] && multiset(s) == multiset(t)
    ensures multiset(s[1..]) == multiset(t[1..])
  {
    assert s == [s[0]] + s[1..] && t == [t[0]] + t[1..];
    assert multiset(s[1..]) == multiset(s) - multiset{s[0]};
    assert multiset(t[1..]) == multiset(t) - multiset{t[0]};
  }

  /** When ties are only between equal elements, the order the input arrives in does not matter. */
  lemma {:induction false} SortedIsUnique<T(!new)>(less: (T, T) -> bool, s: seq<T>, t: seq<T>)
    requires Ordered(less, s) && Ordered(less, t) && multiset(s) == multiset(t)
    requires forall x, y | x in s && y in s && !less(x, y) && !less(y, x) :: x == y
    ensures s == t
    decreases |s|
  {
    assert |multiset(s)| == |s| && |multiset(t)| == |t|;
    if s != [] {
      HeadsAgree(less, s, t);
      TailsAgree(s, t);
      SortedIsUnique(less, s[1..], t[1..]);
      assert s == [s[0]] + s[1..] && t == [t[0]] + t[1..];
    }
  }
}
