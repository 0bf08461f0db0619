/** Deduplication in the slices' own storage (staging/nativenode/v1beta1/defaults.go). A slice is an array
    and a length. */
module Dedup {
  import opened Text

  /* ---------- removeDuplicate ---------- */

  /** Position k holds something, for the first time. */
  predicate IsFirst<T(==,!new)>(s: seq<T>, empty: T, k: nat)
    requires k < |s|
  {
    s[k] != empty && forall l | 0 <= l < k :: s[l] != s[k]
  }

  /** The first occurrences among the first n elements, in order. */
  function FirstsUpTo<T(==,!new)>(s: seq<T>, empty: T, n: nat): (r: seq<T>)
    requires n <= |s|
    ensures |r| <= n
  {
    if n == 0 then []
    else FirstsUpTo(s, empty, n - 1) + if IsFirst(s, empty, n - 1) then [s[n - 1]] else []
  }

  function Firsts<T(==,!new)>(s: seq<T>, empty: T): seq<T> {
    FirstsUpTo(s, empty, |s|)
  }

  lemma {:induction false} FirstsHold<T(!new)>(s: seq<T>, empty: T, n: nat)
    requires n <= |s|
    ensures forall x :: x in FirstsUpTo(s, empty, n) <==> x in s[..n] && x != empty
    decreases n
  {
    if n > 0 {
      FirstsHold(s, empty, n - 1);
      assert s[..n] == s[..n - 1] + [s[n - 1]];
      assert forall l | 0 <= l < n - 1 :: s[..n - 1][l] == s[l];
    }
  }

  predicate Distinct<T(==,!new)>(s: seq<T>, empty: T) {
    forall k | 0 <= k < |s| :: IsFirst(s, empty, k)
  }

  lemma DistinctAppend<T(!new)>(before: seq<T>, empty: T, last: T)
    requires Distinct(before, empty) && last != empty && last !in before
    ensures Distinct(before + [last], empty)
  {
    var r := before + [last];
    forall k | 0 <= k < |r| ensures IsFirst(r, empty, k) {
      if k < |before| {
        assert IsFirst(before, empty, k);
      } else {
        assert forall l | 0 <= l < k :: r[l] == before[l] && before[l] in before;
      }
    }
  }

  lemma {:induction false} FirstsAreDistinct<T(!new)>(s: seq<T>, empty: T, n: nat)
    requires n <= |s|
    ensures Distinct(FirstsUpTo(s, empty, n), empty)
    decreases n
  {
    if n > 0 {
      FirstsAreDistinct(s, empty, n - 1);
      var before := FirstsUpTo(s, empty, n - 1);
      if IsFirst(s, empty, n - 1) {
        FirstsHold(s, empty, n - 1);
        DistinctAppend(before, empty, s[n - 1]);
      } else {
        assert FirstsUpTo(s, empty, n) == before;
      }
    }
  }

  lemma {:induction false} DistinctStays<T(!new)>(s: seq<T>, empty: T, n: nat)
    requires Distinct(s, empty) && n <= |s|
    ensures FirstsUpTo(s, empty, n) == s[..n]
    decreases n
  {
    if n > 0 {
      DistinctStays(s, empty, n - 1);
      assert IsFirst(s, empty, n - 1);
      assert s[..n] == s[..n - 1] + [s[n - 1]];
    }
  }

  /** Deduplicating twice is deduplicating once, and nothing but empties goes missing. */
  lemma FirstsLaws<T(!new)>(s: seq<T>, empty: T)
    ensures Firsts(Firsts(s, empty), empty) == Firsts(s, empty)
    ensures forall x :: x in Firsts(s, empty) <==> x in s && x != empty
    ensures Distinct(Firsts(s, empty), empty)
    ensures Distinct(s, empty) ==> Firsts(s, empty) == s
  {
    FirstsHold(s, empty, |s|);
    assert s[..|s|] == s;
    FirstsAreDistinct(s, empty, |s|);
    var r := Firsts(s, empty);
    DistinctStays(r, empty, |r|);
    assert r[..|r|] == r;
    if Distinct(s, empty) {
      DistinctStays(s, empty, |s|);
    }
  }

  /** The scan compacts the slice within itself: it only writes below where it reads, and leaves everything from
      the new length on as it was. */
  method RemoveDuplicate<T(==,!new)>(s: array<T>, len: nat, empty: T) returns (n: nat)
    requires len <= s.Length
    modifies s
    ensures n <= len && s[..n] == Firsts(old(s[..len]), empty) && s[n..] == old(s[n..])
  {
    ghost var was := s[..len];
    var m: set<T> := {};
    n := 0;
    for k := 0 to len
      invariant n <= k && s[..n] == FirstsUpTo(was, empty, k)
      invariant s[n..] == old(s[n..])
      invariant forall x :: x in m <==> x in was[..k] && x != empty
    {
      var v := s[k];
      assert v == s[n..][k - n] == old(s[n..])[k - n] == was[k];
      assert was[..k + 1] == was[..k] + [was[k]];
      assert (v !in m && v != empty) <==> IsFirst(was, empty, k) by {
        assert forall l | 0 <= l < k :: was[..k][l] == was[l];
      }
      if v != empty && v !in m {
        ghost var rest := s[n..];
        s[n] := v;
        assert s[..n + 1] == s[..n] + [v];
        assert s[n + 1..] == rest[1..];
        n := n + 1;
        m := m + {v};
      }
    }
  }

  /* ---------- RemoveDuplicateKVPairs ---------- */

  predicate HasKey(line: string) {
    SplitPair(line, '=').Some?
  }

  function KeyOf(line: string): string
    requires HasKey(line)
  {
    SplitPair(line, '=').value.0
  }

  /** Line k is the last well-formed line of its key. */
  predicate IsLast(lines: seq<string>, k: nat)
    requires k < |lines|
  {
    HasKey(lines[k]) && forall l | k < l < |lines| && HasKey(lines[l]) :: KeyOf(lines[l]) != KeyOf(lines[k])
  }

  /** The lines from k on that are last of their keys, in order. */
  function LastsFrom(lines: seq<string>, k: nat): seq<string>
    requires k <= |lines|
    decreases |lines| - k
  {
    if k == |lines| then []
    else (if IsLast(lines, k) then [lines[k]] else []) + LastsFrom(lines, k + 1)
  }

  function Lasts(lines: seq<string>): seq<string> {
    LastsFrom(lines, 0)
  }

  function Reversed<T>(s: seq<T>): (r: seq<T>)
    ensures |r| == |s| && forall k | 0 <= k < |s| :: r[k] == s[|s| - 1 - k]
  {
    seq(|s|, k requires 0 <= k < |s| => s[|s| - 1 - k])
  }

  method ReverseInPlace<T>(a: array<T>)
    modifies a
    ensures a[..] == Reversed(old(a[..]))
  {
    var i, j := 0, a.Length - 1;
    while i < j
      invariant 0 <= i <= j + 1 && i + j == a.Length - 1
      invariant forall k | 0 <= k < i || j < k < a.Length :: a[k] == old(a[a.Length - 1 - k])
      invariant forall k | i <= k <= j :: a[k] == old(a[k])
    {
      a[i], a[j] := a[j], a[i];
      i, j := i + 1, j - 1;
    }
  }

  lemma ReversedCons<T(!new)>(x: T, rest: seq<T>)
    ensures Reversed([x] + rest) == Reversed(rest) + [x]
  {}

  lemma ReversedTwice<T(!new)>(s: seq<T>)
    ensures Reversed(Reversed(s)) == s
  {}

  function KeysFrom(lines: seq<string>, k: nat): set<string>
    requires k <= |lines|
  {
    set l | k <= l < |lines| && HasKey(lines[l]) :: KeyOf(lines[l])
  }

  /** What one more line, read backwards, adds. */
  lemma LineStep(lines: seq<string>, k: nat)
    requires k < |lines|
    ensures if !HasKey(lines[k]) || KeyOf(lines[k]) in KeysFrom(lines, k + 1) then
              LastsFrom(lines, k) == LastsFrom(lines, k + 1) && KeysFrom(lines, k) == KeysFrom(lines, k + 1)
            else
              && LastsFrom(lines, k) == [lines[k]] + LastsFrom(lines, k + 1)
              && KeysFrom(lines, k) == KeysFrom(lines, k + 1) + {KeyOf(lines[k])}
  {
    if HasKey(lines[k]) {
      assert KeyOf(lines[k]) in KeysFrom(lines, k + 1) <==> !IsLast(lines, k);
      assert KeysFrom(lines, k) == KeysFrom(lines, k + 1) + {KeyOf(lines[k])};
    } else {
      assert KeysFrom(lines, k) == KeysFrom(lines, k + 1);
    }
  }

  /** After reading the last n lines, backwards. */
  ghost predicate ReadBack(lines: seq<string>, n: nat, kept: seq<string>, keys: set<string>)
    requires n <= |lines|
  {
    kept == Reversed(LastsFrom(lines, |lines| - n)) && keys == KeysFrom(lines, |lines| - n)
  }

  predicate KeptLine(line: string, kept: seq<string>, keys: set<string>, after: seq<string>, seen: set<string>) {
    if !HasKey(line) || KeyOf(line) in keys then after == kept && seen == keys
    else after == kept + [line] && seen == keys + {KeyOf(line)}
  }

  lemma ReadBackStep(lines: seq<string>, reversed: seq<string>, n: nat, kept: seq<string>, keys: set<string>,
                     after: seq<string>, seen: set<string>)
    requires n < |lines| && reversed == Reversed(lines) && ReadBack(lines, n, kept, keys)
    requires KeptLine(reversed[n], kept, keys, after, seen)
    ensures ReadBack(lines, n + 1, after, seen)
  {
    var at := |lines| - n - 1;
    assert reversed[n] == lines[at];
    LineStep(lines, at);
    ReversedCons(lines[at], LastsFrom(lines, at + 1));
  }

  /** One turn of the scan: the line is split, and joined again when its key is new. */
  method KeepLine(line: string, kept: seq<string>, keys: set<string>) returns (r: seq<string>, seen: set<string>)
    ensures KeptLine(line, kept, keys, r, seen)
  {
    var pair := SplitPair(line, '=');
    if pair.None? || pair.value.0 in keys {
      return kept, keys;
    }
    SplitPairLaw(line, '=');
    assert pair.value.0 + "=" + pair.value.1 == line;
    return kept + [pair.value.0 + "=" + pair.value.1], keys + {pair.value.0};
  }

  /** Reverse, keep the first line of every key, reverse back. The caller's slice is left reversed. */
  method RemoveDuplicateKVPairs(lines: array<string>) returns (res: seq<string>)
    modifies lines
    ensures res == Lasts(old(lines[..]))
    ensures lines[..] == Reversed(old(lines[..]))
  {
    ghost var was := lines[..];
    ReverseInPlace(lines);
    var kept: seq<string> := [];
    var keys: set<string> := {};
    for k := 0 to lines.Length
      invariant lines[..] == Reversed(was) && ReadBack(was, k, kept, keys)
    {
      var after, seen := KeepLine(lines[k], kept, keys);
      ReadBackStep(was, lines[..], k, kept, keys, after, seen);
      kept, keys := after, seen;
    }
    ReversedTwice(Lasts(was));
    res := ReverseCopy(kept);
  }

  method ReverseCopy(s: seq<string>) returns (r: seq<string>)
    ensures r == Reversed(s)
  {
    var a := new string[|s|](k requires 0 <= k < |s| => s[k]);
    assert a[..] == s;
    ReverseInPlace(a);
    r := a[..];
  }

  lemma {:induction false} LastsHold(lines: seq<string>, k: nat)
    requires k <= |lines|
    ensures forall x :: x in LastsFrom(lines, k) <==> exists l | k <= l < |lines| :: IsLast(lines, l) && x == lines[l]
    decreases |lines| - k
  {
    if k < |lines| {
      LastsHold(lines, k + 1);
    }
  }

  ghost predicate DistinctKeys(lines: seq<string>) {
    forall k | 0 <= k < |lines| :: IsLast(lines, k)
  }

  lemma DistinctKeysPrepend(first: string, rest: seq<string>)
    requires DistinctKeys(rest) && HasKey(first)
    requires forall x | x in rest :: HasKey(x) && KeyOf(x) != KeyOf(first)
    ensures DistinctKeys([first] + rest)
  {
    var r := [first] + rest;
    assert forall j | 0 < j < |r| :: r[j] == rest[j - 1] && rest[j - 1] in rest;
    forall l | 0 <= l < |r| ensures IsLast(r, l) {
      if l > 0 {
        assert IsLast(rest, l - 1);
      }
    }
  }

  lemma {:induction false} LastsAreDistinct(lines: seq<string>, k: nat)
    requires k <= |lines|
    ensures DistinctKeys(LastsFrom(lines, k))
    decreases |lines| - k
  {
    if k < |lines| {
      LastsAreDistinct(lines, k + 1);
      if IsLast(lines, k) {
        LastsHold(lines, k + 1);
        DistinctKeysPrepend(lines[k], LastsFrom(lines, k + 1));
      } else {
        assert LastsFrom(lines, k) == LastsFrom(lines, k + 1);
      }
    }
  }

  lemma {:induction false} DistinctKeysStay(lines: seq<string>, k: nat)
    requires DistinctKeys(lines) && k <= |lines|
    ensures LastsFrom(lines, k) == lines[k..]
    decreases |lines| - k
  {
    if k < |lines| {
      DistinctKeysStay(lines, k + 1);
      assert IsLast(lines, k);
    }
  }

  /** Exactly the last well-formed line of each key is kept, and a second run changes nothing. */
  lemma LastsLaws(lines: seq<string>)
    ensures forall x :: x in Lasts(lines) <==> exists l | 0 <= l < |lines| :: IsLast(lines, l) && x == lines[l]
    ensures Lasts(Lasts(lines)) == Lasts(lines)
    ensures DistinctKeys(Lasts(lines))
  {
    LastsHold(lines, 0);
    LastsAreDistinct(lines, 0);
    DistinctKeysStay(Lasts(lines), 0);
  }

  lemma {:induction false} LastLineIsLast(lines: seq<string>, k: nat)
    requires k < |lines| && HasKey(lines[|lines| - 1])
    ensures LastsFrom(lines, k) != []
    ensures LastsFrom(lines, k)[|LastsFrom(lines, k)| - 1] == lines[|lines| - 1]
    decreases |lines| - k
  {
    if k < |lines| - 1 {
      LastLineIsLast(lines, k + 1);
      var rest := LastsFrom(lines, k + 1);
      assert LastsFrom(lines, k) == if IsLast(lines, k) then [lines[k]] + rest else rest;
    } else {
      assert LastsFrom(lines, k + 1) == [] && LastsFrom(lines, k) == [lines[k]];
    }
  }

  /** A final well-formed line survives whatever precedes it, as the last line and the only one of its key. */
  lemma FinalLineSurvives(lines: seq<string>)
    requires lines != [] && HasKey(lines[|lines| - 1])
    ensures var r := Lasts(lines);
            && r != [] && r[|r| - 1] == lines[|lines| - 1]
            && forall k | 0 <= k < |r| - 1 :: HasKey(r[k]) && KeyOf(r[k]) != KeyOf(lines[|lines| - 1])
  {
    LastLineIsLast(lines, 0);
    LastsLaws(lines);
    var r := Lasts(lines);
    forall k | 0 <= k < |r| - 1 ensures HasKey(r[k]) && KeyOf(r[k]) != KeyOf(lines[|lines| - 1]) {
      assert IsLast(r, k);
    }
  }
}
