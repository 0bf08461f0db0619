/** Strings as the Go standard library treats them: splitting, cutting, searching, comparing,
    and reading and writing 64-bit decimal integers. */
module Text {

  datatype Option<+T> = None | Some(value: T)

  datatype Result<+T> = Ok(value: T) | Err(message: string)

  const INT64_MIN: int := -0x8000_0000_0000_0000
  const INT64_MAX: int := 0x7fff_ffff_ffff_ffff

  /** The 64-bit signed sum of two 64-bit signed integers. */
  function Add64(a: int, b: int): int {
    if a + b > INT64_MAX then a + b - 0x1_0000_0000_0000_0000
    else if a + b < INT64_MIN then a + b + 0x1_0000_0000_0000_0000
    else a + b
  }

  /* ---------- searching and splitting ---------- */

  predicate Lacks(s: string, c: char) {
    forall i | 0 <= i < |s| :: s[i] != c
  }

  predicate DashFree(s: string) {
    Lacks(s, '-')
  }

  /** The position of the first c in s, or |s| when there is none. */
  function IndexOf(s: string, c: char): (k: nat)
    ensures k <= |s| && (forall i | 0 <= i < k :: s[i] != c) && (k < |s| ==> s[k] == c)
  {
    if s == [] || s[0] == c then 0 else IndexOf(s[1..], c) + 1
  }

  /** A text of the form a + [c] + rest, with no c in a, is cut exactly there. */
  lemma CutIsUnique(a: string, rest: string, c: char)
    requires Lacks(a, c)
    ensures IndexOf(a + [c] + rest, c) == |a|
  {
    var s := a + [c] + rest;
    assert s[|a|] == c && forall i | 0 <= i < |a| :: s[i] == a[i];
  }

  /** strings.Split with a one-character separator. */
  function Split(s: string, c: char): (parts: seq<string>)
    ensures |parts| >= 1
    decreases |s|
  {
    var k := IndexOf(s, c);
    if k == |s| then [s] else [s[..k]] + Split(s[k + 1..], c)
  }

  lemma SplitWhole(a: string, c: char)
    requires Lacks(a, c)
    ensures Split(a, c) == [a]
  {
    assert IndexOf(a, c) == |a|;
  }

  lemma SplitHead(a: string, rest: string, c: char)
    requires Lacks(a, c)
    ensures Split(a + [c] + rest, c) == [a] + Split(rest, c)
  {
    CutIsUnique(a, rest, c);
    var s := a + [c] + rest;
    assert s[..|a|] == a && s[|a| + 1..] == rest;
  }

  /** strings.SplitN(s, c, 2): both halves around the first separator, if there is one. */
  function SplitPair(s: string, c: char): Option<(string, string)> {
    var k := IndexOf(s, c);
    if k == |s| then None else Some((s[..k], s[k + 1..]))
  }

  lemma SplitPairOf(a: string, rest: string, c: char)
    requires Lacks(a, c)
    ensures SplitPair(a + [c] + rest, c) == Some((a, rest))
  {
    CutIsUnique(a, rest, c);
    var s := a + [c] + rest;
    assert s[..|a|] == a && s[|a| + 1..] == rest;
  }

  lemma SplitPairLaw(s: string, c: char)
    ensures var p := SplitPair(s, c);
            (p.Some? ==> s == p.value.0 + [c] + p.value.1 && Lacks(p.value.0, c)) && (p.None? <==> Lacks(s, c))
  {
    var k := IndexOf(s, c);
    if k < |s| {
      assert s == s[..k] + [c] + s[k + 1..];
    }
  }

  /** The first position where sub occurs in s, or |s| + 1 when it does not. */
  function IndexOfText(s: string, sub: string): (k: nat)
    ensures k <= |s| ==> sub <= s[k..]
    ensures forall i | 0 <= i < k && i <= |s| :: !(sub <= s[i..])
  {
    if sub <= s then 0
    else if s == "" then 1
    else
      var k := IndexOfText(s[1..], sub);
      assert forall i | 1 <= i <= |s| :: s[i..] == s[1..][i - 1..];
      k + 1
  }

  /** strings.Split with a separator text. */
  function SplitOn(s: string, sep: string): (parts: seq<string>)
    requires sep != ""
    decreases |s|
  {
    var k := IndexOfText(s, sep);
    if k > |s| then [s] else [s[..k]] + SplitOn(s[k + |sep|..], sep)
  }

  /** strings.Contains. */
  predicate Contains(s: string, sub: string) {
    exists i | 0 <= i <= |s| :: sub <= s[i..]
  }

  /** A text contains another one when that stands somewhere between a beginning and an end. */
  lemma ContainsMeans(s: string, sub: string)
    ensures Contains(s, sub) <==> exists before, after :: s == before + sub + after
  {
    if Contains(s, sub) {
      var i :| 0 <= i <= |s| && sub <= s[i..];
      assert s == s[..i] + sub + s[i + |sub|..];
    }
    if exists before, after :: s == before + sub + after {
      var before, after :| s == before + sub + after;
      assert s[|before|..] == sub + after;
    }
  }

  lemma ContainsIff(s: string, sub: string)
    ensures Contains(s, sub) <==> IndexOfText(s, sub) <= |s|
  {}

  /** Splitting gives two parts exactly when the separator is there and not there again behind its first place. */
  lemma {:induction false} SplitInTwoIff(s: string, sep: string)
    requires sep != ""
    ensures var k := IndexOfText(s, sep);
            && (|SplitOn(s, sep)| == 2 <==> Contains(s, sep) && !Contains(s[k + |sep|..], sep))
            && (|SplitOn(s, sep)| == 2 ==> SplitOn(s, sep) == [s[..k], s[k + |sep|..]])
  {
    ContainsIff(s, sep);
    var k := IndexOfText(s, sep);
    if k <= |s| {
      ContainsIff(s[k + |sep|..], sep);
      SplitAtFirst(s, sep, SplitOn(s, sep), s[k + |sep|..], SplitOn(s[k + |sep|..], sep));
    } else {
      SplitOnIsNonEmpty(s, sep);
    }
  }

  lemma {:induction false} SplitAtFirst(s: string, sep: string, parts: seq<string>, rest: string, more: seq<string>)
    requires sep != "" && IndexOfText(s, sep) <= |s| && rest == s[IndexOfText(s, sep) + |sep|..]
    requires parts == SplitOn(s, sep) && more == SplitOn(rest, sep)
    ensures |parts| == 2 <==> IndexOfText(rest, sep) > |rest|
    ensures |parts| == 2 ==> parts == [s[..IndexOfText(s, sep)], rest]
  {
    SplitOnCut(s, sep);
    SplitOnIsNonEmpty(rest, sep);
    JoinedParts(s[..IndexOfText(s, sep)], more, parts);
  }

  lemma JoinedParts(head: string, more: seq<string>, parts: seq<string>)
    requires parts == [head] + more
    ensures |parts| == 1 + |more| && (|more| == 1 ==> parts == [head, more[0]])
  {}

  lemma {:induction false} SplitOnCut(s: string, sep: string)
    requires sep != "" && IndexOfText(s, sep) <= |s|
    ensures var k := IndexOfText(s, sep); SplitOn(s, sep) == [s[..k]] + SplitOn(s[k + |sep|..], sep)
  {}

  lemma {:induction false} SplitOnIsNonEmpty(s: string, sep: string)
    requires sep != ""
    ensures |SplitOn(s, sep)| >= 1 && (|SplitOn(s, sep)| == 1 <==> IndexOfText(s, sep) > |s|)
    ensures IndexOfText(s, sep) > |s| ==> SplitOn(s, sep) == [s]
    decreases |s|
  {
    var k := IndexOfText(s, sep);
    if k <= |s| {
      SplitOnCut(s, sep);
      SplitOnIsNonEmpty(s[k + |sep|..], sep);
    }
  }

  /* ---------- joining with dashes ---------- */

  function JoinDash(parts: seq<string>): string
    requires |parts| >= 1
  {
    if |parts| == 1 then parts[0] else parts[0] + ['-'] + JoinDash(parts[1..])
  }

  /** Splitting inverts joining when no part holds a dash. */
  lemma {:induction false} SplitJoined(parts: seq<string>)
    requires |parts| >= 1 && forall p | p in parts :: DashFree(p)
    ensures Split(JoinDash(parts), '-') == parts
    decreases |parts|
  {
    assert DashFree(parts[0]);
    if |parts| == 1 {
      SplitWhole(parts[0], '-');
    } else {
      SplitHead(parts[0], JoinDash(parts[1..]), '-');
      SplitJoined(parts[1..]);
    }
  }

  lemma {:induction false} JoinAppend(parts: seq<string>, last: string)
    requires |parts| >= 1
    ensures JoinDash(parts + [last]) == JoinDash(parts) + "-" + last
    decreases |parts|
  {
    if |parts| == 1 {
      assert JoinDash([parts[0], last]) == parts[0] + ['-'] + JoinDash([parts[0], last][1..]);
    } else {
      JoinAppend(parts[1..], last);
      assert (parts + [last])[1..] == parts[1..] + [last];
      var head, tail := parts[0] + ['-'], JoinDash(parts[1..]);
      assert JoinDash(parts + [last]) == head + (tail + "-" + last);
      assert head + (tail + "-" + last) == head + tail + "-" + last;
    }
  }

  /* ---------- decimal integers ---------- */

  predicate IsDigit(c: char) {
    '0' <= c <= '9'
  }

  predicate AllDigits(s: string) {
    forall i | 0 <= i < |s| :: IsDigit(s[i])
  }

  function DigitChar(d: nat): (c: char)
    requires d < 10
    ensures IsDigit(c) && c as int - '0' as int == d
  {
    ('0' as int + d) as char
  }

  /** Decimal digits of n without leading zeros. */
  function NatText(n: nat): (s: string)
    ensures s != "" && AllDigits(s)
  {
    if n < 10 then [DigitChar(n)] else NatText(n / 10) + [DigitChar(n % 10)]
  }

  function NatValue(s: string): nat
    requires AllDigits(s)
  {
    if s == [] then 0 else NatValue(s[..|s| - 1]) * 10 + (s[|s| - 1] as int - '0' as int)
  }

  lemma {:induction false} NatRoundTrip(n: nat)
    ensures NatValue(NatText(n)) == n
  {
    var s := NatText(n);
    if n < 10 {
      assert s[..0] == [];
    } else {
      NatRoundTrip(n / 10);
      assert s[..|s| - 1] == NatText(n / 10);
    }
  }

  /** strconv.Itoa. */
  function Itoa(n: int): string {
    if n < 0 then "-" + NatText(-n) else NatText(n)
  }

  /** An optional sign, at least one digit, nothing else. */
  function ParseInt(s: string): Option<int> {
    var signed := s != "" && (s[0] == '-' || s[0] == '+');
    var digits := if signed then s[1..] else s;
    if digits == "" || !AllDigits(digits) then None else
      var magnitude: int := NatValue(digits);
      Some(if signed && s[0] == '-' then -magnitude else magnitude)
  }

  /** strconv.Atoi: such a text whose value fits 64 bits. */
  function Atoi(s: string): (r: Option<int>)
    ensures r.Some? ==> INT64_MIN <= r.value <= INT64_MAX
  {
    var v := ParseInt(s);
    if v.Some? && INT64_MIN <= v.value <= INT64_MAX then v else None
  }

  lemma ParseItoa(n: int)
    ensures ParseInt(Itoa(n)) == Some(n)
  {
    if n < 0 {
      NatRoundTrip(-n);
      assert Itoa(n)[1..] == NatText(-n);
    } else {
      NatRoundTrip(n);
      assert IsDigit(Itoa(n)[0]);
    }
  }

  /** Reading back a written integer gives it again. */
  lemma AtoiItoa(n: int)
    requires INT64_MIN <= n <= INT64_MAX
    ensures Atoi(Itoa(n)) == Some(n)
  {
    ParseItoa(n);
  }

  lemma {:induction false} LeadingZeroValue(s: string)
    requires AllDigits(s)
    ensures AllDigits("0" + s) && NatValue("0" + s) == NatValue(s)
    decreases |s|
  {
    var t := "0" + s;
    assert forall i | 0 <= i < |s| :: t[i + 1] == s[i];
    assert forall i | 0 <= i < |t| :: IsDigit(t[i]) by {
      assert forall i | 0 < i < |t| :: t[i] == s[i - 1];
    }
    if s == "" {
      assert t[..0] == [];
    } else {
      LeadingZeroValue(s[..|s| - 1]);
      assert t[..|t| - 1] == "0" + s[..|s| - 1];
    }
  }

  /** A leading zero is read and ignored. */
  lemma AtoiLeadingZero(n: nat)
    requires n <= INT64_MAX
    ensures Atoi("0" + Itoa(n)) == Some(n)
  {
    LeadingZeroValue(NatText(n));
    NatRoundTrip(n);
  }

  lemma NatTextIsDashFree(n: nat)
    ensures DashFree(NatText(n))
  {
    var s := NatText(n);
    forall i | 0 <= i < |s| ensures s[i] != '-' {
      assert IsDigit(s[i]);
    }
  }

  /* ---------- Go's string order ---------- */

  predicate StrLess(a: string, b: string) {
    if b == "" then false
    else if a == "" then true
    else a[0] < b[0] || (a[0] == b[0] && StrLess(a[1..], b[1..]))
  }

  /** a is a proper prefix of b, or at the first place where they differ a has the smaller character. */
  ghost predicate Precedes(a: string, b: string) {
    a < b || exists k | 0 <= k < |a| && k < |b| :: a[..k] == b[..k] && a[k] < b[k]
  }

  lemma DiffersAtHead(a: string, b: string)
    requires a != "" && b != "" && a[0] != b[0]
    ensures Precedes(a, b) <==> a[0] < b[0]
  {
    if a[0] < b[0] {
      assert a[..0] == b[..0];
    }
    forall k | 0 < k < |a| && k < |b| ensures a[..k] != b[..k] {
      assert a[..k][0] == a[0] && b[..k][0] == b[0];
    }
  }

  lemma TailPrecedes(a: string, b: string, k: nat)
    requires 0 < k < |a| && k < |b| && a[..k] == b[..k] && a[k] < b[k]
    ensures Precedes(a[1..], b[1..])
  {
    var c, d := a[1..], b[1..];
    assert c[..k - 1] == a[..k][1..] && d[..k - 1] == b[..k][1..];
    assert c[k - 1] < d[k - 1];
  }

  lemma WholePrecedes(a: string, b: string, k: nat)
    requires a != "" && b != "" && a[0] == b[0] && k < |a| - 1 && k < |b| - 1
    requires a[1..][..k] == b[1..][..k] && a[1..][k] < b[1..][k]
    ensures Precedes(a, b)
  {
    assert a[..k + 1] == [a[0]] + a[1..][..k] && b[..k + 1] == [b[0]] + b[1..][..k];
    assert a[k + 1] < b[k + 1];
  }

  lemma SameHead(a: string, b: string)
    requires a != "" && b != "" && a[0] == b[0]
    ensures Precedes(a, b) <==> Precedes(a[1..], b[1..])
  {
    var c, d := a[1..], b[1..];
    assert a == [a[0]] + c && b == [a[0]] + d;
    assert a < b <==> c < d;
    if Precedes(a, b) && !(a < b) {
      var k :| 0 <= k < |a| && k < |b| && a[..k] == b[..k] && a[k] < b[k];
      TailPrecedes(a, b, k);
    }
    if Precedes(c, d) && !(c < d) {
      var k :| 0 <= k < |c| && k < |d| && c[..k] == d[..k] && c[k] < d[k];
      WholePrecedes(a, b, k);
    }
  }

  /** Go compares strings from left to right, by character, a prefix before what it begins. */
  lemma {:induction false} StrLessIff(a: string, b: string)
    ensures StrLess(a, b) <==> Precedes(a, b)
    decreases |a|
  {
    if a != "" && b != "" {
      if a[0] == b[0] {
        SameHead(a, b);
        StrLessIff(a[1..], b[1..]);
      } else {
        DiffersAtHead(a, b);
      }
    }
  }

  lemma {:induction false} StrOrderIsTotal(a: string, b: string)
    ensures !(StrLess(a, b) && StrLess(b, a))
    ensures !StrLess(a, b) && !StrLess(b, a) ==> a == b
    decreases |a|
  {
    if a != "" && b != "" {
      StrOrderIsTotal(a[1..], b[1..]);
      assert a == [a[0]] + a[1..] && b == [b[0]] + b[1..];
    }
  }

  lemma {:induction false} StrOrderIsTransitive(a: string, b: string, c: string)
    ensures StrLess(a, b) && StrLess(b, c) ==> StrLess(a, c)
    decreases |a|
  {
    if a != "" && b != "" && c != "" {
      StrOrderIsTransitive(a[1..], b[1..], c[1..]);
    }
  }
}
