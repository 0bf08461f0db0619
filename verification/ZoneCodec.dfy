/** Zone names ("ap-guangzhou-3") and zone IDs ("100003"): the codec of pkg/providers/zone/zone.go
    over an arbitrary region table. */
module ZoneCodec {
  import opened Text

  /** The tables the codec works for: names of two or three dash-free parts, windows that never overlap. */
  ghost predicate Disjoint(zoneGroups: map<string, int>) {
    forall r, q | r in zoneGroups && q in zoneGroups && r != q ::
      zoneGroups[r] + 1000 <= zoneGroups[q] || zoneGroups[q] + 1000 <= zoneGroups[r]
  }

  ghost predicate RegionName(r: string) {
    exists parts: seq<string> ::
      2 <= |parts| <= 3 && (forall p | p in parts :: DashFree(p)) && r == JoinDash(parts)
  }

  ghost predicate ValidTable(zoneGroups: map<string, int>) {
    && Disjoint(zoneGroups)
    && (forall r | r in zoneGroups :: RegionName(r) && 0 < zoneGroups[r] < 1_000_000)
  }

  /* ---------- what the two directions compute ---------- */

  ghost predicate InWindow(zoneGroups: map<string, int>, region: string, n: int) {
    region in zoneGroups && zoneGroups[region] < n < zoneGroups[region] + 1000
  }

  ghost function RegionAt(zoneGroups: map<string, int>, n: int): (region: string)
    requires exists region :: InWindow(zoneGroups, region, n)
    ensures InWindow(zoneGroups, region, n)
  {
    var region :| InWindow(zoneGroups, region, n); region
  }

  /** The zone of an ID: any region whose window holds it. */
  ghost function ZoneOf(zoneGroups: map<string, int>, id: string): Result<string> {
    match Atoi(id)
    case None => Err("failed to convert id")
    case Some(n) =>
      if exists region :: InWindow(zoneGroups, region, n) then
        var region := RegionAt(zoneGroups, n);
        Ok(region + "-" + Itoa(n - zoneGroups[region]))
      else
        Err("failed to find zone for id")
  }

  function RegionAndNumber(parts: seq<string>): (string, string)
    requires |parts| >= 3
  {
    if |parts| == 4 then (parts[0] + "-" + parts[1] + "-" + parts[2], parts[3])
    else (parts[0] + "-" + parts[1], parts[2])
  }

  /** The ID of a zone name. */
  function IDOf(zoneGroups: map<string, int>, zone: string): Result<string> {
    var parts := Split(zone, '-');
    if |parts| < 3 then Err("invalid zone") else
      var (region, number) := RegionAndNumber(parts);
      match Atoi(number)
      case None => Err("invalid zone")
      case Some(k) =>
        if region in zoneGroups then Ok(Itoa(Add64(zoneGroups[region], k)))
        else Err("failed to find zone")
  }

  /* ---------- the round trips ---------- */

  /** The zone names the provider writes itself. */
  ghost predicate CanonicalZone(zoneGroups: map<string, int>, zone: string) {
    exists r, n :: r in zoneGroups && 1 <= n <= 999 && zone == r + "-" + Itoa(n)
  }

  lemma JoinTwoOrThree(parts: seq<string>)
    requires 2 <= |parts| <= 3
    ensures JoinDash(parts) == if |parts| == 2 then parts[0] + "-" + parts[1]
                               else parts[0] + "-" + parts[1] + "-" + parts[2]
  {
    var rest := parts[1..];
    assert JoinDash(parts) == parts[0] + ['-'] + JoinDash(rest);
    if |parts| == 3 {
      assert JoinDash(rest) == rest[0] + ['-'] + JoinDash(rest[1..]);
    }
  }

  lemma PartsOfZone(r: string, number: string)
    requires RegionName(r) && DashFree(number)
    ensures |Split(r + "-" + number, '-')| >= 3
    ensures RegionAndNumber(Split(r + "-" + number, '-')) == (r, number)
  {
    var parts: seq<string> :| 2 <= |parts| <= 3 && (forall p | p in parts :: DashFree(p)) && r == JoinDash(parts);
    var all := parts + [number];
    assert Split(r + "-" + number, '-') == all by {
      JoinAppend(parts, number);
      SplitJoined(all);
    }
    JoinTwoOrThree(parts);
  }

  lemma RegionOfParts(parts: seq<string>)
    requires |parts| >= 3
    ensures RegionAndNumber(parts) ==
            if |parts| == 4 then (JoinDash(parts[..3]), parts[3]) else (JoinDash(parts[..2]), parts[2])
  {
    JoinTwoOrThree(parts[..2]);
    JoinTwoOrThree(parts[..3]);
  }

  lemma IDOfRegion(zoneGroups: map<string, int>, zone: string, region: string, number: string)
    requires |Split(zone, '-')| >= 3 && RegionAndNumber(Split(zone, '-')) == (region, number)
    ensures IDOf(zoneGroups, zone).Ok? <==> region in zoneGroups && Atoi(number).Some?
    ensures IDOf(zoneGroups, zone).Ok? ==>
              IDOf(zoneGroups, zone).value == Itoa(Add64(zoneGroups[region], Atoi(number).value))
  {}

  /** Which names have an ID, and which: at least three parts between dashes; of four, the first three are the region,
      otherwise the first two; the next one is a number, and the region is in the table. Parts beyond are ignored. */
  lemma IDOfJoined(zoneGroups: map<string, int>, parts: seq<string>, n: nat)
    requires |parts| >= 1 && (forall p | p in parts :: DashFree(p)) && n == if |parts| == 4 then 3 else 2
    ensures var id := IDOf(zoneGroups, JoinDash(parts));
            && (id.Ok? <==> |parts| >= 3 && JoinDash(parts[..n]) in zoneGroups && Atoi(parts[n]).Some?)
            && (id.Ok? ==> id.value == Itoa(Add64(zoneGroups[JoinDash(parts[..n])], Atoi(parts[n]).value)))
  {
    SplitJoined(parts);
    if |parts| >= 3 {
      RegionOfParts(parts);
      IDOfRegion(zoneGroups, JoinDash(parts), JoinDash(parts[..n]), parts[n]);
    }
  }

  lemma IDOfParts(zoneGroups: map<string, int>, r: string, number: string, n: int)
    requires r in zoneGroups && RegionName(r) && 0 < zoneGroups[r] < 1_000_000 && 1 <= n <= 999
    requires DashFree(number) && Atoi(number) == Some(n)
    ensures IDOf(zoneGroups, r + "-" + number) == Ok(Itoa(zoneGroups[r] + n))
  {
    PartsOfZone(r, number);
    assert RegionAndNumber(Split(r + "-" + number, '-')) == (r, number);
  }

  lemma IDOfWritten(zoneGroups: map<string, int>, r: string, n: int)
    requires r in zoneGroups && RegionName(r) && 0 < zoneGroups[r] < 1_000_000 && 1 <= n <= 999
    ensures IDOf(zoneGroups, r + "-" + Itoa(n)) == Ok(Itoa(zoneGroups[r] + n))
  {
    NatTextIsDashFree(n);
    AtoiItoa(n);
    IDOfParts(zoneGroups, r, Itoa(n), n);
  }

  lemma ZoneOfWritten(zoneGroups: map<string, int>, r: string, n: int)
    requires Disjoint(zoneGroups) && r in zoneGroups && 0 < zoneGroups[r] < 1_000_000 && 1 <= n <= 999
    ensures ZoneOf(zoneGroups, Itoa(zoneGroups[r] + n)) == Ok(r + "-" + Itoa(n))
  {
    AtoiItoa(zoneGroups[r] + n);
    assert InWindow(zoneGroups, r, zoneGroups[r] + n);
  }

  /** ID to zone and back: the ID returns in its decimal form, whatever sign or zeros it was written with. */
  lemma IDRoundTrip(zoneGroups: map<string, int>, id: string)
    requires ValidTable(zoneGroups) && ZoneOf(zoneGroups, id).Ok?
    ensures Atoi(id).Some?
    ensures IDOf(zoneGroups, ZoneOf(zoneGroups, id).value) == Ok(Itoa(Atoi(id).value))
    ensures CanonicalZone(zoneGroups, ZoneOf(zoneGroups, id).value)
  {
    var n := Atoi(id).value;
    var region := RegionAt(zoneGroups, n);
    assert ZoneOf(zoneGroups, id) == Ok(region + "-" + Itoa(n - zoneGroups[region]));
    IDOfWritten(zoneGroups, region, n - zoneGroups[region]);
  }

  /** Zone to ID and back: it succeeds with the very same name exactly for the canonical names. */
  lemma ZoneRoundTrip(zoneGroups: map<string, int>, zone: string)
    requires ValidTable(zoneGroups)
    ensures CanonicalZone(zoneGroups, zone) <==>
            IDOf(zoneGroups, zone).Ok? && ZoneOf(zoneGroups, IDOf(zoneGroups, zone).value) == Ok(zone)
  {
    if CanonicalZone(zoneGroups, zone) {
      var r, n :| r in zoneGroups && 1 <= n <= 999 && zone == r + "-" + Itoa(n);
      IDOfWritten(zoneGroups, r, n);
      ZoneOfWritten(zoneGroups, r, n);
    } else if IDOf(zoneGroups, zone).Ok? && ZoneOf(zoneGroups, IDOf(zoneGroups, zone).value) == Ok(zone) {
      IDRoundTrip(zoneGroups, IDOf(zoneGroups, zone).value);
      assert false;
    }
  }

  lemma LeadingZeroIsAccepted(zoneGroups: map<string, int>, r: string, n: int)
    requires r in zoneGroups && RegionName(r) && 0 < zoneGroups[r] < 1_000_000 && 1 <= n <= 999
    ensures IDOf(zoneGroups, r + "-" + ("0" + Itoa(n))) == Ok(Itoa(zoneGroups[r] + n))
  {
    var number := "0" + Itoa(n);
    NatTextIsDashFree(n);
    assert DashFree(number) by {
      assert forall i | 0 < i < |number| :: number[i] == Itoa(n)[i - 1];
    }
    AtoiLeadingZero(n);
    IDOfParts(zoneGroups, r, number, n);
  }

  /** Every canonical name has a twin with a leading zero that is accepted, but comes back as the canonical one. */
  lemma LeadingZeroComesBackCanonical(zoneGroups: map<string, int>, r: string, n: int)
    requires ValidTable(zoneGroups) && r in zoneGroups && 1 <= n <= 999
    ensures var twin := r + "-" + ("0" + Itoa(n));
            && IDOf(zoneGroups, twin).Ok?
            && ZoneOf(zoneGroups, IDOf(zoneGroups, twin).value) == Ok(r + "-" + Itoa(n))
            && !CanonicalZone(zoneGroups, twin)
  {
    var twin, zone := r + "-" + ("0" + Itoa(n)), r + "-" + Itoa(n);
    LeadingZeroIsAccepted(zoneGroups, r, n);
    ZoneOfWritten(zoneGroups, r, n);
    assert |twin| == |zone| + 1;
    ZoneRoundTrip(zoneGroups, twin);
  }
}
