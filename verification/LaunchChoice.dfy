/** Which instance type a launch takes (pkg/providers/machine/machine.go): the list is filtered, truncated
    and sorted by price and name, and the first type is taken at its cheapest usable offering. */
module LaunchChoice {
  import opened Text
  import opened Objects
  import opened InstanceTypes
  import opened SliceSort
  import Blacklist

  const MAX_INSTANCE_TYPES: nat := 60

  /** math.MaxFloat64. */
  const MAX_FLOAT: real := 179769313486231570814527423731704356798070567525844996598917476803157260780028538760589558632766878171540458953514382464234321326889464182768467546703537516986049910576551282076245490090389328944075868508455133942304583236903222948165808559332123348274797826204144723168738177180919299881250404026184124858368.0

  /* ---------- requirements and offerings, as far as Karpenter core defines them ---------- */

  datatype Constraint = Unconstrained | In(values: set<string>) | NotIn(values: set<string>) {
    predicate Has(value: string) {
      match this
      case Unconstrained => true
      case In(values) => value in values
      case NotIn(values) => value !in values
    }
  }

  /** A claim's requirements on offerings; minValues only changes how the list may be cut. */
  datatype Requirements = Requirements(capacityType: Constraint, zoneID: Constraint, zone: Constraint,
                                       hasMinValues: bool)

  predicate Compatible(reqs: Requirements, o: Offering) {
    reqs.capacityType.Has(o.capacityType) && reqs.zoneID.Has(o.zoneID) && reqs.zone.Has(o.zone)
  }

  function Available(it: InstanceType): seq<Offering> {
    Filter((o: Offering) => o.available, it.offerings)
  }

  /** The available offerings a claim can use. */
  function Usable(reqs: Requirements, it: InstanceType): seq<Offering> {
    Filter(o => Compatible(reqs, o), Available(it))
  }

  lemma UsableIff(reqs: Requirements, it: InstanceType, o: Offering)
    ensures o in Usable(reqs, it) <==> o in it.offerings && o.available && Compatible(reqs, o)
  {
    assert o in Available(it) <==> o in it.offerings && o.available;
  }

  /** The first offering of least price. */
  function Cheapest(offerings: seq<Offering>): (o: Offering)
    requires offerings != []
    ensures o in offerings && forall x | x in offerings :: o.price <= x.price
    ensures exists k | 0 <= k < |offerings| :: offerings[k] == o && forall l | 0 <= l < k ::
            o.price < offerings[l].price
  {
    var last := offerings[|offerings| - 1];
    if |offerings| == 1 then last
    else
      var before := Cheapest(offerings[..|offerings| - 1]);
      assert forall x | x in offerings :: x in offerings[..|offerings| - 1] || x == last;
      if last.price < before.price then last else before
  }

  /* ---------- the order by price and name ---------- */

  function PriceFor(reqs: Requirements, it: InstanceType): real {
    if |Usable(reqs, it)| > 0 then Cheapest(Usable(reqs, it)).price else MAX_FLOAT
  }

  function ByPrice(reqs: Requirements): (InstanceType, InstanceType) -> bool {
    (a, b) => if PriceFor(reqs, a) == PriceFor(reqs, b) then StrLess(a.name, b.name)
      else PriceFor(reqs, a) < PriceFor(reqs, b)
  }

  lemma ByPriceIsOrder(reqs: Requirements)
    ensures StrictWeakOrder(ByPrice(reqs))
  {
    var less := ByPrice(reqs);
    forall x, y ensures less(x, y) ==> !less(y, x) {
      StrOrderIsTotal(x.name, y.name);
    }
    forall x, y, z | !less(x, y) && !less(y, z) ensures !less(x, z) {
      StrOrderIsTotal(x.name, y.name);
      StrOrderIsTotal(y.name, z.name);
      StrOrderIsTransitive(z.name, y.name, x.name);
    }
  }

  method OrderInstanceTypesByPrice(instanceTypes: array<InstanceType>, reqs: Requirements)
    modifies instanceTypes
    ensures SortedFrom(ByPrice(reqs), old(instanceTypes[..]), instanceTypes[..])
  {
    ByPriceIsOrder(reqs);
    SliceSort.Slice(instanceTypes, ByPrice(reqs));
  }

  /** Instance types with different names have only one order, however the list arrived. */
  lemma OrderIsUnique(reqs: Requirements, s: seq<InstanceType>, t: seq<InstanceType>)
    requires Ordered(ByPrice(reqs), s) && Ordered(ByPrice(reqs), t) && multiset(s) == multiset(t)
    requires forall k, l | 0 <= k < l < |s| :: s[k].name != s[l].name
    ensures s == t
  {
    forall x, y | x in s && y in s && !ByPrice(reqs)(x, y) && !ByPrice(reqs)(y, x) ensures x == y {
      StrOrderIsTotal(x.name, y.name);
    }
    SortedIsUnique(ByPrice(reqs), s, t);
  }

  /* ---------- spot filtering ---------- */

  predicate HasUsable(reqs: Requirements, types: seq<InstanceType>, spot: bool) {
    exists it, o | it in types && o in Usable(reqs, it) :: spot == (o.capacityType == Blacklist.SPOT)
  }

  /** The claim allows both capacity types, and there are usable offerings of both. */
  predicate IsMixed(reqs: Requirements, types: seq<InstanceType>) {
    && reqs.capacityType.Has(Blacklist.SPOT) && reqs.capacityType.Has(Blacklist.ON_DEMAND)
    && HasUsable(reqs, types, true) && HasUsable(reqs, types, false)
  }

  method IsMixedCapacityLaunch(reqs: Requirements, types: seq<InstanceType>) returns (mixed: bool)
    ensures mixed == IsMixed(reqs, types)
    ensures mixed <==>
              && reqs.capacityType.Has("spot") && reqs.capacityType.Has("on-demand")
              && (exists it, o | it in types && o in Usable(reqs, it) :: o.capacityType == "spot")
              && (exists it, o | it in types && o in Usable(reqs, it) :: o.capacityType != "spot")
  {
    if !reqs.capacityType.Has(Blacklist.SPOT) || !reqs.capacityType.Has(Blacklist.ON_DEMAND) {
      return false;
    }
    var hasSpotOfferings, hasODOffering := false, false;
    for k := 0 to |types|
      invariant hasSpotOfferings == HasUsable(reqs, types[..k], true)
      invariant hasODOffering == HasUsable(reqs, types[..k], false)
    {
      var spotHere, odHere := ScanOfferings(reqs, types[k]);
      assert types[..k + 1] == types[..k] + [types[k]];
      hasSpotOfferings := hasSpotOfferings || spotHere;
      hasODOffering := hasODOffering || odHere;
    }
    assert types[..|types|] == types;
    return hasSpotOfferings && hasODOffering;
  }

  /** The inner loop: which kinds of usable offerings one type has. */
  method ScanOfferings(reqs: Requirements, it: InstanceType) returns (spot: bool, od: bool)
    ensures spot <==> exists o | o in Usable(reqs, it) :: o.capacityType == Blacklist.SPOT
    ensures od <==> exists o | o in Usable(reqs, it) :: o.capacityType != Blacklist.SPOT
  {
    var available := Available(it);
    spot, od := false, false;
    for k := 0 to |available|
      invariant spot <==> exists o | o in available[..k] :: Compatible(reqs, o) && o.capacityType == Blacklist.SPOT
      invariant od <==> exists o | o in available[..k] :: Compatible(reqs, o) && o.capacityType != Blacklist.SPOT
    {
      var o := available[k];
      assert available[..k + 1] == available[..k] + [o];
      if !Compatible(reqs, o) {
        continue;
      }
      if o.capacityType == Blacklist.SPOT {
        spot := true;
      } else {
        od := true;
      }
    }
    assert available[..|available|] == available;
  }

  /** x is the price of the cheapest available on-demand offering, or the float maximum. */
  ghost predicate IsFloor(types: seq<InstanceType>, x: real) {
    && (forall it, o | it in types && o in Available(it) && o.capacityType == Blacklist.ON_DEMAND :: x <= o.price)
    && x <= MAX_FLOAT
    && (x == MAX_FLOAT ||
        exists it, o | it in types && o in Available(it) && o.capacityType == Blacklist.ON_DEMAND :: x == o.price)
  }

  predicate Undercuts(it: InstanceType, cheapestOnDemand: real) {
    Available(it) != [] && Cheapest(Available(it)).price <= cheapestOnDemand
  }

  function Undercutting(types: seq<InstanceType>, cheapestOnDemand: real): seq<InstanceType> {
    Filter(it => Undercuts(it, cheapestOnDemand), types)
  }

  /** The inner loop: a price, lowered to those of the on-demand offerings here that are below it. */
  method CheapestHere(available: seq<Offering>, start: real) returns (cheapest: real)
    ensures cheapest <= start
    ensures forall o | o in available && o.capacityType == Blacklist.ON_DEMAND :: cheapest <= o.price
    ensures cheapest == start || exists o | o in available && o.capacityType == Blacklist.ON_DEMAND ::
            cheapest == o.price
  {
    cheapest := start;
    for l := 0 to |available|
      invariant cheapest <= start
      invariant forall o | o in available[..l] && o.capacityType == Blacklist.ON_DEMAND :: cheapest <= o.price
      invariant cheapest == start ||
                exists o | o in available && o.capacityType == Blacklist.ON_DEMAND :: cheapest == o.price
    {
      assert available[..l + 1] == available[..l] + [available[l]];
      if available[l].capacityType == Blacklist.ON_DEMAND && available[l].price < cheapest {
        cheapest := available[l].price;
      }
    }
    assert available[..|available|] == available;
  }

  method CheapestOnDemand(types: seq<InstanceType>) returns (cheapest: real)
    ensures IsFloor(types, cheapest)
  {
    cheapest := MAX_FLOAT;
    for k := 0 to |types|
      invariant IsFloor(types[..k], cheapest)
    {
      ghost var before := cheapest;
      assert types[..k + 1] == types[..k] + [types[k]];
      cheapest := CheapestHere(Available(types[k]), cheapest);
      FloorStep(types[..k], types[k], before, cheapest);
    }
    assert types[..|types|] == types;
  }

  lemma FloorStep(types: seq<InstanceType>, it: InstanceType, before: real, after: real)
    requires IsFloor(types, before) && after <= before
    requires forall o | o in Available(it) && o.capacityType == Blacklist.ON_DEMAND :: after <= o.price
    requires after == before || exists o | o in Available(it) && o.capacityType == Blacklist.ON_DEMAND ::
             after == o.price
    ensures IsFloor(types + [it], after)
  {
    var all := types + [it];
    assert forall x | x in all :: x in types || x == it;
    if after != before {
      assert it in all;
    } else if before != MAX_FLOAT {
      var x, o :| x in types && o in Available(x) && o.capacityType == Blacklist.ON_DEMAND && before == o.price;
      assert x in all;
    }
  }

  lemma FloorIsUnique(types: seq<InstanceType>, x: real, y: real)
    requires IsFloor(types, x) && IsFloor(types, y)
    ensures x == y
  {}

  /** The types a launch chooses among. */
  ghost predicate Candidates(reqs: Requirements, types: seq<InstanceType>, candidates: seq<InstanceType>) {
    if !reqs.hasMinValues && IsMixed(reqs, types) then
      exists floor: real :: IsFloor(types, floor) && candidates == Undercutting(types, floor)
    else
      candidates == types
  }

  method FilterInstanceTypes(reqs: Requirements, types: seq<InstanceType>) returns (r: seq<InstanceType>)
    requires !reqs.hasMinValues
    ensures Candidates(reqs, types, r)
  {
    var mixed := IsMixedCapacityLaunch(reqs, types);
    if !mixed {
      return types;
    }
    var cheapestOnDemand := CheapestOnDemand(types);
    r := Undercutting(types, cheapestOnDemand);
  }

  /** No available on-demand offering is cheaper than o. */
  ghost predicate BeatsOnDemand(types: seq<InstanceType>, o: Offering) {
    forall it, other | it in types && other in Available(it) && other.capacityType == Blacklist.ON_DEMAND ::
      o.price <= other.price
  }

  lemma SomeTypeUndercuts(types: seq<InstanceType>, floor: real)
    requires IsFloor(types, floor) && floor < MAX_FLOAT
    ensures Undercutting(types, floor) != []
  {
    var it, o :| it in types && o in Available(it) && o.capacityType == Blacklist.ON_DEMAND && floor == o.price;
    assert it in Undercutting(types, floor);
  }

  lemma MixedFloor(reqs: Requirements, types: seq<InstanceType>, floor: real)
    requires IsFloor(types, floor) && HasUsable(reqs, types, false)
    requires forall it, o | it in types && o in Available(it) ::
               o.capacityType in {Blacklist.SPOT, Blacklist.ON_DEMAND} && o.price < MAX_FLOAT
    ensures floor < MAX_FLOAT
  {
    var it, o :| it in types && o in Usable(reqs, it) && o.capacityType != Blacklist.SPOT;
    assert o in Available(it);
  }

  lemma SurvivorBeatsOnDemand(types: seq<InstanceType>, floor: real, it: InstanceType)
    requires IsFloor(types, floor) && it in Undercutting(types, floor)
    ensures it in types && exists o | o in Available(it) :: BeatsOnDemand(types, o)
  {
    assert BeatsOnDemand(types, Cheapest(Available(it)));
  }

  /** In a mixed launch filtering leaves something, and whatever it leaves has an available offering no dearer
      than every available on-demand one. */
  lemma SpotFilterIsSafe(reqs: Requirements, types: seq<InstanceType>, candidates: seq<InstanceType>)
    requires !reqs.hasMinValues && IsMixed(reqs, types) && Candidates(reqs, types, candidates)
    requires forall it, o | it in types && o in Available(it) ::
               o.capacityType in {Blacklist.SPOT, Blacklist.ON_DEMAND} && o.price < MAX_FLOAT
    ensures candidates != []
    ensures forall it | it in candidates :: it in types && exists o | o in Available(it) :: BeatsOnDemand(types, o)
  {
    var floor: real :| IsFloor(types, floor) && candidates == Undercutting(types, floor);
    MixedFloor(reqs, types, floor);
    SomeTypeUndercuts(types, floor);
    forall it | it in candidates ensures it in types && exists o | o in Available(it) :: BeatsOnDemand(types, o) {
      SurvivorBeatsOnDemand(types, floor, it);
    }
  }

  /** The type the sort would put first survives the filter exactly when no available on-demand offering of any
      type undercuts its own cheapest available one. */
  lemma BestSurvivesIff(reqs: Requirements, types: seq<InstanceType>, candidates: seq<InstanceType>, best: InstanceType)
    requires !reqs.hasMinValues && IsMixed(reqs, types) && Candidates(reqs, types, candidates)
    requires forall it, o | it in types && o in Available(it) :: o.price < MAX_FLOAT
    requires best in types && Usable(reqs, best) != []
    ensures Available(best) != []
    ensures best in candidates <==> BeatsOnDemand(types, Cheapest(Available(best)))
  {
    var floor: real :| IsFloor(types, floor) && candidates == Undercutting(types, floor);
    assert Usable(reqs, best)[0] in Available(best);
  }

  /** In particular it survives whenever every available offering suits the claim. */
  lemma BestSurvivesWhenAllSuit(reqs: Requirements, types: seq<InstanceType>, candidates: seq<InstanceType>,
                                best: InstanceType)
    requires !reqs.hasMinValues && IsMixed(reqs, types) && Candidates(reqs, types, candidates)
    requires forall it, o | it in types && o in Available(it) :: o.price < MAX_FLOAT
    requires forall it, o | it in types && o in Available(it) :: Compatible(reqs, o)
    requires best in types && forall it | it in types :: !ByPrice(reqs)(it, best)
    ensures best in candidates
  {
    var it, o :| it in types && o in Usable(reqs, it) && o.capacityType != Blacklist.SPOT;
    NotBeaten(reqs, it, o, best);
    BestBeatsOnDemand(reqs, types, best);
    BestSurvivesIff(reqs, types, candidates, best);
  }

  /** What a type the sort does not put after it offers is no cheaper. */
  lemma NotBeaten(reqs: Requirements, it: InstanceType, o: Offering, best: InstanceType)
    requires o in Usable(reqs, it) && o.price < MAX_FLOAT && !ByPrice(reqs)(it, best)
    ensures Usable(reqs, best) != [] && Cheapest(Usable(reqs, best)).price <= o.price
  {
    assert PriceFor(reqs, it) <= o.price;
    assert PriceFor(reqs, best) <= PriceFor(reqs, it);
  }

  lemma BestBeatsOnDemand(reqs: Requirements, types: seq<InstanceType>, best: InstanceType)
    requires forall it, o | it in types && o in Available(it) :: o.price < MAX_FLOAT && Compatible(reqs, o)
    requires Usable(reqs, best) != [] && forall it | it in types :: !ByPrice(reqs)(it, best)
    ensures Available(best) != [] && BeatsOnDemand(types, Cheapest(Available(best)))
  {
    var b := Cheapest(Usable(reqs, best));
    assert b in Available(best);
    forall it, o | it in types && o in Available(it) ensures b.price <= o.price {
      NotBeaten(reqs, it, o, best);
    }
  }

  const SPOT_HERE := Offering(Blacklist.SPOT, "1", "here", 2.0, true)
  const ON_DEMAND_HERE := Offering(Blacklist.ON_DEMAND, "1", "here", 3.0, true)
  const ON_DEMAND_AWAY := Offering(Blacklist.ON_DEMAND, "2", "away", 1.0, true)

  function Sample(name: string, offerings: seq<Offering>): InstanceType {
    InstanceType(name, "f", 1, 1, "amd64", offerings, map[], Overhead(map[], map[], map[]))
  }

  lemma SampleOfferings(reqs: Requirements)
    requires reqs == Requirements(Unconstrained, Unconstrained, In({"here"}), false)
    ensures var best, other := Sample("a", [SPOT_HERE]), Sample("b", [ON_DEMAND_HERE, ON_DEMAND_AWAY]);
            && Available(best) == Usable(reqs, best) == [SPOT_HERE]
            && Available(other) == [ON_DEMAND_HERE, ON_DEMAND_AWAY] && Usable(reqs, other) == [ON_DEMAND_HERE]
  {
    var available, compatible := (o: Offering) => o.available, o => Compatible(reqs, o);
    FilterOfOne(available, SPOT_HERE);
    FilterOfOne(compatible, SPOT_HERE);
    FilterOfTwo(available, ON_DEMAND_HERE, ON_DEMAND_AWAY);
    FilterOfTwo(compatible, ON_DEMAND_HERE, ON_DEMAND_AWAY);
    assert |"here"| == |"away"| && "here"[0] != "away"[0];
  }

  /** It does not always survive: an on-demand offering in a zone the claim excludes removes the best type. */
  lemma UnusableOfferingRemovesTheBest(reqs: Requirements, best: InstanceType, other: InstanceType)
    requires reqs == Requirements(Unconstrained, Unconstrained, In({"here"}), false)
    requires best == Sample("a", [SPOT_HERE]) && other == Sample("b", [ON_DEMAND_HERE, ON_DEMAND_AWAY])
    ensures IsMixed(reqs, [best, other]) && ByPrice(reqs)(best, other)
    ensures Candidates(reqs, [best, other], [other])
  {
    SampleOfferings(reqs);
    var types := [best, other];
    assert SPOT_HERE in Usable(reqs, best) && ON_DEMAND_HERE in Usable(reqs, other);
    assert best in types && other in types;
    assert IsFloor(types, 1.0) by {
      assert ON_DEMAND_AWAY in Available(other);
    }
    FilterOfTwo(it => Undercuts(it, 1.0), best, other);
    assert Undercutting(types, 1.0) == Filter(it => Undercuts(it, 1.0), types);
    assert [][..] + [other] == [other];
  }

  /* ---------- truncating and taking the first ---------- */

  /** it is a first choice: no candidate is cheaper for this claim, or as cheap with a smaller name. */
  ghost predicate FirstChoice(reqs: Requirements, types: seq<InstanceType>, it: InstanceType) {
    exists candidates: seq<InstanceType> :: Candidates(reqs, types, candidates) && FirstAmong(reqs, candidates, it)
  }

  ghost predicate FirstAmong(reqs: Requirements, candidates: seq<InstanceType>, it: InstanceType) {
    it in candidates && forall x | x in candidates :: !ByPrice(reqs)(x, it)
  }

  /** Karpenter's Truncate: the cheapest of the list by price and name, at most max of them. */
  method Truncate(types: seq<InstanceType>, reqs: Requirements, max: nat) returns (r: seq<InstanceType>)
    ensures exists sorted ::
            SortedFrom(ByPrice(reqs), types, sorted) && r == sorted[..if |sorted| < max then |sorted| else max]
  {
    var a := new InstanceType[|types|](k requires 0 <= k < |types| => types[k]);
    assert a[..] == types;
    OrderInstanceTypesByPrice(a, reqs);
    r := a[..if a.Length < max then a.Length else max];
    assert r == a[..][..if a.Length < max then a.Length else max];
  }

  /** Sorting the truncated list again does not change its head: it is the first choice of the whole list. */
  lemma HeadOfTruncated(reqs: Requirements, types: seq<InstanceType>, sorted: seq<InstanceType>,
                        cut: seq<InstanceType>, again: seq<InstanceType>)
    requires SortedFrom(ByPrice(reqs), types, sorted) && types != []
    requires cut <= sorted && cut != [] && SortedFrom(ByPrice(reqs), cut, again)
    ensures again != [] && FirstAmong(reqs, types, again[0])
  {
    ByPriceIsOrder(reqs);
    FirstIsMinimal(ByPrice(reqs), types, sorted);
    FirstIsMinimal(ByPrice(reqs), cut, again);
    assert cut[0] == sorted[0] && !ByPrice(reqs)(sorted[0], again[0]);
    assert again[0] in types by {
      assert again[0] in sorted;
      assert again[0] in multiset(sorted);
    }
  }

  /** Filter, truncate, sort, take the first. */
  method Choose(reqs: Requirements, types: seq<InstanceType>, minValuesMet: bool) returns (r: Result<InstanceType>)
    ensures r.Ok? ==> FirstChoice(reqs, types, r.value)
    ensures r.Err? <==> (reqs.hasMinValues && !minValuesMet) || Candidates(reqs, types, [])
  {
    var candidates := types;
    if !reqs.hasMinValues {
      candidates := FilterInstanceTypes(reqs, types);
    }
    CandidatesAreUnique(reqs, types, candidates, []);
    var cut := Truncate(candidates, reqs, MAX_INSTANCE_TYPES);
    if reqs.hasMinValues && !minValuesMet {
      return Err("truncating instance types");
    }
    ghost var sorted :| SortedFrom(ByPrice(reqs), candidates, sorted) &&
                        cut == sorted[..if |sorted| < MAX_INSTANCE_TYPES then |sorted| else MAX_INSTANCE_TYPES];
    assert |multiset(candidates)| == |candidates| && |multiset(sorted)| == |sorted|;
    if |cut| == 0 {
      return Err("no instance types available");
    }
    var a := new InstanceType[|cut|](k requires 0 <= k < |cut| => cut[k]);
    assert a[..] == cut;
    OrderInstanceTypesByPrice(a, reqs);
    HeadOfTruncated(reqs, candidates, sorted, cut, a[..]);
    return Ok(a[0]);
  }

  lemma CandidatesAreUnique(reqs: Requirements, types: seq<InstanceType>, s: seq<InstanceType>, t: seq<InstanceType>)
    requires Candidates(reqs, types, s)
    ensures Candidates(reqs, types, t) <==> s == t
  {
    if !reqs.hasMinValues && IsMixed(reqs, types) && Candidates(reqs, types, t) {
      var x: real :| IsFloor(types, x) && s == Undercutting(types, x);
      var y: real :| IsFloor(types, y) && t == Undercutting(types, y);
      FloorIsUnique(types, x, y);
    }
  }

  /** With distinct names there is only one first choice, so the order of the list and of the sort's ties is moot. */
  lemma FirstChoiceIsUnique(reqs: Requirements, types: seq<InstanceType>, it: InstanceType, other: InstanceType)
    requires FirstChoice(reqs, types, it) && FirstChoice(reqs, types, other)
    requires forall x, y | x in types && y in types && x.name == y.name :: x == y
    ensures it == other && it in types
  {
    var s: seq<InstanceType> :| Candidates(reqs, types, s) && FirstAmong(reqs, s, it);
    var t: seq<InstanceType> :| Candidates(reqs, types, t) && FirstAmong(reqs, t, other);
    CandidatesAreUnique(reqs, types, s, t);
    StrOrderIsTotal(it.name, other.name);
  }

  lemma FirstChoiceIsListed(reqs: Requirements, types: seq<InstanceType>, it: InstanceType)
    requires FirstChoice(reqs, types, it)
    ensures it in types
  {}
}
