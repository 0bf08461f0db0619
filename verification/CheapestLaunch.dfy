/** What a launch costs: the price it goes by is that of a quota item, and no suitable item is cheaper. */
module CheapestLaunch {
  import opened Text
  import opened Objects
  import opened Blacklist
  import opened InstanceTypes
  import opened LaunchChoice
  import opened MachineLaunch
  import opened AnnotationKeys
  import CloudProvider
  import FeedbackLoop
  import ReadBack
  import ZoneCodec

  /** The spot filter is not applied: there are minimum values, one of the two capacity types is not allowed, or all
      usable offerings are of one kind. */
  ghost predicate Unfiltered(reqs: Requirements, types: seq<InstanceType>) {
    || reqs.hasMinValues || !reqs.capacityType.Has("spot") || !reqs.capacityType.Has("on-demand")
    || (forall it, o | it in types && o in Usable(reqs, it) :: o.capacityType == "spot")
    || (forall it, o | it in types && o in Usable(reqs, it) :: o.capacityType != "spot")
  }

  /** The filter keeps this type: one of its available offerings is no dearer than any available on-demand one. */
  ghost predicate Survives(types: seq<InstanceType>, it: InstanceType) {
    exists o | o in Available(it) :: BeatsOnDemand(types, o)
  }

  lemma UnfilteredIsNotMixed(reqs: Requirements, types: seq<InstanceType>)
    requires Unfiltered(reqs, types) && !reqs.hasMinValues
    ensures !IsMixed(reqs, types)
  {}

  lemma KeptIsCandidate(reqs: Requirements, types: seq<InstanceType>, candidates: seq<InstanceType>, x: InstanceType)
    requires Candidates(reqs, types, candidates) && x in types && Usable(reqs, x) != []
    requires Unfiltered(reqs, types) || Survives(types, x)
    requires forall it, o | it in types && o in Available(it) :: o.price < MAX_FLOAT
    ensures x in candidates
  {
    if Unfiltered(reqs, types) {
      if !reqs.hasMinValues {
        UnfilteredIsNotMixed(reqs, types);
      }
    } else if IsMixed(reqs, types) {
      var o :| o in Available(x) && BeatsOnDemand(types, o);
      assert BeatsOnDemand(types, Cheapest(Available(x)));
      BestSurvivesIff(reqs, types, candidates, x);
    }
  }

  /** A first choice is no dearer than any usable offering of a type that is kept, and of the types that are as cheap
      it has the smallest name. */
  lemma FirstChoiceIsCheapest(reqs: Requirements, types: seq<InstanceType>, it: InstanceType, x: InstanceType,
                              o: Offering)
    requires FirstChoice(reqs, types, it) && Usable(reqs, it) != [] && x in types && o in Usable(reqs, x)
    requires Unfiltered(reqs, types) || Survives(types, x)
    requires forall t, p | t in types && p in Available(t) :: p.price < MAX_FLOAT
    ensures Cheapest(Usable(reqs, it)).price <= o.price
    ensures Cheapest(Usable(reqs, it)).price == o.price ==> !Precedes(x.name, it.name)
  {
    var candidates :| Candidates(reqs, types, candidates) && FirstAmong(reqs, candidates, it);
    KeptIsCandidate(reqs, types, candidates, x);
    assert !ByPrice(reqs)(x, it);
    assert PriceFor(reqs, x) <= o.price;
    StrLessIff(x.name, it.name);
  }

  /** The claim can use what this item offers. */
  ghost predicate Suits(zoneGroups: map<string, int>, reqs: Requirements, capacityType: string, item: QuotaItem) {
    && reqs.capacityType.Has(capacityType) && reqs.zone.Has(item.zone)
    && reqs.zoneID.Has(match ZoneCodec.IDOf(zoneGroups, item.zone) case Ok(id) => id case Err(_) => "")
  }

  /** The item can be bought now: on sale, not blocked, and of a type that fits. */
  ghost predicate Buyable(cache: Cache, now: nat, types: seq<InstanceType>, fits: InstanceType -> bool,
                          capacityType: string,
                          item: QuotaItem)
  {
    && item.status == "SELL" && item.inventory > 0
    && !IsBlocked(cache, item.instanceType, capacityType, item.zone, now)
    && forall it | it in types && it.name == item.instanceType :: fits(it)
  }

  /** The type and offering a buyable, suitable item is launched by. */
  lemma BuyableIsUsable(zoneGroups: map<string, int>, cache: Cache, now: nat, build: Build, odTypes: seq<QuotaItem>,
                        spotTypes: seq<QuotaItem>, types: seq<InstanceType>, reqs: Requirements,
                          fits: InstanceType -> bool,
                        capacityType: string, item: QuotaItem) returns (it: InstanceType, o: Offering)
    requires Listed(zoneGroups, cache, now, build, odTypes, spotTypes, types) && KeepsIdentity(build)
    requires QuotedAs(capacityType, odTypes, spotTypes, item) && Suits(zoneGroups, reqs, capacityType, item)
    requires Buyable(cache, now, types, fits, capacityType, item)
    ensures it in CloudProvider.Resolve(reqs, fits, types) && it.name == item.instanceType
    ensures o in Usable(reqs, it) && o.price == item.unitPrice
  {
    it, o := UnblockedItemIsListed(zoneGroups, cache, now, build, odTypes, spotTypes, types, capacityType, item);
    UsableIff(reqs, it, o);
  }

  /** A launch takes a quota item that is on sale and unblocked, at that item's own price. */
  lemma LaunchIsPriced(zoneGroups: map<string, int>, clusterID: string, cache: Cache, now: nat, build: Build,
                       odTypes: seq<QuotaItem>, spotTypes: seq<QuotaItem>, types: seq<InstanceType>,
                         nodeClass: NodeClass,
                       nodeClaim: NodeClaim, fits: InstanceType -> bool, minValuesMet: bool, apiOk: bool,
                         outcome: Outcome)
    returns (it: InstanceType, o: Offering, item: QuotaItem)
    requires Listed(zoneGroups, cache, now, build, odTypes, spotTypes, types) && KeepsIdentity(build)
    requires CloudProvider.Created(zoneGroups, clusterID, nodeClass, nodeClaim,
                                   CloudProvider.Resolve(nodeClaim.reqs, fits, types), minValuesMet, apiOk, outcome)
    requires outcome.Launched? || outcome.Rejected?
    ensures WrittenAs(zoneGroups, clusterID, nodeClass, nodeClaim, it, o, outcome.machine)
    ensures FirstChoice(nodeClaim.reqs, CloudProvider.Resolve(nodeClaim.reqs, fits, types), it)
    ensures Usable(nodeClaim.reqs, it) != [] && o == Cheapest(Usable(nodeClaim.reqs, it))
    ensures QuotedAs(o.capacityType, odTypes, spotTypes, item) && item.instanceType == it.name
    ensures item.status == "SELL" && item.inventory > 0 && o.price == item.unitPrice
    ensures !IsBlocked(cache, item.instanceType, o.capacityType, item.zone, now)
  {
    it, o := CloudProvider.LaunchedOffering(zoneGroups, clusterID, nodeClass, nodeClaim, fits, types, minValuesMet,
                                            apiOk,
                                            outcome);
    item := ListedOfferingIsUnblocked(zoneGroups, cache, now, build, odTypes, spotTypes, types, it, o);
  }

  /** No buyable and suitable quota item is cheaper than the one a launch takes, unless the spot filter removes its
      type; and of equally cheap ones the launch takes a type of smallest name. */
  lemma LaunchIsCheapest(zoneGroups: map<string, int>, clusterID: string, cache: Cache, now: nat, build: Build,
                         odTypes: seq<QuotaItem>, spotTypes: seq<QuotaItem>, types: seq<InstanceType>,
                         nodeClass: NodeClass, nodeClaim: NodeClaim, fits: InstanceType -> bool, minValuesMet: bool,
                         apiOk: bool, outcome: Outcome, capacityType: string, other: QuotaItem)
    returns (it: InstanceType, item: QuotaItem)
    requires Listed(zoneGroups, cache, now, build, odTypes, spotTypes, types) && KeepsIdentity(build)
    requires CloudProvider.Created(zoneGroups, clusterID, nodeClass, nodeClaim,
                                   CloudProvider.Resolve(nodeClaim.reqs, fits, types), minValuesMet, apiOk, outcome)
    requires outcome.Launched? || outcome.Rejected?
    requires forall q | q in odTypes || q in spotTypes :: q.unitPrice < MAX_FLOAT
    requires QuotedAs(capacityType, odTypes, spotTypes, other) && Suits(zoneGroups, nodeClaim.reqs, capacityType, other)
    requires Buyable(cache, now, types, fits, capacityType, other)
    requires var resolved := CloudProvider.Resolve(nodeClaim.reqs, fits, types);
             Unfiltered(nodeClaim.reqs, resolved) ||
             forall x | x in resolved && x.name == other.instanceType :: Survives(resolved, x)
    ensures outcome.machine.spec.Some? && outcome.machine.spec.value.instanceType == it.name == item.instanceType
    ensures QuotedAs(CapacityTypeOf(outcome.machine), odTypes, spotTypes, item)
    ensures item.unitPrice <= other.unitPrice
    ensures item.unitPrice == other.unitPrice ==> !Precedes(other.instanceType, item.instanceType)
  {
    var reqs, resolved := nodeClaim.reqs, CloudProvider.Resolve(nodeClaim.reqs, fits, types);
    var o;
    it, o, item := LaunchIsPriced(zoneGroups, clusterID, cache, now, build, odTypes, spotTypes, types, nodeClass,
                                  nodeClaim,
                                  fits, minValuesMet, apiOk, outcome);
    CloudProvider.WrittenIdentity(zoneGroups, clusterID, nodeClass, nodeClaim, it, o, outcome.machine);
    var x, p := BuyableIsUsable(zoneGroups, cache, now, build, odTypes, spotTypes, types, reqs, fits, capacityType,
                                other);
    PricesAreBounded(zoneGroups, cache, now, build, odTypes, spotTypes, types, reqs, fits);
    FirstChoiceIsCheapest(reqs, resolved, it, x, p);
  }

  lemma PricesAreBounded(zoneGroups: map<string, int>, cache: Cache, now: nat, build: Build, odTypes: seq<QuotaItem>,
                         spotTypes: seq<QuotaItem>, types: seq<InstanceType>, reqs: Requirements,
                           fits: InstanceType -> bool)
    requires Listed(zoneGroups, cache, now, build, odTypes, spotTypes, types) && KeepsIdentity(build)
    requires forall q | q in odTypes || q in spotTypes :: q.unitPrice < MAX_FLOAT
    ensures forall t, p | t in CloudProvider.Resolve(reqs, fits, types) && p in Available(t) :: p.price < MAX_FLOAT
  {
    forall t, p | t in CloudProvider.Resolve(reqs, fits, types) && p in Available(t) ensures p.price < MAX_FLOAT {
      var q := ListedOfferingIsUnblocked(zoneGroups, cache, now, build, odTypes, spotTypes, types, t, p);
    }
  }

  /** Every launch step of the loop buys a quota item on sale, unblocked and of the written capacity type, and the
      machine it writes carries that item's price, to the tenth digit. */
  lemma LaunchStepIsPriced(zoneGroups: map<string, int>, clusterID: string, w: FeedbackLoop.World,
                           w': FeedbackLoop.World,
                           r: FeedbackLoop.Request, outcome: Outcome) returns (item: QuotaItem)
    requires outcome.Launched? || outcome.Rejected?
    requires FeedbackLoop.LaunchStep(zoneGroups, clusterID, w, w', r, outcome) &&
             ReadBack.AvoidsProviderKeys(r.nodeClaim)
    ensures QuotedAs(CapacityTypeOf(outcome.machine), r.odTypes, r.spotTypes, item)
    ensures item.status == "SELL" && item.inventory > 0
    ensures !IsBlocked(w.cache, item.instanceType, CapacityTypeOf(outcome.machine), item.zone, w.now)
    ensures Lookup(outcome.machine.annotations, KeyText(UnitPrice)) == Itoa(PriceUnits(item.unitPrice))
  {
    var types :| Listed(zoneGroups, w.cache, w.now, r.build, r.odTypes, r.spotTypes, types) &&
                 CloudProvider.Created(zoneGroups, clusterID, r.nodeClass, r.nodeClaim,
                   CloudProvider.Resolve(r.nodeClaim.reqs, r.fits, types), r.minValuesMet, r.apiOk, outcome);
    var it, o;
    it, o, item := LaunchIsPriced(zoneGroups, clusterID, w.cache, w.now, r.build, r.odTypes, r.spotTypes, types,
                                  r.nodeClass, r.nodeClaim, r.fits, r.minValuesMet, r.apiOk, outcome);
    CloudProvider.WrittenIdentity(zoneGroups, clusterID, r.nodeClass, r.nodeClaim, it, o, outcome.machine);
    ReadBack.UnitPriceIsWritten(zoneGroups, clusterID, r.nodeClass, r.nodeClaim, it, o, outcome.machine);
  }
}
