/** From a launch to the claim it is reported as: cloudprovider.go's Create ends by converting the very machine
    it wrote. */
module LaunchRoundTrip {
  import opened Text
  import opened Objects
  import opened Blacklist
  import opened InstanceTypes
  import opened LaunchChoice
  import opened MachineLaunch
  import opened ReadBack
  import opened AnnotationKeys
  import CloudProvider
  import ZoneCodec

  /** The sizes of quota items are Go integers. */
  ghost predicate FitsInt64(items: seq<QuotaItem>) {
    forall i | i in items :: INT64_MIN <= i.cpu <= INT64_MAX && INT64_MIN <= i.memory <= INT64_MAX
  }

  /** A listed type is the sizing of one quota item. */
  lemma ListedIsSized(zoneGroups: map<string, int>, cache: Cache, now: nat, s: Settings, odTypes: seq<QuotaItem>,
                      spotTypes: seq<QuotaItem>, types: seq<InstanceType>, it: InstanceType) returns (item: QuotaItem)
    requires Listed(zoneGroups, cache, now, Sizing(s), odTypes, spotTypes, types) && it in types
    ensures (item in odTypes || item in spotTypes) && it == NewInstanceType(s, item, it.offerings)
  {
    LastByTypeIs(odTypes, it.name);
    ByTypeIs(cache, now, odTypes, spotTypes, it.name);
    item := ByType(cache, now, odTypes, spotTypes)[it.name];
  }

  /** Whatever List offers and Create picks, the machine that is launched converts, and the claim reports the capacity
      and allocatable of the type that was picked and the labels of the offering it was picked at. */
  lemma LaunchReadsBack(zoneGroups: map<string, int>, clusterID: string, cache: Cache, now: nat, s: Settings,
                        odTypes: seq<QuotaItem>, spotTypes: seq<QuotaItem>, types: seq<InstanceType>,
                        nodeClass: NodeClass, nodeClaim: NodeClaim, fits: InstanceType -> bool, minValuesMet: bool,
                        apiOk: bool, outcome: Outcome)
    returns (it: InstanceType, o: Offering, from: QuotaItem)
    requires ZoneCodec.ValidTable(zoneGroups) && AvoidsProviderKeys(nodeClaim)
    requires FitsInt64(odTypes) && FitsInt64(spotTypes)
    requires Listed(zoneGroups, cache, now, Sizing(s), odTypes, spotTypes, types)
    requires CloudProvider.Created(zoneGroups, clusterID, nodeClass, nodeClaim,
                                   CloudProvider.Resolve(nodeClaim.reqs, fits, types), minValuesMet, apiOk, outcome)
    requires outcome.Launched?
    ensures it in types && o in it.offerings && o.available && Compatible(nodeClaim.reqs, o)
    ensures QuotedAs(o.capacityType, odTypes, spotTypes, from) && from.instanceType == it.name &&
            o.price == from.unitPrice
    ensures Lookup(outcome.machine.annotations, KeyText(UnitPrice)) == Itoa(PriceUnits(from.unitPrice))
    ensures MachineToNodeClaim(zoneGroups, outcome.machine).Ok?
    ensures var c := MachineToNodeClaim(zoneGroups, outcome.machine).value;
            && c.capacity == NonZero(it.capacity) && c.allocatable == NonZero(Allocatable(it.capacity, it.overhead))
            && Lookup(c.labels, LABEL_ZONE_ID) == o.zoneID && Lookup(c.labels, LABEL_CAPACITY_TYPE) == o.capacityType
            && Lookup(c.labels, LABEL_CPU) == Itoa(it.cpu) && Lookup(c.labels, LABEL_MEMORY_GB) == Itoa(it.memoryGB)
            && Lookup(c.labels, LABEL_INSTANCE_TYPE) == it.name && Lookup(c.labels, LABEL_FAMILY) == it.family
            && Lookup(c.labels, LABEL_ARCH) == it.arch && Lookup(c.labels, LABEL_OS) == "linux"
            && Lookup(c.labels, LABEL_NODE_POOL) == Lookup(nodeClaim.labels, LABEL_NODE_POOL)
  {
    it, o := CloudProvider.LaunchIsCoherent(zoneGroups, clusterID, nodeClass, nodeClaim, fits, types, minValuesMet,
                                            apiOk, outcome);
    var item := ListedIsSized(zoneGroups, cache, now, s, odTypes, spotTypes, types, it);
    SizingKeepsIdentity(s);
    from := ListedOfferingIsUnblocked(zoneGroups, cache, now, Sizing(s), odTypes, spotTypes, types, it, o);
    LaunchedReadsBack(zoneGroups, clusterID, nodeClass, nodeClaim, s, item, it.offerings, from, o, outcome.machine);
    UnitPriceIsWritten(zoneGroups, clusterID, nodeClass, nodeClaim, it, o, outcome.machine);
  }
}
