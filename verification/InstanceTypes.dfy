/** Instance types and their offerings: what pkg/providers/instancetype builds from the cloud's quota items,
    under the blocks and failure counts it keeps. */
module InstanceTypes {
  import opened Text
  import opened Blacklist
  import opened Reservation
  import ZoneCodec
  import Zone

  /* ---------- data ---------- */

  /** The resources an instance type is sized in. */
  datatype ResourceName = CPU | MEMORY | PODS | STORAGE | ENI_IP | DIRECT_ENI | ENI | SUB_ENI | EIP | GPU

  type Resources = map<ResourceName, int>

  function Amount(r: Resources, name: ResourceName): int {
    if name in r then r[name] else 0
  }

  datatype Overhead = Overhead(kubeReserved: Resources, systemReserved: Resources, evictionThreshold: Resources)

  datatype Offering = Offering(capacityType: string, zoneID: string, zone: string, price: real, available: bool)

  datatype QuotaItem = QuotaItem(zone: string, instanceFamily: string, instanceType: string, cpu: int, memory: int,
                                 gpu: int, inventory: int, status: string, unitPrice: real, arch: string)

  /** An instance type: its own single-valued labels, its offerings and its size. */
  datatype InstanceType = InstanceType(name: string, family: string, cpu: int, memoryGB: int, arch: string,
                                       offerings: seq<Offering>, capacity: Resources, overhead: Overhead)

  /** Capacity minus all three kinds of overhead. */
  function Allocatable(capacity: Resources, o: Overhead): Resources {
    map name | name in capacity ::
      capacity[name] - Amount(o.kubeReserved, name) - Amount(o.systemReserved, name) - Amount(o.evictionThreshold, name)
  }

  datatype PodLimits = PodLimits(instanceType: string, staticIP: Option<int>, directENI: Option<int>,
                                 subENI: Option<int>)

  /** The cluster property of interest, when there is one, and the cluster's pod limit. */
  datatype Cluster = Cluster(property: Option<ClusterProperty>, maxNodePodNum: Option<int>)

  datatype ClusterProperty = ClusterProperty(networkType: string, vpcCniType: string, hasMetaFeature: bool)

  datatype Settings = Settings(storageInGB: nat, newer: bool, overheadPercent: real,
                               eniLimits: map<string, seq<PodLimits>>, cluster: Cluster)

  /* ---------- sizing an instance type ---------- */

  function FindLimits(limits: seq<PodLimits>, instanceType: string): Option<PodLimits> {
    if limits == [] then None
    else if limits[0].instanceType == instanceType then Some(limits[0])
    else FindLimits(limits[1..], instanceType)
  }

  function PodCapacity(maxPods: Option<int>, staticIP: Option<int>): (pods: int)
    ensures pods > 0
  {
    if maxPods.Some? && maxPods.value > 0 then maxPods.value
    else if staticIP.Some? && staticIP.value > 0 then (if staticIP.value < 61 then 61 else staticIP.value)
    else 110
  }

  function EIPCapacity(cpu: int): int {
    if cpu < 6 then 1 else if cpu < 12 then 2 else if cpu < 18 then 3 else if cpu < 24 then 4 else if cpu < 30 then 5
    else if cpu < 36 then 6 else if cpu < 42 then 7 else if cpu < 48 then 8 else 9
  }

  function MaxPods(cluster: Cluster): Option<int> {
    if cluster.property.Some? && cluster.property.value.networkType != "VPC-CNI" &&
       cluster.maxNodePodNum.Some? && cluster.maxNodePodNum.value > 3
    then Some(cluster.maxNodePodNum.value - 3) else None
  }

  function UsableLimits(cluster: Cluster, limits: seq<PodLimits>): seq<PodLimits> {
    if cluster.property.Some? && cluster.property.value.vpcCniType == "" &&
       cluster.property.value.networkType != "VPC-CNI" && !cluster.property.value.hasMetaFeature
    then [] else limits
  }

  function Put(r: Resources, name: ResourceName, amount: Option<int>): Resources {
    if amount.Some? then r[name := amount.value] else r
  }

  function ComputeCapacity(s: Settings, item: QuotaItem, maxPods: Option<int>, limits: seq<PodLimits>): Resources {
    var found := FindLimits(limits, item.instanceType);
    var (staticIP, directENI, subENI) :=
      if found.Some? then (found.value.staticIP, found.value.directENI, found.value.subENI) else (None, None, None);
    var r := map[
      CPU := item.cpu * 1000,
      MEMORY := MemoryCapacity(item.memory * GI, s.overheadPercent),
      STORAGE := s.storageInGB * 1_000_000_000,
      PODS := PodCapacity(maxPods, staticIP)
    ];
    var r := Put(r, EIP, if limits != [] then Some(EIPCapacity(item.cpu)) else None);
    var r := Put(r, ENI_IP, staticIP);
    var r := Put(Put(r, DIRECT_ENI, directENI), ENI, directENI);
    var r := Put(r, SUB_ENI, subENI);
    Put(r, GPU, if item.gpu > 0 then Some(item.gpu) else None)
  }

  function NewInstanceType(s: Settings, item: QuotaItem, offerings: seq<Offering>): InstanceType {
    var limits := UsableLimits(s.cluster, if item.zone in s.eniLimits then s.eniLimits[item.zone] else []);
    var capacity := ComputeCapacity(s, item, MaxPods(s.cluster), limits);
    var overhead := Overhead(
      map[MEMORY := KubeReservedMemory(s.newer, item.memory, capacity[PODS]),
          CPU := KubeReservedCPU(s.newer, capacity[CPU])],
      map[],
      map[MEMORY := EVICTION_MEMORY, STORAGE := EvictionStorage(capacity[STORAGE])]);
    InstanceType(item.instanceType, item.instanceFamily, item.cpu, item.memory,
                 if item.arch == "" then "amd64" else item.arch, offerings, capacity, overhead)
  }

  lemma BasicCapacity(s: Settings, item: QuotaItem, offerings: seq<Offering>)
    ensures var c := NewInstanceType(s, item, offerings).capacity;
            && CPU in c && MEMORY in c && STORAGE in c && PODS in c
            && c[CPU] == item.cpu * 1000 && c[MEMORY] == MemoryCapacity(item.memory * GI, s.overheadPercent)
            && c[STORAGE] == s.storageInGB * 1_000_000_000 && c[PODS] > 0
  {}

  /** Every machine of at least one core and one GB keeps CPU and memory for pods, and a fraction of any disk. */
  lemma ListedTypeLeavesRoom(s: Settings, item: QuotaItem, offerings: seq<Offering>)
    requires item.cpu >= 1 && item.memory >= 1 && s.overheadPercent < 167.0 / 256.0
    ensures var it := NewInstanceType(s, item, offerings); var a := Allocatable(it.capacity, it.overhead);
            && CPU in a && 0 < a[CPU] < it.capacity[CPU]
            && MEMORY in a && 0 < a[MEMORY]
            && STORAGE in a && 0 <= a[STORAGE] && (s.storageInGB > 0 ==> 0 < a[STORAGE])
  {
    BasicCapacity(s, item, offerings);
    var it := NewInstanceType(s, item, offerings);
    var a := Allocatable(it.capacity, it.overhead);
    var storage := s.storageInGB * 1_000_000_000;
    assert a[CPU] == item.cpu * 1000 - KubeReservedCPU(s.newer, item.cpu * 1000);
    assert a[MEMORY] == MemoryCapacity(item.memory * GI, s.overheadPercent)
                        - KubeReservedMemory(s.newer, item.memory, it.capacity[PODS]) - EVICTION_MEMORY;
    assert a[STORAGE] == storage - EvictionStorage(storage);
    CPUFits(item.cpu * 1000);
    MemoryFitsBelow(s.newer, item.memory, it.capacity[PODS], s.overheadPercent);
    StorageFits(storage);
  }

  /* ---------- offerings under blocks ---------- */

  /** The zone ID of an offering: empty when the zone is not understood, as the error is dropped. */
  function ZoneIDOrEmpty(zoneGroups: map<string, int>, zone: string): string {
    match ZoneCodec.IDOf(zoneGroups, zone)
    case Ok(id) => id
    case Err(_) => ""
  }

  function OfferingOf(zoneGroups: map<string, int>, capacityType: string, item: QuotaItem): Offering {
    Offering(capacityType, ZoneIDOrEmpty(zoneGroups, item.zone), item.zone, item.unitPrice,
             item.status == "SELL" && item.inventory > 0)
  }

  predicate Sellable(cache: Cache, now: nat, capacityType: string, item: QuotaItem) {
    !IsBlocked(cache, item.instanceType, capacityType, item.zone, now)
  }

  /** The offerings of one instance type from one capacity type's quota items, in their order. */
  function Offered(zoneGroups: map<string, int>, cache: Cache, now: nat, capacityType: string,
                   items: seq<QuotaItem>, name: string): seq<Offering>
  {
    if items == [] then []
    else
      var last := items[|items| - 1];
      Offered(zoneGroups, cache, now, capacityType, items[..|items| - 1], name) +
      if last.instanceType == name && Sellable(cache, now, capacityType, last)
      then [OfferingOf(zoneGroups, capacityType, last)] else []
  }

  /** Nothing is offered but the unblocked items, and each of them is. */
  lemma {:induction false} OfferedIff(zoneGroups: map<string, int>, cache: Cache, now: nat, capacityType: string,
                                      items: seq<QuotaItem>, name: string, o: Offering)
    ensures o in Offered(zoneGroups, cache, now, capacityType, items, name) <==>
            exists item | item in items && item.instanceType == name ::
              Sellable(cache, now, capacityType, item) && o == OfferingOf(zoneGroups, capacityType, item)
    decreases |items|
  {
    if items != [] {
      var n := |items| - 1;
      OfferedIff(zoneGroups, cache, now, capacityType, items[..n], name, o);
      assert items == items[..n] + [items[n]];
    }
  }

  /** ks are the places of one type's unblocked items, in order. */
  ghost predicate ArePlaces(cache: Cache, now: nat, capacityType: string, items: seq<QuotaItem>, name: string,
                            ks: seq<nat>)
  {
    && (forall a | 0 <= a < |ks| :: ks[a] < |items|)
    && (forall a, b | 0 <= a < b < |ks| :: ks[a] < ks[b])
    && forall k: nat | k < |items| ::
         k in ks <==> items[k].instanceType == name &&
                      !IsBlocked(cache, items[k].instanceType, capacityType, items[k].zone, now)
  }

  ghost predicate AreOfferingsAt(capacityType: string, items: seq<QuotaItem>, ks: seq<nat>, offerings: seq<Offering>)
    requires forall a | 0 <= a < |ks| :: ks[a] < |items|
  {
    && |offerings| == |ks|
    && forall a | 0 <= a < |ks| ::
         offerings[a].capacityType == capacityType && offerings[a].zone == items[ks[a]].zone &&
         offerings[a].price == items[ks[a]].unitPrice
  }

  /** They are offered in the order the cloud quotes them, one offering each. */
  lemma {:induction false} OfferedInOrder(zoneGroups: map<string, int>, cache: Cache, now: nat, capacityType: string,
                                          items: seq<QuotaItem>, name: string) returns (ks: seq<nat>)
    ensures ArePlaces(cache, now, capacityType, items, name, ks)
    ensures AreOfferingsAt(capacityType, items, ks, Offered(zoneGroups, cache, now, capacityType, items, name))
    decreases |items|
  {
    ks := [];
    if items != [] {
      var n := |items| - 1;
      var before := OfferedInOrder(zoneGroups, cache, now, capacityType, items[..n], name);
      PlacesStep(cache, now, capacityType, items, name, before);
      OfferingsStep(zoneGroups, capacityType, items, before,
                    Offered(zoneGroups, cache, now, capacityType, items[..n], name));
      ks := if items[n].instanceType == name && Sellable(cache, now, capacityType, items[n]) then before + [n]
            else before;
    }
  }

  lemma OfferingsStep(zoneGroups: map<string, int>, capacityType: string, items: seq<QuotaItem>, ks: seq<nat>,
                      offerings: seq<Offering>)
    requires items != [] && forall a | 0 <= a < |ks| :: ks[a] < |items| - 1
    requires AreOfferingsAt(capacityType, items[..|items| - 1], ks, offerings)
    ensures AreOfferingsAt(capacityType, items, ks, offerings)
    ensures var n := |items| - 1; AreOfferingsAt(capacityType, items, ks + [n], offerings +
            [OfferingOf(zoneGroups, capacityType, items[n])])
  {
    assert forall a | 0 <= a < |ks| :: items[..|items| - 1][ks[a]] == items[ks[a]];
  }

  lemma PlacesStep(cache: Cache, now: nat, capacityType: string, items: seq<QuotaItem>, name: string, before: seq<nat>)
    requires items != [] && ArePlaces(cache, now, capacityType, items[..|items| - 1], name, before)
    ensures var n := |items| - 1;
            ArePlaces(cache, now, capacityType, items, name,
                      if items[n].instanceType == name && Sellable(cache, now, capacityType, items[n])
                      then before + [n] else before)
  {
    var n := |items| - 1;
    assert forall k: nat | k < n :: items[..n][k] == items[k];
    assert forall k: nat :: k in before + [n] <==> k in before || k == n;
  }

  function LastByType(items: seq<QuotaItem>): map<string, QuotaItem> {
    if items == [] then map[]
    else LastByType(items[..|items| - 1])[items[|items| - 1].instanceType := items[|items| - 1]]
  }

  /** The last on-demand item of each type; for the others the first spot item that is not blocked. */
  function ByType(cache: Cache, now: nat, odTypes: seq<QuotaItem>, spotTypes: seq<QuotaItem>): map<string, QuotaItem> {
    if spotTypes == [] then LastByType(odTypes)
    else
      var last := spotTypes[|spotTypes| - 1];
      var before := ByType(cache, now, odTypes, spotTypes[..|spotTypes| - 1]);
      if Sellable(cache, now, SPOT, last) && last.instanceType !in before then before[last.instanceType := last]
      else before
  }

  predicate KeyedByName(m: map<string, QuotaItem>) {
    forall name | name in m :: m[name].instanceType == name
  }

  ghost predicate IsLastOfType(items: seq<QuotaItem>, name: string, k: nat) {
    k < |items| && items[k].instanceType == name && forall l | k < l < |items| :: items[l].instanceType != name
  }

  /** A type's item is the last of that name, and only names without items have none. */
  lemma {:induction false} LastByTypeIs(items: seq<QuotaItem>, name: string)
    ensures name in LastByType(items) <==> exists item | item in items :: item.instanceType == name
    ensures name in LastByType(items) ==>
              exists k: nat :: IsLastOfType(items, name, k) && LastByType(items)[name] == items[k]
    decreases |items|
  {
    if items != [] {
      var n := |items| - 1;
      LastByTypeIs(items[..n], name);
      assert items == items[..n] + [items[n]];
      if items[n].instanceType == name {
        assert IsLastOfType(items, name, n);
      } else if name in LastByType(items[..n]) {
        var k: nat :| IsLastOfType(items[..n], name, k) && LastByType(items[..n])[name] == items[..n][k];
        assert IsLastOfType(items, name, k);
      }
    }
  }

  /** The item is the first of that name that is not blocked as spot. */
  ghost predicate IsFirstSellable(cache: Cache, now: nat, items: seq<QuotaItem>, name: string, k: nat) {
    && k < |items| && items[k].instanceType == name && Sellable(cache, now, SPOT, items[k])
    && forall l | 0 <= l < k && items[l].instanceType == name :: !Sellable(cache, now, SPOT, items[l])
  }

  /** A type with on-demand items is sized by the last of them, any other by its first unblocked spot item. */
  lemma {:induction false} ByTypeIs(cache: Cache, now: nat, odTypes: seq<QuotaItem>, spotTypes: seq<QuotaItem>,
                                    name: string)
    ensures var byType, od := ByType(cache, now, odTypes, spotTypes), LastByType(odTypes);
            && (name in byType <==>
                  name in od ||
                  exists item | item in spotTypes :: item.instanceType == name && Sellable(cache, now, SPOT, item))
            && (name in od ==> byType[name] == od[name])
            && (name in byType && name !in od ==>
                  exists k: nat :: IsFirstSellable(cache, now, spotTypes, name, k) && byType[name] == spotTypes[k])
    decreases |spotTypes|
  {
    if spotTypes != [] {
      var n := |spotTypes| - 1;
      var before, last := ByType(cache, now, odTypes, spotTypes[..n]), spotTypes[n];
      ByTypeIs(cache, now, odTypes, spotTypes[..n], name);
      assert spotTypes == spotTypes[..n] + [last];
      if name !in LastByType(odTypes) {
        if name in before {
          var k: nat :| IsFirstSellable(cache, now, spotTypes[..n], name, k) && before[name] == spotTypes[..n][k];
          assert IsFirstSellable(cache, now, spotTypes, name, k);
        } else if last.instanceType == name && Sellable(cache, now, SPOT, last) {
          assert IsFirstSellable(cache, now, spotTypes, name, n);
        }
      }
    }
  }

  lemma {:induction false} LastByTypeNames(items: seq<QuotaItem>)
    ensures KeyedByName(LastByType(items))
    decreases |items|
  {
    if items != [] {
      LastByTypeNames(items[..|items| - 1]);
    }
  }

  lemma {:induction false} ByTypeNames(cache: Cache, now: nat, odTypes: seq<QuotaItem>, spotTypes: seq<QuotaItem>)
    ensures KeyedByName(ByType(cache, now, odTypes, spotTypes))
    decreases |spotTypes|
  {
    if spotTypes != [] {
      var n := |spotTypes| - 1;
      ByTypeNames(cache, now, odTypes, spotTypes[..n]);
      var before, last := ByType(cache, now, odTypes, spotTypes[..n]), spotTypes[n];
      assert KeyedByName(before[last.instanceType := last]);
    } else {
      LastByTypeNames(odTypes);
    }
  }

  /** How a quota item and its offerings become an instance type. */
  type Build = (QuotaItem, seq<Offering>) -> InstanceType

  function Sizing(s: Settings): Build {
    (item, offerings) => NewInstanceType(s, item, offerings)
  }

  /** All that offering and launching rely on: the type keeps the item's name and carries the offerings. */
  ghost predicate KeepsIdentity(build: Build) {
    forall item, offerings ::
      build(item, offerings).name == item.instanceType && build(item, offerings).offerings == offerings
  }

  lemma SizingKeepsIdentity(s: Settings)
    ensures KeepsIdentity(Sizing(s))
  {}

  ghost predicate NamedOnce(types: seq<InstanceType>, names: set<string>) {
    && (forall k, l | 0 <= k < l < |types| :: types[k].name != types[l].name)
    && (forall k | 0 <= k < |types| :: types[k].name in names)
    && (forall name | name in names :: exists k | 0 <= k < |types| :: types[k].name == name)
  }

  lemma NamedOnceStep(types: seq<InstanceType>, names: set<string>, it: InstanceType)
    requires NamedOnce(types, names) && it.name !in names
    ensures NamedOnce(types + [it], names + {it.name})
  {
    var after := types + [it];
    assert after[|types|] == it && forall k | 0 <= k < |types| :: after[k] == types[k];
    forall name | name in names ensures exists k | 0 <= k < |after| :: after[k].name == name {
      var k :| 0 <= k < |types| && types[k].name == name;
      assert after[k].name == name;
    }
  }

  function OfferedUnder(zoneGroups: map<string, int>, cache: Cache, now: nat,
                        odTypes: seq<QuotaItem>, spotTypes: seq<QuotaItem>, name: string): seq<Offering>
  {
    Offered(zoneGroups, cache, now, ON_DEMAND, odTypes, name) + Offered(zoneGroups, cache, now, SPOT, spotTypes, name)
  }

  ghost predicate AllBuilt(zoneGroups: map<string, int>, cache: Cache, now: nat, build: Build, odTypes: seq<QuotaItem>,
                           spotTypes: seq<QuotaItem>, byType: map<string, QuotaItem>, types: seq<InstanceType>)
  {
    forall k | 0 <= k < |types| ::
      types[k].name in byType &&
      types[k] == build(byType[types[k].name], OfferedUnder(zoneGroups, cache, now, odTypes, spotTypes, types[k].name))
  }

  /** What List may return: one instance type per name, in whatever order the map yields. */
  ghost predicate Listed(zoneGroups: map<string, int>, cache: Cache, now: nat, build: Build,
                         odTypes: seq<QuotaItem>, spotTypes: seq<QuotaItem>, types: seq<InstanceType>)
  {
    var byType := ByType(cache, now, odTypes, spotTypes);
    NamedOnce(types, byType.Keys) && AllBuilt(zoneGroups, cache, now, build, odTypes, spotTypes, byType, types)
  }

  /** Every offering List returns stems from a quota item of that type whose own capacity type and zone
      are not blocked at that moment. */
  lemma ListedOfferingIsUnblocked(zoneGroups: map<string, int>, cache: Cache, now: nat, build: Build,
                                  odTypes: seq<QuotaItem>, spotTypes: seq<QuotaItem>, types: seq<InstanceType>,
                                  it: InstanceType, o: Offering) returns (item: QuotaItem)
    requires Listed(zoneGroups, cache, now, build, odTypes, spotTypes, types) && KeepsIdentity(build)
    requires it in types && o in it.offerings
    ensures item in odTypes || item in spotTypes
    ensures item.instanceType == it.name && o.capacityType in {SPOT, ON_DEMAND}
    ensures o.capacityType == SPOT ==> item in spotTypes
    ensures o.capacityType == ON_DEMAND ==> item in odTypes
    ensures !IsBlocked(cache, it.name, o.capacityType, item.zone, now)
    ensures o.price == item.unitPrice && o.zone == item.zone
    ensures o.available <==> item.status == "SELL" && item.inventory > 0
    ensures o.zoneID == match ZoneCodec.IDOf(zoneGroups, item.zone) case Ok(id) => id case Err(_) => ""
    ensures o == OfferingOf(zoneGroups, o.capacityType, item)
  {
    assert |SPOT| != |ON_DEMAND|;
    ByTypeNames(cache, now, odTypes, spotTypes);
    var od := Offered(zoneGroups, cache, now, ON_DEMAND, odTypes, it.name);
    OfferedIff(zoneGroups, cache, now, ON_DEMAND, odTypes, it.name, o);
    OfferedIff(zoneGroups, cache, now, SPOT, spotTypes, it.name, o);
    if o in od {
      item :| item in odTypes && item.instanceType == it.name && Sellable(cache, now, ON_DEMAND, item)
              && o == OfferingOf(zoneGroups, ON_DEMAND, item);
    } else {
      item :| item in spotTypes && item.instanceType == it.name && Sellable(cache, now, SPOT, item)
              && o == OfferingOf(zoneGroups, SPOT, item);
    }
  }

  /** A listed type offers its on-demand items first, then its spot ones, each in the order the cloud quotes them. */
  lemma ListedInOrder(zoneGroups: map<string, int>, cache: Cache, now: nat, build: Build, odTypes: seq<QuotaItem>,
                      spotTypes: seq<QuotaItem>, types: seq<InstanceType>, it: InstanceType)
    returns (od: seq<nat>, spot: seq<nat>)
    requires Listed(zoneGroups, cache, now, build, odTypes, spotTypes, types) && KeepsIdentity(build) && it in types
    ensures ArePlaces(cache, now, "on-demand", odTypes, it.name, od)
    ensures ArePlaces(cache, now, "spot", spotTypes, it.name, spot)
    ensures |it.offerings| == |od| + |spot| && AreOfferingsAt("on-demand", odTypes, od, it.offerings[..|od|])
    ensures AreOfferingsAt("spot", spotTypes, spot, it.offerings[|od|..])
  {
    ByTypeNames(cache, now, odTypes, spotTypes);
    od := OfferedInOrder(zoneGroups, cache, now, ON_DEMAND, odTypes, it.name);
    spot := OfferedInOrder(zoneGroups, cache, now, SPOT, spotTypes, it.name);
    var first, second := Offered(zoneGroups, cache, now, ON_DEMAND, odTypes, it.name),
                         Offered(zoneGroups, cache, now, SPOT, spotTypes, it.name);
    assert it.offerings == first + second;
    assert it.offerings[..|first|] == first && it.offerings[|first|..] == second;
  }

  /** The items quoted for a capacity type. */
  predicate QuotedAs(capacityType: string, odTypes: seq<QuotaItem>, spotTypes: seq<QuotaItem>, item: QuotaItem) {
    (capacityType == ON_DEMAND && item in odTypes) || (capacityType == SPOT && item in spotTypes)
  }

  /** Every quoted item that is not blocked is offered by the listed type of its name, at its own price. */
  lemma UnblockedItemIsListed(zoneGroups: map<string, int>, cache: Cache, now: nat, build: Build,
                              odTypes: seq<QuotaItem>, spotTypes: seq<QuotaItem>, types: seq<InstanceType>,
                              capacityType: string, item: QuotaItem) returns (it: InstanceType, o: Offering)
    requires Listed(zoneGroups, cache, now, build, odTypes, spotTypes, types) && KeepsIdentity(build)
    requires QuotedAs(capacityType, odTypes, spotTypes, item)
    requires !IsBlocked(cache, item.instanceType, capacityType, item.zone, now)
    ensures it in types && it.name == item.instanceType && o in it.offerings
    ensures o.capacityType == capacityType && o.price == item.unitPrice && o.zone == item.zone
    ensures o.available <==> item.status == "SELL" && item.inventory > 0
    ensures o.zoneID == match ZoneCodec.IDOf(zoneGroups, item.zone) case Ok(id) => id case Err(_) => ""
  {
    assert |SPOT| != |ON_DEMAND|;
    var name := item.instanceType;
    LastByTypeIs(odTypes, name);
    ByTypeIs(cache, now, odTypes, spotTypes, name);
    var k :| 0 <= k < |types| && types[k].name == name;
    it, o := types[k], OfferingOf(zoneGroups, capacityType, item);
    OfferedIff(zoneGroups, cache, now, capacityType, if capacityType == SPOT then spotTypes else odTypes, name, o);
  }

  /* ---------- filling the two maps ---------- */

  function OfferingsOf(m: map<string, seq<Offering>>, name: string): seq<Offering> {
    if name in m then m[name] else []
  }

  /** m is base with the offerings of these items appended under their names. */
  ghost predicate Collected(zoneGroups: map<string, int>, cache: Cache, now: nat, capacityType: string,
                            base: map<string, seq<Offering>>, items: seq<QuotaItem>, m: map<string, seq<Offering>>)
  {
    forall name ::
      OfferingsOf(m, name) == OfferingsOf(base, name) + Offered(zoneGroups, cache, now, capacityType, items, name)
  }

  function Append(m: map<string, seq<Offering>>, name: string, o: Offering): map<string, seq<Offering>> {
    m[name := OfferingsOf(m, name) + [o]]
  }

  lemma AppendOne(m: map<string, seq<Offering>>, to: string, o: Offering, name: string)
    ensures OfferingsOf(Append(m, to, o), name) ==
            if name == to then OfferingsOf(m, name) + [o] else OfferingsOf(m, name)
  {}

  lemma OfferedStep(zoneGroups: map<string, int>, cache: Cache, now: nat, capacityType: string,
                    items: seq<QuotaItem>, k: nat, name: string)
    requires k < |items|
    ensures Offered(zoneGroups, cache, now, capacityType, items[..k + 1], name) ==
            if items[k].instanceType == name && Sellable(cache, now, capacityType, items[k])
            then Offered(zoneGroups, cache, now, capacityType, items[..k], name) +
                 [OfferingOf(zoneGroups, capacityType, items[k])]
            else Offered(zoneGroups, cache, now, capacityType, items[..k], name)
  {
    assert items[..k + 1][..k] == items[..k];
  }

  lemma ExtendedBy(base: seq<Offering>, before: seq<Offering>, after: seq<Offering>,
                   was: seq<Offering>, o: Offering, grows: bool)
    requires was == base + before && after == if grows then before + [o] else before
    ensures base + after == if grows then was + [o] else was
  {}

  lemma CollectedStep(zoneGroups: map<string, int>, cache: Cache, now: nat, capacityType: string,
                      base: map<string, seq<Offering>>, items: seq<QuotaItem>, k: nat, sellable: bool,
                      m: map<string, seq<Offering>>, m': map<string, seq<Offering>>)
    requires k < |items| && Collected(zoneGroups, cache, now, capacityType, base, items[..k], m)
    requires sellable == Sellable(cache, now, capacityType, items[k])
    requires m' == if sellable then Append(m, items[k].instanceType, OfferingOf(zoneGroups, capacityType, items[k]))
             else m
    ensures Collected(zoneGroups, cache, now, capacityType, base, items[..k + 1], m')
  {
    var to, o := items[k].instanceType, OfferingOf(zoneGroups, capacityType, items[k]);
    forall name ensures OfferingsOf(m', name) ==
                        OfferingsOf(base, name) + Offered(zoneGroups, cache, now, capacityType, items[..k + 1], name)
    {
      OfferedStep(zoneGroups, cache, now, capacityType, items, k, name);
      AppendOne(m, to, o, name);
      ExtendedBy(OfferingsOf(base, name), Offered(zoneGroups, cache, now, capacityType, items[..k], name),
                 Offered(zoneGroups, cache, now, capacityType, items[..k + 1], name),
                 OfferingsOf(m, name), o, sellable && to == name);
    }
  }

  lemma NothingFirst(offerings: seq<Offering>, name: string)
    ensures OfferingsOf(map[], name) + offerings == offerings
  {}

  lemma CollectedBoth(zoneGroups: map<string, int>, cache: Cache, now: nat, odTypes: seq<QuotaItem>,
                      spotTypes: seq<QuotaItem>, od: map<string, seq<Offering>>, m: map<string, seq<Offering>>)
    requires Collected(zoneGroups, cache, now, ON_DEMAND, map[], odTypes, od)
    requires Collected(zoneGroups, cache, now, SPOT, od, spotTypes, m)
    ensures forall name :: OfferingsOf(m, name) == OfferedUnder(zoneGroups, cache, now, odTypes, spotTypes, name)
  {
    forall name ensures OfferingsOf(m, name) == OfferedUnder(zoneGroups, cache, now, odTypes, spotTypes, name) {
      NothingFirst(Offered(zoneGroups, cache, now, ON_DEMAND, odTypes, name), name);
    }
  }

  ghost predicate BuiltFrom(build: Build, m: map<string, seq<Offering>>, byType: map<string, QuotaItem>,
                            types: seq<InstanceType>)
  {
    forall k | 0 <= k < |types| ::
      types[k].name in byType && types[k] == build(byType[types[k].name], OfferingsOf(m, types[k].name))
  }

  lemma BuiltStep(build: Build, m: map<string, seq<Offering>>, byType: map<string, QuotaItem>,
                  types: seq<InstanceType>, name: string)
    requires KeyedByName(byType) && KeepsIdentity(build) && BuiltFrom(build, m, byType, types) && name in byType
    ensures var it := build(byType[name], OfferingsOf(m, name));
            it.name == name && BuiltFrom(build, m, byType, types + [it])
  {
    var it := build(byType[name], OfferingsOf(m, name));
    var after := types + [it];
    assert after[|types|] == it && forall k | 0 <= k < |types| :: after[k] == types[k];
  }

  lemma ByTypeStep(cache: Cache, now: nat, odTypes: seq<QuotaItem>, spotTypes: seq<QuotaItem>, k: nat)
    requires k < |spotTypes|
    ensures var i, before := spotTypes[k], ByType(cache, now, odTypes, spotTypes[..k]);
            ByType(cache, now, odTypes, spotTypes[..k + 1]) ==
            if Sellable(cache, now, SPOT, i) && i.instanceType !in before then before[i.instanceType := i] else before
  {
    assert spotTypes[..k + 1][..k] == spotTypes[..k];
  }

  /* ---------- the provider ---------- */

  class Provider {
    const zoneProvider: Zone.DefaultProvider
    var blacklist: Cache

    ghost predicate Valid()
      reads this
    {
      WellTyped(blacklist)
    }

    constructor (zoneProvider: Zone.DefaultProvider)
      ensures Valid() && blacklist == map[] && this.zoneProvider == zoneProvider
    {
      this.zoneProvider := zoneProvider;
      blacklist := map[];
    }

    method BlockInstanceType(instName: string, capacityType: string, zone: string, now: nat)
      requires Valid()
      modifies this`blacklist
      ensures Valid() && blacklist == Block(old(blacklist), instName, capacityType, zone, now)
    {
      blacklist := blacklist[BlockedKey(instName, capacityType, zone) := Flag(now + BLOCK_TTL)];
    }

    method GetInsufficientFailureCount(instName: string, capacityType: string, zone: string, now: nat) returns (n: nat)
      requires Valid()
      ensures n == FailureCount(blacklist, instName, capacityType, zone, now)
    {
      var key := FailureKey(instName, capacityType, zone);
      if Live(blacklist, key, now) {
        assert key[0] == 'f';
        n := blacklist[key].count;
      } else {
        n := 0;
      }
    }

    method AddInsufficientFailure(instName: string, capacityType: string, zone: string, now: nat)
      requires Valid()
      modifies this`blacklist
      ensures Valid() && blacklist == AddFailure(old(blacklist), instName, capacityType, zone, now)
    {
      var setCount := 1;
      var result := GetInsufficientFailureCount(instName, capacityType, zone, now);
      setCount := setCount + result;
      blacklist := blacklist[FailureKey(instName, capacityType, zone) := Count(setCount, now + HOUR)];
    }

    method CreateOfferings(capacityType: string, item: QuotaItem) returns (offerings: seq<Offering>)
      ensures offerings == [OfferingOf(zoneProvider.zoneGroups, capacityType, item)]
    {
      var available := item.status == "SELL" && item.inventory > 0;
      var zoneID := zoneProvider.IDFromZone(item.zone);
      var id := if zoneID.Ok? then zoneID.value else "";
      offerings := [Offering(capacityType, id, item.zone, item.unitPrice, available)];
    }

    /** The on-demand pass over the quota items fills both maps. */
    method AddOnDemand(odTypes: seq<QuotaItem>, now: nat)
      returns (offeringsMap: map<string, seq<Offering>>, instanceTypeMap: map<string, QuotaItem>)
      ensures Collected(zoneProvider.zoneGroups, blacklist, now, ON_DEMAND, map[], odTypes, offeringsMap)
      ensures instanceTypeMap == LastByType(odTypes)
    {
      offeringsMap, instanceTypeMap := map[], map[];
      for k := 0 to |odTypes|
        invariant Collected(zoneProvider.zoneGroups, blacklist, now, ON_DEMAND, map[], odTypes[..k], offeringsMap)
        invariant instanceTypeMap == LastByType(odTypes[..k])
      {
        var i := odTypes[k];
        ghost var before := offeringsMap;
        if !IsBlocked(blacklist, i.instanceType, ON_DEMAND, i.zone, now) {
          var created := CreateOfferings(ON_DEMAND, i);
          offeringsMap := offeringsMap[i.instanceType := OfferingsOf(offeringsMap, i.instanceType) + created];
        }
        instanceTypeMap := instanceTypeMap[i.instanceType := i];
        CollectedStep(zoneProvider.zoneGroups, blacklist, now, ON_DEMAND, map[], odTypes, k,
          !IsBlocked(blacklist, i.instanceType, ON_DEMAND, i.zone, now), before, offeringsMap);
        assert odTypes[..k + 1][..k] == odTypes[..k];
      }
      assert odTypes[..|odTypes|] == odTypes;
    }

    /** The spot pass skips blocked items and adds types that have no on-demand item. */
    method AddSpot(odOfferings: map<string, seq<Offering>>, odByType: map<string, QuotaItem>,
                   ghost odTypes: seq<QuotaItem>, spotTypes: seq<QuotaItem>, now: nat)
      returns (offeringsMap: map<string, seq<Offering>>, instanceTypeMap: map<string, QuotaItem>)
      requires odByType == LastByType(odTypes)
      ensures Collected(zoneProvider.zoneGroups, blacklist, now, SPOT, odOfferings, spotTypes, offeringsMap)
      ensures instanceTypeMap == ByType(blacklist, now, odTypes, spotTypes)
    {
      offeringsMap, instanceTypeMap := odOfferings, odByType;
      for k := 0 to |spotTypes|
        invariant Collected(zoneProvider.zoneGroups, blacklist, now, SPOT, odOfferings, spotTypes[..k], offeringsMap)
        invariant instanceTypeMap == ByType(blacklist, now, odTypes, spotTypes[..k])
      {
        var i := spotTypes[k];
        ghost var before := offeringsMap;
        ByTypeStep(blacklist, now, odTypes, spotTypes, k);
        if IsBlocked(blacklist, i.instanceType, SPOT, i.zone, now) {
          CollectedStep(zoneProvider.zoneGroups, blacklist, now, SPOT, odOfferings, spotTypes, k, false, before,
                        before);
          continue;
        }
        var created := CreateOfferings(SPOT, i);
        offeringsMap := offeringsMap[i.instanceType := OfferingsOf(offeringsMap, i.instanceType) + created];
        CollectedStep(zoneProvider.zoneGroups, blacklist, now, SPOT, odOfferings, spotTypes, k, true, before,
                      offeringsMap);
        if i.instanceType !in instanceTypeMap {
          instanceTypeMap := instanceTypeMap[i.instanceType := i];
        }
      }
      assert spotTypes[..|spotTypes|] == spotTypes;
    }

    /** One instance type per entry of the map, in an order nobody controls. */
    method BuildAll(build: Build, offeringsMap: map<string, seq<Offering>>, byType: map<string, QuotaItem>)
      returns (types: seq<InstanceType>)
      requires KeyedByName(byType) && KeepsIdentity(build)
      ensures NamedOnce(types, byType.Keys)
      ensures BuiltFrom(build, offeringsMap, byType, types)
    {
      types := [];
      var remaining := byType.Keys;
      ghost var done: set<string> := {};
      while remaining != {}
        invariant remaining <= byType.Keys && done == byType.Keys - remaining
        invariant NamedOnce(types, done)
        invariant BuiltFrom(build, offeringsMap, byType, types)
        decreases |remaining|
      {
        var name :| name in remaining;
        var it := build(byType[name], OfferingsOf(offeringsMap, name));
        BuiltStep(build, offeringsMap, byType, types, name);
        NamedOnceStep(types, done, it);
        types := types + [it];
        remaining, done := remaining - {name}, done + {name};
      }
      assert done == byType.Keys;
    }

    /** List after the quota items, pod limits and cluster information have been fetched. */
    method List(s: Settings, odTypes: seq<QuotaItem>, spotTypes: seq<QuotaItem>, now: nat)
      returns (types: seq<InstanceType>)
      ensures Listed(zoneProvider.zoneGroups, blacklist, now, Sizing(s), odTypes, spotTypes, types)
    {
      var odOfferings, odByType := AddOnDemand(odTypes, now);
      var offeringsMap, byType := AddSpot(odOfferings, odByType, odTypes, spotTypes, now);
      ByTypeNames(blacklist, now, odTypes, spotTypes);
      CollectedBoth(zoneProvider.zoneGroups, blacklist, now, odTypes, spotTypes, odOfferings, offeringsMap);
      SizingKeepsIdentity(s);
      types := BuildAll(Sizing(s), offeringsMap, byType);
    }
  }
}
