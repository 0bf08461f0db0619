/** What the sizes of a listed instance type amount to: pods, network devices and what is held back
    (pkg/providers/instancetype/types.go). */
module InstanceSizes {
  import opened Text
  import opened InstanceTypes
  import opened Reservation

  /** Public addresses: one for every six cores, at least one and at most nine. */
  lemma EIPFormula(cpu: int)
    ensures EIPCapacity(cpu) == var share := 1 + (if cpu < 0 then 0 else cpu / 6); if share < 9 then share else 9
  {}

  ghost predicate IsFirstLimit(limits: seq<PodLimits>, instanceType: string, k: nat) {
    k < |limits| && limits[k].instanceType == instanceType && forall l | 0 <= l < k ::
      limits[l].instanceType != instanceType
  }

  lemma {:induction false} FirstLimitIsFound(limits: seq<PodLimits>, instanceType: string, k: nat)
    requires IsFirstLimit(limits, instanceType, k)
    ensures FindLimits(limits, instanceType) == Some(limits[k])
    decreases k
  {
    if k > 0 {
      assert forall l | 0 <= l < k :: limits[1..][l] == limits[l + 1];
      FirstLimitIsFound(limits[1..], instanceType, k - 1);
    }
  }

  lemma {:induction false} NoLimitIsFound(limits: seq<PodLimits>, instanceType: string)
    requires forall l | l in limits :: l.instanceType != instanceType
    ensures FindLimits(limits, instanceType) == None
    decreases |limits|
  {
    if limits != [] {
      assert limits[0] in limits;
      NoLimitIsFound(limits[1..], instanceType);
    }
  }

  /** The cluster's network leaves pods addresses of their own. */
  predicate HasENI(cluster: Cluster) {
    || cluster.property.None?
    || cluster.property.value.vpcCniType != ""
    || cluster.property.value.networkType == "VPC-CNI"
    || cluster.property.value.hasMetaFeature
  }

  function LimitsIn(s: Settings, zone: string): seq<PodLimits> {
    if zone in s.eniLimits then s.eniLimits[zone] else []
  }

  /** The limits that apply to an item: the first entry for its type in its zone. */
  ghost predicate HasLimits(s: Settings, item: QuotaItem, l: PodLimits) {
    HasENI(s.cluster) && exists k: nat ::
      IsFirstLimit(LimitsIn(s, item.zone), item.instanceType, k) && l == LimitsIn(s, item.zone)[k]
  }

  ghost predicate HasNoLimits(s: Settings, item: QuotaItem) {
    !HasENI(s.cluster) || forall l | l in LimitsIn(s, item.zone) :: l.instanceType != item.instanceType
  }

  lemma LimitsFound(s: Settings, item: QuotaItem, l: PodLimits)
    ensures var usable := UsableLimits(s.cluster, LimitsIn(s, item.zone));
            && usable == (if HasENI(s.cluster) then LimitsIn(s, item.zone) else [])
            && (HasLimits(s, item, l) ==> FindLimits(usable, item.instanceType) == Some(l))
            && (HasNoLimits(s, item) ==> FindLimits(usable, item.instanceType) == None)
  {
    var limits := LimitsIn(s, item.zone);
    if HasLimits(s, item, l) {
      var k: nat :| IsFirstLimit(limits, item.instanceType, k) && l == limits[k];
      FirstLimitIsFound(limits, item.instanceType, k);
    }
    if HasNoLimits(s, item) && HasENI(s.cluster) {
      NoLimitIsFound(limits, item.instanceType);
    }
  }

  /** Three less than the cluster allows on a node, outside VPC-CNI. */
  predicate HasPodLimit(cluster: Cluster, pods: int) {
    && cluster.property.Some? && cluster.property.value.networkType != "VPC-CNI"
    && cluster.maxNodePodNum == Some(pods + 3) && pods > 0
  }

  predicate HasNoPodLimit(cluster: Cluster) {
    || cluster.property.None? || cluster.property.value.networkType == "VPC-CNI"
    || cluster.maxNodePodNum.None? || cluster.maxNodePodNum.value <= 3
  }

  /** Pods: the cluster's limit where there is one; else as many as there are static addresses, at least 61, where the
      type has such; else 110. */
  lemma PodsOfListed(s: Settings, item: QuotaItem, offerings: seq<Offering>, pods: int, l: PodLimits)
    ensures var c := NewInstanceType(s, item, offerings).capacity;
            && PODS in c
            && (HasPodLimit(s.cluster, pods) ==> c[PODS] == pods)
            && (HasNoPodLimit(s.cluster) && HasLimits(s, item, l) && l.staticIP == Some(pods) && pods > 0 ==>
                  c[PODS] == if pods > 61 then pods else 61)
            && (HasNoPodLimit(s.cluster) && HasLimits(s, item, l) && (l.staticIP == None || l.staticIP.value <= 0) ==>
                  c[PODS] == 110)
            && (HasNoPodLimit(s.cluster) && HasNoLimits(s, item) ==> c[PODS] == 110)
  {
    LimitsFound(s, item, l);
  }

  /** Devices: those of the type's limits and no others. */
  lemma DevicesOfListed(s: Settings, item: QuotaItem, offerings: seq<Offering>, l: PodLimits)
    ensures var c := NewInstanceType(s, item, offerings).capacity;
            && (HasLimits(s, item, l) ==>
                  && Held(c, ENI_IP) == l.staticIP && Held(c, DIRECT_ENI) == l.directENI
                  && Held(c, ENI) == l.directENI && Held(c, SUB_ENI) == l.subENI)
            && (HasNoLimits(s, item) ==> c.Keys !! {ENI_IP, DIRECT_ENI, ENI, SUB_ENI})
  {
    LimitsFound(s, item, l);
  }

  /** Addresses where the zone has any limits, and the item's GPUs. */
  lemma AddressesAndGPUsOfListed(s: Settings, item: QuotaItem, offerings: seq<Offering>)
    ensures var c := NewInstanceType(s, item, offerings).capacity;
            && Held(c, EIP) == (if HasENI(s.cluster) &&
                                LimitsIn(s, item.zone) != [] then Some(EIPCapacity(item.cpu)) else None)
            && Held(c, GPU) == (if item.gpu > 0 then Some(item.gpu) else None)
  {}

  function Held(r: Resources, name: ResourceName): Option<int> {
    if name in r then Some(r[name]) else None
  }

  /** On newer clusters the memory reserved grows with the pods, 20 MiB each over 256 MiB, up to what older clusters
      reserve. */
  lemma NewerMemoryByPods(memoryGB: int, pods: int)
    ensures var byPods := (20 * pods + 256) * 1_048_576;
            KubeReservedMemory(true, memoryGB, pods) == if byPods <= LegacyMemory(memoryGB) then byPods
              else LegacyMemory(memoryGB)
  {}

  /** What is held back: CPU and memory for Kubernetes, nothing for the system, 100 MiB and a tenth of the storage
      before eviction. */
  lemma OverheadOfListed(s: Settings, item: QuotaItem, offerings: seq<Offering>)
    ensures var it := NewInstanceType(s, item, offerings); var o := it.overhead;
            && o.kubeReserved == map[CPU := KubeReservedCPU(s.newer, item.cpu * 1000),
                                     MEMORY := KubeReservedMemory(s.newer, item.memory, Amount(it.capacity, PODS))]
            && o.systemReserved == map[]
            && o.evictionThreshold.Keys == {MEMORY, STORAGE} && o.evictionThreshold[MEMORY] == 104_857_600
            && o.evictionThreshold[STORAGE] == s.storageInGB * 100_000_000
  {
    BasicCapacity(s, item, offerings);
    StorageTenth(s.storageInGB);
  }

  lemma StorageTenth(gb: nat)
    ensures EvictionStorage(gb * 1_000_000_000) == gb * 100_000_000
  {
    assert (gb * 1_000_000_000) as real / 100.0 * 10.0 == (gb * 100_000_000) as real;
  }

  /** Name, family, sizes and offerings are the item's; the architecture is amd64 where the item has none. */
  lemma IdentityOfListed(s: Settings, item: QuotaItem, offerings: seq<Offering>)
    ensures var it := NewInstanceType(s, item, offerings);
            && it.name == item.instanceType && it.family == item.instanceFamily && it.offerings == offerings
            && it.cpu == item.cpu && it.memoryGB == item.memory
            && (item.arch != "" ==> it.arch == item.arch) && (item.arch == "" ==> it.arch == "amd64")
  {}

  /** What is left for pods is the capacity without all three kinds of overhead, for every resource. */
  lemma AllocatableIs(it: InstanceType, name: ResourceName)
    requires name in it.capacity
    ensures name in Allocatable(it.capacity, it.overhead)
    ensures Allocatable(it.capacity, it.overhead)[name] + Amount(it.overhead.kubeReserved, name)
            + Amount(it.overhead.systemReserved, name) + Amount(it.overhead.evictionThreshold,
                                                                name) == it.capacity[name]
  {}
}
