/** Creating a Machine (pkg/providers/machine/machine.go): the chosen instance type and offering are written
    into its spec, labels and annotations. */
module MachineLaunch {
  import opened Text
  import opened Objects
  import opened InstanceTypes
  import opened AnnotationKeys
  import opened LaunchChoice
  import Blacklist
  import ZoneCodec
  import Zone

  const LABEL_FAMILY := GROUP + "/instance-family"
  const LABEL_CPU := GROUP + "/instance-cpu"
  const LABEL_MEMORY_GB := GROUP + "/instance-memory-gb"
  const LABEL_ARCH := "kubernetes.io/arch"

  const KUBELET_ARG_PREFIX := "beta.karpenter.k8s.tke.kubelet.arg/"
  const META_ANNOTATIONS_KEY := "beta.karpenter.k8s.tke.machine.meta/annotations"
  const REGISTER_TAINT_KEY := "register-with-taints"
  const REGISTER_TAINT := "karpenter.sh/unregistered:NoExecute"

  datatype NodeClaim = NodeClaim(name: string, kind: string, labels: map<string, string>,
                                 annotations: map<string, string>, reqs: Requirements)

  datatype Subnet = Subnet(id: string, zone: string, zoneID: string)

  /** tags is the encoded tag list, when the class has tags. */
  datatype NodeClass = NodeClass(name: string, subnets: seq<Subnet>, keyIDs: seq<string>, securityGroupIDs: seq<string>,
                                 tags: Option<string>)

  /* ---------- what is written ---------- */

  /** The first subnet of a zone; empty when there is none. */
  function SubnetIn(subnets: seq<Subnet>, zone: string): string {
    if subnets == [] then ""
    else if subnets[0].zone == zone then subnets[0].id
    else SubnetIn(subnets[1..], zone)
  }

  /** A price in units of its tenth digit after the point, to which it is printed: the nearest, and the even one of two
      that are equally near. */
  function PriceUnits(price: real): int {
    var units := price * 10_000_000_000.0;
    var below := units.Floor;
    if units - below as real < 0.5 || (units - below as real == 0.5 && below % 2 == 0) then below else below + 1
  }

  lemma PriceIsNearest(price: real)
    ensures var units := PriceUnits(price) as real; units - 0.5 <= price * 10_000_000_000.0 <= units + 0.5
  {}

  function LabelsOf(nodeClass: NodeClass, nodeClaim: NodeClaim, it: InstanceType, o: Offering): map<string, string> {
    map[LABEL_NODE_POOL := Lookup(nodeClaim.labels, LABEL_NODE_POOL),
        LABEL_NODE_CLAIM := nodeClaim.name,
        LABEL_NODE_CLASS := nodeClass.name]
       [LABEL_FAMILY := it.family][LABEL_CPU := Itoa(it.cpu)][LABEL_MEMORY_GB := Itoa(it.memoryGB)]
       [LABEL_ARCH := it.arch][LABEL_CAPACITY_TYPE := o.capacityType]
  }

  function PutQuantity(record: map<Key, Value>, group: Group, r: Resources, name: ResourceName): map<Key, Value> {
    if name in r then record[Res(group, name) := Quantity(r[name])] else record
  }

  function PutNonZero(record: map<Key, Value>, group: Group, r: Resources, name: ResourceName): map<Key, Value> {
    if Amount(r, name) != 0 then record[Res(group, name) := Quantity(r[name])] else record
  }

  /** A reserved amount of ephemeral storage is written under the memory key, over the reserved memory. */
  function BasicRecord(it: InstanceType, price: real, clusterID: string): map<Key, Value> {
    var reserved, eviction := it.overhead.kubeReserved, it.overhead.evictionThreshold;
    var record := map[
      ManagedBy := Plain(clusterID),
      UnitPrice := Quantity(PriceUnits(price)),
      Res(Capacity, CPU) := Quantity(Amount(it.capacity, CPU)),
      Res(Capacity, MEMORY) := Quantity(Amount(it.capacity, MEMORY)),
      Res(Capacity, PODS) := Quantity(Amount(it.capacity, PODS)),
      Res(Capacity, STORAGE) := Quantity(Amount(it.capacity, STORAGE)),
      Res(KubeReserved, CPU) := Quantity(Amount(reserved, CPU)),
      Res(KubeReserved, MEMORY) := Quantity(Amount(reserved, MEMORY)),
      Res(EvictionThreshold, MEMORY) := Quantity(Amount(eviction, MEMORY)),
      Res(EvictionThreshold, STORAGE) := Quantity(Amount(eviction, STORAGE))
    ];
    if Amount(reserved, STORAGE) != 0 then record[Res(KubeReserved, MEMORY) := Quantity(reserved[STORAGE])] else record
  }

  function WithSystemReserved(record: map<Key, Value>, system: Resources): map<Key, Value> {
    PutNonZero(PutNonZero(PutNonZero(record, SystemReserved, system, CPU), SystemReserved, system, MEMORY),
               SystemReserved, system, STORAGE)
  }

  function WithDevices(record: map<Key, Value>, capacity: Resources): map<Key, Value> {
    var record := PutQuantity(PutQuantity(PutQuantity(record, Capacity, capacity, ENI_IP),
                                          Capacity, capacity, DIRECT_ENI),
                              Capacity, capacity, ENI);
    PutQuantity(PutQuantity(PutQuantity(record, Capacity, capacity, SUB_ENI), Capacity, capacity, EIP),
                Capacity, capacity, GPU)
  }

  /** The annotations that record the instance type. */
  function RecordOf(it: InstanceType, price: real, clusterID: string, tags: Option<string>): map<Key, Value> {
    var record := WithDevices(WithSystemReserved(BasicRecord(it, price, clusterID), it.overhead.systemReserved),
                              it.capacity);
    if tags.Some? then record[CloudTags := Plain(tags.value)] else record
  }

  /** An annotation value of the form key1=value1,key2=value2; entries without "=" are skipped. */
  function Entries(parts: seq<string>): map<string, string> {
    if parts == [] then map[]
    else
      var before := Entries(parts[..|parts| - 1]);
      match SplitPair(parts[|parts| - 1], '=')
      case Some((key, value)) => before[key := value]
      case None => before
  }

  /** Part k is the last of its key among the well-formed parts. */
  ghost predicate IsLastEntry(parts: seq<string>, k: nat, key: string, value: string) {
    && k < |parts| && SplitPair(parts[k], '=') == Some((key, value))
    && forall l | k < l < |parts| && SplitPair(parts[l], '=').Some? :: SplitPair(parts[l], '=').value.0 != key
  }

  ghost predicate HasLastEntry(parts: seq<string>, key: string, value: string) {
    exists k: nat :: IsLastEntry(parts, k, key, value)
  }

  lemma LastEntryStep(parts: seq<string>, key: string, value: string)
    requires parts != []
    ensures HasLastEntry(parts, key, value) <==>
            match SplitPair(parts[|parts| - 1], '=')
            case Some((other, v)) => if other == key then v == value else HasLastEntry(parts[..|parts| - 1], key, value)
            case None => HasLastEntry(parts[..|parts| - 1], key, value)
  {
    var n := |parts| - 1;
    if HasLastEntry(parts, key, value) {
      var k: nat :| IsLastEntry(parts, k, key, value);
      assert k < n ==> IsLastEntry(parts[..n], k, key, value);
    }
    if SplitPair(parts[n], '=') == Some((key, value)) {
      assert IsLastEntry(parts, n, key, value);
    } else if HasLastEntry(parts[..n], key, value) {
      var k: nat :| IsLastEntry(parts[..n], k, key, value);
      assert (SplitPair(parts[n], '=').Some? && SplitPair(parts[n], '=').value.0 == key) ||
             IsLastEntry(parts, k, key, value);
    }
  }

  /** A key has the value of the last well-formed part for it, and keys without such a part have none. */
  lemma {:induction false} EntriesHold(parts: seq<string>, key: string, value: string)
    ensures key in Entries(parts) && Entries(parts)[key] == value <==> HasLastEntry(parts, key, value)
    decreases |parts|
  {
    if parts != [] {
      EntriesHold(parts[..|parts| - 1], key, value);
      LastEntryStep(parts, key, value);
    }
  }

  function TargetAnnotations(targetKey: string, annotations: map<string, string>): map<string, string> {
    if targetKey in annotations then Entries(Split(annotations[targetKey], ',')) else map[]
  }

  method GetTargetAnnotations(targetKey: string, annotations: map<string, string>) returns (kv: map<string, string>)
    ensures kv == TargetAnnotations(targetKey, annotations)
  {
    kv := map[];
    if targetKey in annotations {
      var annos := Split(annotations[targetKey], ',');
      for k := 0 to |annos|
        invariant kv == Entries(annos[..k])
      {
        assert annos[..k + 1][..k] == annos[..k];
        match SplitPair(annos[k], '=') {
          case Some((key, value)) => kv := kv[key := value];
          case None =>
        }
      }
      assert annos[..|annos|] == annos;
    }
  }

  function AnnotationsOf(clusterID: string, nodeClass: NodeClass, nodeClaim: NodeClaim, it: InstanceType,
                         price: real): map<string, string>
  {
    Render(RecordOf(it, price, clusterID, nodeClass.tags)) +
    TargetAnnotations(META_ANNOTATIONS_KEY, nodeClaim.annotations)
  }

  /** What the claim's annotation for machines says about a key holds, over anything the provider records there. */
  lemma MetaAnnotationsWin(clusterID: string, nodeClass: NodeClass, nodeClaim: NodeClaim, it: InstanceType, price: real,
                           key: string, value: string)
    requires "beta.karpenter.k8s.tke.machine.meta/annotations" in nodeClaim.annotations
    requires var text := nodeClaim.annotations["beta.karpenter.k8s.tke.machine.meta/annotations"];
             HasLastEntry(Split(text, ','), key, value)
    ensures var annotations := AnnotationsOf(clusterID, nodeClass, nodeClaim, it, price);
            key in annotations && annotations[key] == value
  {
    EntriesHold(Split(nodeClaim.annotations[META_ANNOTATIONS_KEY], ','), key, value);
  }

  /* ---------- kubelet arguments ---------- */

  predicate IsKubeletArg(key: string) {
    |SplitOn(key, KUBELET_ARG_PREFIX)| == 2
  }

  function KubeletArg(key: string, value: string): string
    requires IsKubeletArg(key)
  {
    SplitOn(key, KUBELET_ARG_PREFIX)[1] + "=" + value
  }

  /** A kubelet annotation's key has the prefix just once, and the argument is what follows it, with the value. */
  lemma KubeletArgIs(before: string, name: string, value: string)
    requires var key := before + KUBELET_ARG_PREFIX + name;
             IndexOfText(key, KUBELET_ARG_PREFIX) == |before| && !Contains(name, KUBELET_ARG_PREFIX)
    ensures var key := before + KUBELET_ARG_PREFIX + name;
            IsKubeletArg(key) && KubeletArg(key, value) == name + "=" + value
  {
    var key := before + KUBELET_ARG_PREFIX + name;
    assert key[|before| + |KUBELET_ARG_PREFIX|..] == name;
    SplitInTwoIff(key, KUBELET_ARG_PREFIX);
    ContainsIff(key, KUBELET_ARG_PREFIX);
  }

  lemma OtherKeysAreNoArgs(key: string)
    requires !Contains(key, KUBELET_ARG_PREFIX)
    ensures !IsKubeletArg(key)
  {
    SplitInTwoIff(key, KUBELET_ARG_PREFIX);
  }

  /** The kubelet annotations among these, each once. */
  ghost predicate Enumerates(annotations: map<string, string>, among: set<string>, keys: seq<string>) {
    && (forall k | 0 <= k < |keys| :: keys[k] in among && keys[k] in annotations && IsKubeletArg(keys[k]))
    && (forall k, l | 0 <= k < l < |keys| :: keys[k] != keys[l])
    && (forall key | key in among && key in annotations && IsKubeletArg(key) :: key in keys)
  }

  function ArgsOf(annotations: map<string, string>, keys: seq<string>): (args: seq<string>)
    requires forall k | 0 <= k < |keys| :: keys[k] in annotations && IsKubeletArg(keys[k])
    ensures |args| == |keys| && forall k | 0 <= k < |keys| :: args[k] == KubeletArg(keys[k], annotations[keys[k]])
  {
    seq(|keys|, k requires 0 <= k < |keys| => KubeletArg(keys[k], annotations[keys[k]]))
  }

  /** The user's arguments: exactly one per kubelet annotation, in whatever order the map yields. */
  ghost predicate UserArgs(annotations: map<string, string>, args: seq<string>) {
    exists keys :: Enumerates(annotations, annotations.Keys, keys) && args == ArgsOf(annotations, keys)
  }

  lemma EnumeratesOneMore(annotations: map<string, string>, among: set<string>, keys: seq<string>, key: string)
    requires Enumerates(annotations, among, keys) && key in annotations && key !in among
    ensures if IsKubeletArg(key) then
              Enumerates(annotations, among + {key}, keys + [key]) &&
              ArgsOf(annotations, keys + [key]) == ArgsOf(annotations, keys) + [KubeletArg(key, annotations[key])]
            else
              Enumerates(annotations, among + {key}, keys)
  {
    if IsKubeletArg(key) {
      var more := keys + [key];
      assert forall k | 0 <= k < |keys| :: more[k] == keys[k];
      forall other | other in among + {key} && other in annotations && IsKubeletArg(other) ensures other in more {
        assert other in keys || other == key;
      }
    }
  }

  method CollectKubeletArgs(annotations: map<string, string>) returns (args: seq<string>)
    ensures args != [] && args[|args| - 1] == REGISTER_TAINT_KEY + "=" + REGISTER_TAINT
    ensures UserArgs(annotations, args[..|args| - 1])
  {
    args := [];
    var remaining := annotations.Keys;
    ghost var done: set<string>, keys: seq<string> := {}, [];
    while remaining != {}
      invariant remaining <= annotations.Keys && done == annotations.Keys - remaining
      invariant Enumerates(annotations, done, keys) && args == ArgsOf(annotations, keys)
      decreases |remaining|
    {
      var key :| key in remaining;
      EnumeratesOneMore(annotations, done, keys, key);
      var result := SplitOn(key, KUBELET_ARG_PREFIX);
      if |result| == 2 {
        args := args + [result[1] + "=" + annotations[key]];
        keys := keys + [key];
      }
      remaining, done := remaining - {key}, done + {key};
    }
    assert done == annotations.Keys;
    ghost var user := args;
    args := args + [REGISTER_TAINT_KEY + "=" + REGISTER_TAINT];
    assert args[..|args| - 1] == user;
  }

  /* ---------- the machine ---------- */

  function FirstFive(ids: seq<string>): seq<string> {
    if |ids| > 5 then ids[..5] else ids
  }

  function SpecOf(nodeClass: NodeClass, it: InstanceType, o: Offering, args: seq<string>): ProviderSpec {
    ProviderSpec(it.name, if o.capacityType == Blacklist.SPOT then "Spotpaid" else "PostpaidByHour", nodeClass.keyIDs,
                 FirstFive(nodeClass.securityGroupIDs), args)
  }

  function MachineOf(clusterID: string, nodeClass: NodeClass, nodeClaim: NodeClaim, it: InstanceType, o: Offering,
                     zone: string, args: seq<string>, name: string, now: nat): Machine
  {
    Machine(name, LabelsOf(nodeClass, nodeClaim, it, o), AnnotationsOf(clusterID, nodeClass, nodeClaim, it, o.price),
            [OwnerReference(nodeClaim.kind, nodeClaim.name)], now, "", "", zone, SubnetIn(nodeClass.subnets, zone),
            if o.capacityType == Blacklist.SPOT then "NativeCVM" else "Native",
            Some(SpecOf(nodeClass, it, o, args)), "", "")
  }

  /** m is what a launch of it at o writes. */
  ghost predicate WrittenAs(zoneGroups: map<string, int>, clusterID: string, nodeClass: NodeClass, nodeClaim: NodeClaim,
                            it: InstanceType, o: Offering, m: Machine)
  {
    && ZoneCodec.ZoneOf(zoneGroups, o.zoneID) == Ok(m.zone) && m.subnetID != "" && m.spec.Some?
    && var args := m.spec.value.kubeletArgs;
       && args != [] && args[|args| - 1] == REGISTER_TAINT_KEY + "=" + REGISTER_TAINT
       && UserArgs(nodeClaim.annotations, args[..|args| - 1])
       && m == MachineOf(clusterID, nodeClass, nodeClaim, it, o, m.zone, args, m.name, m.created)
  }

  datatype Outcome =
    | Launched(machine: Machine)
    | Rejected(machine: Machine) // the API server refused the object
    | NoTypes                    // nothing to choose from, or minimum values unmet
    | NilOffering                // the chosen type has no usable offering: the source dereferences nil
    | ZoneNotFound
    | SubnetNotFound

  /** What becomes of the chosen type. */
  ghost predicate Decided(zoneGroups: map<string, int>, clusterID: string, nodeClass: NodeClass, nodeClaim: NodeClaim,
                          it: InstanceType, apiOk: bool, outcome: Outcome)
  {
    var usable := Usable(nodeClaim.reqs, it);
    if usable == [] then outcome == NilOffering
    else
      var o := Cheapest(usable);
      var zone := ZoneCodec.ZoneOf(zoneGroups, o.zoneID);
      if zone.Err? then outcome == ZoneNotFound
      else if SubnetIn(nodeClass.subnets, zone.value) == "" then outcome == SubnetNotFound
      else if apiOk then outcome.Launched? &&
        WrittenAs(zoneGroups, clusterID, nodeClass, nodeClaim, it, o, outcome.machine)
      else outcome.Rejected? && WrittenAs(zoneGroups, clusterID, nodeClass, nodeClaim, it, o, outcome.machine)
  }

  class Provider {
    const zoneProvider: Zone.DefaultProvider
    const clusterID: string

    constructor (zoneProvider: Zone.DefaultProvider, clusterID: string)
      ensures this.zoneProvider == zoneProvider && this.clusterID == clusterID
    {
      this.zoneProvider, this.clusterID := zoneProvider, clusterID;
    }

    /** The annotations are filled in step by step, later entries over earlier ones. */
    method FillAnnotations(nodeClass: NodeClass, nodeClaim: NodeClaim, it: InstanceType, price: real)
      returns (annotations: map<string, string>)
      ensures annotations == AnnotationsOf(clusterID, nodeClass, nodeClaim, it, price)
    {
      var reserved, system := it.overhead.kubeReserved, it.overhead.systemReserved;
      var eviction := it.overhead.evictionThreshold;
      var record := map[
        ManagedBy := Plain(clusterID),
        UnitPrice := Quantity(PriceUnits(price)),
        Res(Capacity, CPU) := Quantity(Amount(it.capacity, CPU)),
        Res(Capacity, MEMORY) := Quantity(Amount(it.capacity, MEMORY)),
        Res(Capacity, PODS) := Quantity(Amount(it.capacity, PODS)),
        Res(Capacity, STORAGE) := Quantity(Amount(it.capacity, STORAGE)),
        Res(KubeReserved, CPU) := Quantity(Amount(reserved, CPU)),
        Res(KubeReserved, MEMORY) := Quantity(Amount(reserved, MEMORY)),
        Res(EvictionThreshold, MEMORY) := Quantity(Amount(eviction, MEMORY)),
        Res(EvictionThreshold, STORAGE) := Quantity(Amount(eviction, STORAGE))
      ];
      if Amount(reserved, STORAGE) != 0 {
        record := record[Res(KubeReserved, MEMORY) := Quantity(reserved[STORAGE])];
      }
      record := PutNonZero(record, SystemReserved, system, CPU);
      record := PutNonZero(record, SystemReserved, system, MEMORY);
      record := PutNonZero(record, SystemReserved, system, STORAGE);
      record := PutQuantity(record, Capacity, it.capacity, ENI_IP);
      record := PutQuantity(record, Capacity, it.capacity, DIRECT_ENI);
      record := PutQuantity(record, Capacity, it.capacity, ENI);
      record := PutQuantity(record, Capacity, it.capacity, SUB_ENI);
      record := PutQuantity(record, Capacity, it.capacity, EIP);
      record := PutQuantity(record, Capacity, it.capacity, GPU);
      if nodeClass.tags.Some? {
        record := record[CloudTags := Plain(nodeClass.tags.value)];
      }
      assert record == RecordOf(it, price, clusterID, nodeClass.tags);
      var extra := GetTargetAnnotations(META_ANNOTATIONS_KEY, nodeClaim.annotations);
      annotations := Render(record) + extra;
    }

    method FindSubnet(subnets: seq<Subnet>, zone: string) returns (id: string)
      ensures id == SubnetIn(subnets, zone)
    {
      id := "";
      for k := 0 to |subnets|
        invariant id == "" && SubnetIn(subnets, zone) == SubnetIn(subnets[k..], zone)
      {
        if subnets[k].zone == zone {
          return subnets[k].id;
        }
      }
    }

    method FillLabels(nodeClass: NodeClass, nodeClaim: NodeClaim, it: InstanceType, o: Offering)
      returns (labels: map<string, string>)
      ensures labels == LabelsOf(nodeClass, nodeClaim, it, o) && labels[LABEL_CAPACITY_TYPE] == o.capacityType
    {
      labels := map[
        LABEL_NODE_POOL := Lookup(nodeClaim.labels, LABEL_NODE_POOL),
        LABEL_NODE_CLAIM := nodeClaim.name,
        LABEL_NODE_CLASS := nodeClass.name
      ];
      labels := labels[LABEL_FAMILY := it.family];
      labels := labels[LABEL_CPU := Itoa(it.cpu)];
      labels := labels[LABEL_MEMORY_GB := Itoa(it.memoryGB)];
      labels := labels[LABEL_ARCH := it.arch];
      labels := labels[LABEL_CAPACITY_TYPE := o.capacityType];
    }

    method FillSpec(nodeClass: NodeClass, it: InstanceType, o: Offering, capacityType: string, args: seq<string>)
      returns (spec: ProviderSpec, machineType: string)
      requires capacityType == o.capacityType
      ensures spec == SpecOf(nodeClass, it, o, args)
      ensures machineType == if o.capacityType == Blacklist.SPOT then "NativeCVM" else "Native"
    {
      var chargeType := "PostpaidByHour";
      machineType := "Native";
      if capacityType == Blacklist.SPOT {
        machineType, chargeType := "NativeCVM", "Spotpaid";
      }
      var groups := nodeClass.securityGroupIDs;
      if |groups| > 5 {
        groups := groups[..5];
      }
      spec := ProviderSpec(it.name, chargeType, nodeClass.keyIDs, groups, args);
    }

    method Build(nodeClass: NodeClass, nodeClaim: NodeClaim, it: InstanceType, o: Offering, zone: string,
                 subnetID: string, name: string, now: nat) returns (machine: Machine)
      requires ZoneCodec.ZoneOf(zoneProvider.zoneGroups, o.zoneID) == Ok(zone)
      requires subnetID == SubnetIn(nodeClass.subnets, zone) && subnetID != ""
      ensures WrittenAs(zoneProvider.zoneGroups, clusterID, nodeClass, nodeClaim, it, o, machine)
      ensures machine.name == name && machine.created == now
    {
      var labels := FillLabels(nodeClass, nodeClaim, it, o);
      var args := CollectKubeletArgs(nodeClaim.annotations);
      var spec, machineType := FillSpec(nodeClass, it, o, labels[LABEL_CAPACITY_TYPE], args);
      var annotations := FillAnnotations(nodeClass, nodeClaim, it, o.price);
      machine := Machine(name, labels, annotations, [OwnerReference(nodeClaim.kind, nodeClaim.name)], now, "", "",
                         zone, subnetID, machineType, Some(spec), "", "");
    }

    method Create(nodeClass: NodeClass, nodeClaim: NodeClaim, types: seq<InstanceType>, minValuesMet: bool,
                  name: string, now: nat, apiOk: bool) returns (outcome: Outcome, chosen: Option<InstanceType>)
      requires ZoneCodec.Disjoint(zoneProvider.zoneGroups)
      ensures chosen.None? <==> (nodeClaim.reqs.hasMinValues && !minValuesMet) || Candidates(nodeClaim.reqs, types, [])
      ensures chosen.None? ==> outcome == NoTypes
      ensures chosen.Some? ==>
                FirstChoice(nodeClaim.reqs, types, chosen.value) &&
                Decided(zoneProvider.zoneGroups, clusterID, nodeClass, nodeClaim, chosen.value, apiOk, outcome)
    {
      var reqs := nodeClaim.reqs;
      var choice := Choose(reqs, types, minValuesMet);
      if choice.Err? {
        return NoTypes, None;
      }
      var it := choice.value;
      chosen := Some(it);
      if Usable(reqs, it) == [] {
        return NilOffering, chosen;
      }
      var zone := zoneProvider.ZoneFromID(Cheapest(Usable(reqs, it)).zoneID);
      if zone.Err? {
        return ZoneNotFound, chosen;
      }
      var subnetID := FindSubnet(nodeClass.subnets, zone.value);
      if subnetID == "" {
        return SubnetNotFound, chosen;
      }
      var machine := Build(nodeClass, nodeClaim, it, Cheapest(Usable(reqs, it)), zone.value, subnetID, name, now);
      outcome := if apiOk then Launched(machine) else Rejected(machine);
    }
  }
}
