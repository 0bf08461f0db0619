/** Reading a Machine back into a NodeClaim (pkg/cloudprovider/cloudprovider.go), the inverse of writing it. */
module ReadBack {
  import opened Text
  import opened Objects
  import opened InstanceTypes
  import opened AnnotationKeys
  import opened MachineLaunch
  import ZoneCodec

  const LABEL_INSTANCE_TYPE := "node.kubernetes.io/instance-type"
  const LABEL_OS := "kubernetes.io/os"
  const LABEL_ZONE_ID := "topology.kubernetes.io/zone"
  const LABEL_CBS_ZONE := "topology.com.tencent.cloud.csi.cbs/zone"

  datatype ReadClaim = ReadClaim(capacity: Resources, allocatable: Resources, labels: map<string, string>,
                                 managedBy: Option<string>, ownedMachine: string, providerID: string, created: nat,
                                 deleting: bool)

  /* ---------- resources from annotations ---------- */

  /** The texts found under a group's keys. */
  function TextsIn(group: Group, annotations: map<string, string>): map<ResourceName, string> {
    map name: ResourceName | KeyText(Res(group, name)) in annotations :: annotations[KeyText(Res(group, name))]
  }

  /** Their amounts; None when one of them is not a quantity, where the source panics. */
  function AmountsOf(texts: map<ResourceName, string>): Option<Resources> {
    if exists name | name in texts :: ParseInt(texts[name]).None? then None
    else Some(map name | name in texts :: ParseInt(texts[name]).value)
  }

  function ResourceListFromAnnotations(group: Group, annotations: map<string, string>): Option<Resources> {
    AmountsOf(TextsIn(group, annotations))
  }

  /* ---------- the conversion ---------- */

  function NonZero(r: Resources): Resources {
    map name | name in r && r[name] != 0 :: r[name]
  }

  /** The labels of the rebuilt instance type: every one of its requirements has a single value. */
  function LabelsFrom(zoneGroups: map<string, int>, m: Machine, cpu: int, memoryGB: int): map<string, string>
    requires m.spec.Some?
  {
    var arch := Lookup(m.labels, LABEL_ARCH);
    var labels := map[
      LABEL_INSTANCE_TYPE := m.spec.value.instanceType,
      LABEL_ARCH := if arch == "" then "amd64" else arch,
      LABEL_OS := "linux"
    ];
    var labels := labels[LABEL_FAMILY := Lookup(m.labels, LABEL_FAMILY)];
    var labels := if LABEL_NODE_POOL in m.labels then labels[LABEL_NODE_POOL := m.labels[LABEL_NODE_POOL]] else labels;
    labels[LABEL_CPU := Itoa(cpu)][LABEL_MEMORY_GB := Itoa(memoryGB)][LABEL_CAPACITY_TYPE := CapacityTypeOf(m)]
          [LABEL_CBS_ZONE := m.zone][LABEL_ZONE_ID := ZoneIDOrEmpty(zoneGroups, m.zone)]
  }

  function ManagerOf(m: Machine): Option<string> {
    if KeyText(ManagedBy) in m.annotations then Some(m.annotations[KeyText(ManagedBy)]) else None
  }

  datatype Resolved = Resolved(capacity: Resources, allocatable: Resources, cpu: int, memoryGB: int)

  /** The instance type rebuilt from annotations and labels. */
  function ResolveMachineToInstanceType(m: Machine): Result<Resolved> {
    var capacity := ResourceListFromAnnotations(Capacity, m.annotations);
    var kube := ResourceListFromAnnotations(KubeReserved, m.annotations);
    var system := ResourceListFromAnnotations(SystemReserved, m.annotations);
    var eviction := ResourceListFromAnnotations(EvictionThreshold, m.annotations);
    if capacity.None? || kube.None? || system.None? || eviction.None? then Err("cannot parse a quantity") else
      var cpu, memoryGB := Atoi(Lookup(m.labels, LABEL_CPU)), Atoi(Lookup(m.labels, LABEL_MEMORY_GB));
      if cpu.None? then Err("unable to convert cpu")
      else if memoryGB.None? then Err("unable to convert memory")
      else if ParseInt(Lookup(m.annotations, KeyText(UnitPrice))).None? then Err("unable to convert price")
      else if CPU !in capacity.value then Err("no cpu capacity found")
      else if MEMORY !in capacity.value then Err("no memory capacity found")
      else
        var allocatable := Allocatable(capacity.value, Overhead(kube.value, system.value, eviction.value));
        Ok(Resolved(capacity.value, allocatable, cpu.value, memoryGB.value))
  }

  function ClaimFrom(zoneGroups: map<string, int>, m: Machine, t: Resolved): ReadClaim
    requires m.spec.Some?
  {
    ReadClaim(NonZero(t.capacity), NonZero(t.allocatable), LabelsFrom(zoneGroups, m, t.cpu, t.memoryGB),
              ManagerOf(m), m.name, m.providerID, m.created, m.phase == "Deleting")
  }

  function MachineToNodeClaim(zoneGroups: map<string, int>, m: Machine): Result<ReadClaim> {
    if m.spec.None? then Err("unable to get ProviderSpec") else
      match ResolveMachineToInstanceType(m)
      case Err(e) => Err(e)
      case Ok(t) => Ok(ClaimFrom(zoneGroups, m, t))
  }

  lemma AmountsIff(group: Group, annotations: map<string, string>)
    ensures ResourceListFromAnnotations(group, annotations).Some? <==>
            forall name: ResourceName | KeyText(Res(group, name)) in annotations ::
              ParseInt(annotations[KeyText(Res(group, name))]).Some?
    ensures ResourceListFromAnnotations(group, annotations).Some? ==>
            forall name: ResourceName ::
              name in ResourceListFromAnnotations(group, annotations).value <==>
                KeyText(Res(group, name)) in annotations
  {
    var texts := TextsIn(group, annotations);
    assert forall name: ResourceName :: name in texts <==> KeyText(Res(group, name)) in annotations;
    assert forall name | name in texts :: texts[name] == annotations[KeyText(Res(group, name))];
  }

  ghost predicate AllAreQuantities(annotations: map<string, string>) {
    forall group: Group, name: ResourceName | KeyText(Res(group, name)) in annotations ::
      ParseInt(annotations[KeyText(Res(group, name))]).Some?
  }

  ghost predicate AllGroupsRead(annotations: map<string, string>) {
    forall group: Group :: ResourceListFromAnnotations(group, annotations).Some?
  }

  lemma GroupsReadIff(annotations: map<string, string>)
    ensures AllGroupsRead(annotations) <==> AllAreQuantities(annotations)
    ensures AllGroupsRead(annotations) ==>
              forall name: ResourceName ::
                name in ResourceListFromAnnotations(Capacity, annotations).value <==>
                  KeyText(Res(Capacity, name)) in annotations
  {
    if AllGroupsRead(annotations) {
      forall group: Group, name: ResourceName | KeyText(Res(group, name)) in annotations
        ensures ParseInt(annotations[KeyText(Res(group, name))]).Some?
      {
        AmountsIff(group, annotations);
      }
    }
    if AllAreQuantities(annotations) {
      forall group: Group ensures ResourceListFromAnnotations(group, annotations).Some? {
        AmountsIff(group, annotations);
      }
    }
    AmountsIff(Capacity, annotations);
  }

  /** The labels and the price are numbers, and CPU and memory are on record as capacity. */
  predicate IsSized(m: Machine) {
    && Atoi(Lookup(m.labels, LABEL_CPU)).Some? && Atoi(Lookup(m.labels, LABEL_MEMORY_GB)).Some?
    && ParseInt(Lookup(m.annotations, KeyText(UnitPrice))).Some?
    && KeyText(Res(Capacity, CPU)) in m.annotations && KeyText(Res(Capacity, MEMORY)) in m.annotations
  }

  lemma ResolvesIff(m: Machine)
    ensures ResolveMachineToInstanceType(m).Ok? <==> AllGroupsRead(m.annotations) && IsSized(m)
  {
    GroupsReadIff(m.annotations);
    if ResolveMachineToInstanceType(m).Ok? {
      forall group: Group ensures ResourceListFromAnnotations(group, m.annotations).Some? {
        match group {
          case Capacity =>
          case KubeReserved =>
          case SystemReserved =>
          case EvictionThreshold =>
        }
      }
    }
  }

  /** A machine converts exactly when its spec decodes, every amount on record is a quantity, CPU and memory are
      labelled with integers and on record as capacity, and the price is a number. */
  lemma ConvertsIff(zoneGroups: map<string, int>, m: Machine)
    ensures MachineToNodeClaim(zoneGroups, m).Ok? <==> m.spec.Some? && AllAreQuantities(m.annotations) && IsSized(m)
  {
    ResolvesIff(m);
    GroupsReadIff(m.annotations);
  }

  /* ---------- what is recorded ---------- */

  /** The instance types the annotations can record: the four basic capacities are there, overhead only holds
      back what kubelet knows of, and sizes fit Go's integers. */
  ghost predicate Recordable(it: InstanceType) {
    && {CPU, MEMORY, PODS, STORAGE} <= it.capacity.Keys
    && it.overhead.kubeReserved.Keys <= {CPU, MEMORY, STORAGE}
    && it.overhead.systemReserved.Keys <= {CPU, MEMORY, STORAGE}
    && it.overhead.evictionThreshold.Keys <= {MEMORY, STORAGE}
    && INT64_MIN <= it.cpu <= INT64_MAX && INT64_MIN <= it.memoryGB <= INT64_MAX
  }

  lemma ListedIsRecordable(s: Settings, item: QuotaItem, offerings: seq<Offering>)
    requires INT64_MIN <= item.cpu <= INT64_MAX && INT64_MIN <= item.memory <= INT64_MAX
    ensures var it := NewInstanceType(s, item, offerings);
            Recordable(it) && Amount(it.overhead.kubeReserved, STORAGE) == 0
  {
    BasicCapacity(s, item, offerings);
  }

  /** The amounts a reader of the record finds in each group. */
  function WrittenAmounts(it: InstanceType, group: Group): Resources {
    match group
    case Capacity => it.capacity
    case KubeReserved =>
      map[CPU := Amount(it.overhead.kubeReserved, CPU),
          MEMORY := if Amount(it.overhead.kubeReserved, STORAGE) != 0 then it.overhead.kubeReserved[STORAGE]
                    else Amount(it.overhead.kubeReserved, MEMORY)]
    case SystemReserved => NonZero(it.overhead.systemReserved)
    case EvictionThreshold =>
      map[MEMORY := Amount(it.overhead.evictionThreshold, MEMORY),
          STORAGE := Amount(it.overhead.evictionThreshold, STORAGE)]
  }

  lemma BasicHolds(it: InstanceType, price: real, clusterID: string, k: Key)
    requires k.Res?
    ensures var record := BasicRecord(it, price, clusterID);
            match k.group
            case Capacity =>
              (k in record <==> k.name in {CPU, MEMORY, PODS, STORAGE}) &&
              (k in record ==> record[k] == Quantity(Amount(it.capacity, k.name)))
            case SystemReserved => k !in record
            case group =>
              (k in record <==> k.name in WrittenAmounts(it, group)) &&
              (k in record ==> record[k] == Quantity(WrittenAmounts(it, group)[k.name]))
  {}

  lemma PutNonZeroHolds(record: map<Key, Value>, r: Resources, name: ResourceName, k: Key)
    ensures var after := PutNonZero(record, SystemReserved, r, name);
            if k == Res(SystemReserved, name) && Amount(r, name) != 0 then k in after && after[k] == Quantity(r[name])
            else (k in after <==> k in record) && (k in record ==> after[k] == record[k])
  {}

  lemma SystemHolds(record: map<Key, Value>, system: Resources, k: Key)
    ensures var after := WithSystemReserved(record, system);
            if k.Res? && k.group == SystemReserved && k.name in {CPU, MEMORY, STORAGE} && Amount(system, k.name) != 0
            then k in after && after[k] == Quantity(system[k.name])
            else (k in after <==> k in record) && (k in record ==> after[k] == record[k])
  {
    var one := PutNonZero(record, SystemReserved, system, CPU);
    var two := PutNonZero(one, SystemReserved, system, MEMORY);
    PutNonZeroHolds(record, system, CPU, k);
    PutNonZeroHolds(one, system, MEMORY, k);
    PutNonZeroHolds(two, system, STORAGE, k);
  }

  lemma PutQuantityHolds(record: map<Key, Value>, r: Resources, name: ResourceName, k: Key)
    ensures var after := PutQuantity(record, Capacity, r, name);
            if k == Res(Capacity, name) && name in r then k in after && after[k] == Quantity(r[name])
            else (k in after <==> k in record) && (k in record ==> after[k] == record[k])
  {}

  lemma DevicesHold(record: map<Key, Value>, capacity: Resources, k: Key)
    ensures var after := WithDevices(record, capacity);
            if k.Res? && k.group == Capacity && k.name !in {CPU, MEMORY, PODS, STORAGE} && k.name in capacity
            then k in after && after[k] == Quantity(capacity[k.name])
            else (k in after <==> k in record) && (k in record ==> after[k] == record[k])
  {
    var eniIP := PutQuantity(record, Capacity, capacity, ENI_IP);
    var directENI := PutQuantity(eniIP, Capacity, capacity, DIRECT_ENI);
    var eni := PutQuantity(directENI, Capacity, capacity, ENI);
    var subENI := PutQuantity(eni, Capacity, capacity, SUB_ENI);
    var eip := PutQuantity(subENI, Capacity, capacity, EIP);
    PutQuantityHolds(record, capacity, ENI_IP, k);
    PutQuantityHolds(eniIP, capacity, DIRECT_ENI, k);
    PutQuantityHolds(directENI, capacity, ENI, k);
    PutQuantityHolds(eni, capacity, SUB_ENI, k);
    PutQuantityHolds(subENI, capacity, EIP, k);
    PutQuantityHolds(eip, capacity, GPU, k);
    if k.Res? {
      match k.name {
        case CPU | MEMORY | PODS | STORAGE =>
        case ENI_IP | DIRECT_ENI | ENI =>
        case SUB_ENI | EIP | GPU =>
      }
    }
  }

  lemma RecordHolds(it: InstanceType, price: real, clusterID: string, tags: Option<string>, group: Group,
                    name: ResourceName)
    requires Recordable(it)
    ensures var record, amounts := RecordOf(it, price, clusterID, tags), WrittenAmounts(it, group);
            (Res(group, name) in record <==> name in amounts) &&
            (name in amounts ==> record[Res(group, name)] == Quantity(amounts[name]))
  {
    var k := Res(group, name);
    var basic := BasicRecord(it, price, clusterID);
    var system := WithSystemReserved(basic, it.overhead.systemReserved);
    BasicHolds(it, price, clusterID, k);
    SystemHolds(basic, it.overhead.systemReserved, k);
    DevicesHold(system, it.capacity, k);
  }

  lemma PlainHolds(it: InstanceType, price: real, clusterID: string, tags: Option<string>)
    ensures var record := RecordOf(it, price, clusterID, tags);
            && UnitPrice in record && record[UnitPrice] == Quantity(PriceUnits(price))
            && ManagedBy in record && record[ManagedBy] == Plain(clusterID)
            && (CloudTags in record <==> tags.Some?) && (tags.Some? ==> record[CloudTags] == Plain(tags.value))
  {
    var basic := BasicRecord(it, price, clusterID);
    var system := WithSystemReserved(basic, it.overhead.systemReserved);
    SystemHolds(basic, it.overhead.systemReserved, UnitPrice);
    SystemHolds(basic, it.overhead.systemReserved, ManagedBy);
    DevicesHold(system, it.capacity, UnitPrice);
    DevicesHold(system, it.capacity, ManagedBy);
    SystemHolds(basic, it.overhead.systemReserved, CloudTags);
    DevicesHold(system, it.capacity, CloudTags);
  }

  /** Annotations that carry the record untouched. */
  ghost predicate Carries(annotations: map<string, string>, record: map<Key, Value>) {
    forall k: Key :: (KeyText(k) in annotations <==> k in record) &&
                     (k in record ==> annotations[KeyText(k)] == ValueText(record[k]))
  }

  lemma PrintedAmounts(texts: map<ResourceName, string>, amounts: Resources)
    requires texts.Keys == amounts.Keys && forall name | name in texts :: texts[name] == Itoa(amounts[name])
    ensures AmountsOf(texts) == Some(amounts)
  {
    forall name | name in texts ensures ParseInt(texts[name]) == Some(amounts[name]) {
      ParseItoa(amounts[name]);
    }
    assert AmountsOf(texts).Some?;
    assert AmountsOf(texts).value == amounts;
  }

  lemma RecordReadsBack(it: InstanceType, price: real, clusterID: string, tags: Option<string>, group: Group,
                        annotations: map<string, string>)
    requires Recordable(it) && Carries(annotations, RecordOf(it, price, clusterID, tags))
    ensures ResourceListFromAnnotations(group, annotations) == Some(WrittenAmounts(it, group))
  {
    var record, amounts := RecordOf(it, price, clusterID, tags), WrittenAmounts(it, group);
    forall name: ResourceName
      ensures name in TextsIn(group, annotations) <==> name in amounts
      ensures name in amounts ==> TextsIn(group, annotations)[name] == Itoa(amounts[name])
    {
      RecordHolds(it, price, clusterID, tags, group, name);
      CarriedText(annotations, record, group, name);
    }
    PrintedAmounts(TextsIn(group, annotations), amounts);
  }

  lemma CarriedText(annotations: map<string, string>, record: map<Key, Value>, group: Group, name: ResourceName)
    requires Carries(annotations, record)
    ensures name in TextsIn(group, annotations) <==> Res(group, name) in record
    ensures Res(group, name) in record ==> TextsIn(group, annotations)[name] == ValueText(record[Res(group, name)])
  {}

  /** The user's meta annotations leave the provider's keys alone. */
  ghost predicate AvoidsProviderKeys(nodeClaim: NodeClaim) {
    forall k: Key :: KeyText(k) !in TargetAnnotations(META_ANNOTATIONS_KEY, nodeClaim.annotations)
  }

  lemma WrittenCarries(clusterID: string, nodeClass: NodeClass, nodeClaim: NodeClaim, it: InstanceType, price: real)
    requires AvoidsProviderKeys(nodeClaim)
    ensures Carries(AnnotationsOf(clusterID, nodeClass, nodeClaim, it, price),
                    RecordOf(it, price, clusterID, nodeClass.tags))
  {
    var record := RecordOf(it, price, clusterID, nodeClass.tags);
    var rendered, extra := Render(record), TargetAnnotations(META_ANNOTATIONS_KEY, nodeClaim.annotations);
    forall k: Key
      ensures KeyText(k) in rendered + extra <==> k in record
      ensures k in record ==> (rendered + extra)[KeyText(k)] == ValueText(record[k])
    {
      assert KeyText(k) !in extra;
    }
  }

  lemma LabelLengths()
    ensures |LABEL_FAMILY| == 33 && |LABEL_CPU| == 30 && |LABEL_MEMORY_GB| == 36 && |LABEL_ARCH| == 18
    ensures |LABEL_CAPACITY_TYPE| == 26 && |LABEL_ZONE_ID| == 27 && |LABEL_CBS_ZONE| == 39 && |LABEL_NODE_POOL| == 21
    ensures |LABEL_NODE_CLAIM| == 27 && |LABEL_NODE_CLASS| == 37 && |LABEL_INITIALIZED| == 41
    ensures |LABEL_INSTANCE_TYPE| == 32 && |LABEL_OS| == 16
  {}

  /* ---------- the round trip ---------- */

  /** The allocatable a reader computes from the record. */
  function ReadAllocatable(it: InstanceType): Resources {
    Allocatable(it.capacity, Overhead(WrittenAmounts(it, KubeReserved), WrittenAmounts(it, SystemReserved),
                                      WrittenAmounts(it, EvictionThreshold)))
  }

  /** Reading the record gives the allocatable that was written exactly when no ephemeral storage is reserved
      for Kubernetes: the source writes that amount under the memory key. */
  lemma AllocatableReadsBackIff(it: InstanceType)
    requires Recordable(it)
    ensures NonZero(ReadAllocatable(it)) == NonZero(Allocatable(it.capacity, it.overhead)) <==>
            Amount(it.overhead.kubeReserved, STORAGE) == 0
  {
    var read, was := ReadAllocatable(it), Allocatable(it.capacity, it.overhead);
    var storage := Amount(it.overhead.kubeReserved, STORAGE);
    forall name | name in it.capacity
      ensures name in read && name in was
      ensures read[name] == was[name] + ReadError(it, name)
    {
      ReadErrorAt(it, name);
    }
    if storage == 0 {
      assert read == was;
    } else {
      assert read[STORAGE] == was[STORAGE] + storage;
      assert Amount(NonZero(read), STORAGE) == read[STORAGE] && Amount(NonZero(was), STORAGE) == was[STORAGE];
    }
  }

  /** By how much the reader's allocatable is off. */
  function ReadError(it: InstanceType, name: ResourceName): int {
    var reserved := it.overhead.kubeReserved;
    if Amount(reserved, STORAGE) == 0 then 0
    else if name == MEMORY then Amount(reserved, MEMORY) - Amount(reserved, STORAGE)
    else if name == STORAGE then Amount(reserved, STORAGE)
    else 0
  }

  lemma ReadErrorAt(it: InstanceType, name: ResourceName)
    requires Recordable(it) && name in it.capacity
    ensures Amount(WrittenAmounts(it, KubeReserved), name) ==
            Amount(it.overhead.kubeReserved, name) - ReadError(it, name)
    ensures Amount(WrittenAmounts(it, SystemReserved), name) == Amount(it.overhead.systemReserved, name)
    ensures Amount(WrittenAmounts(it, EvictionThreshold), name) == Amount(it.overhead.evictionThreshold, name)
  {}

  /** The unit price of a written machine is its offering's, to the tenth digit. */
  lemma UnitPriceIsWritten(zoneGroups: map<string, int>, clusterID: string, nodeClass: NodeClass, nodeClaim: NodeClaim,
                           it: InstanceType, o: Offering, m: Machine)
    requires AvoidsProviderKeys(nodeClaim) && WrittenAs(zoneGroups, clusterID, nodeClass, nodeClaim, it, o, m)
    ensures Lookup(m.annotations, KeyText(UnitPrice)) == Itoa(PriceUnits(o.price))
  {
    WrittenLabels(zoneGroups, clusterID, nodeClass, nodeClaim, it, o, m);
    WrittenCarries(clusterID, nodeClass, nodeClaim, it, o.price);
    PlainHolds(it, o.price, clusterID, nodeClass.tags);
  }

  /** Everything else of a written machine reads back whatever is reserved. */
  lemma WrittenReadsBack(zoneGroups: map<string, int>, clusterID: string, nodeClass: NodeClass, nodeClaim: NodeClaim,
                         it: InstanceType, o: Offering, m: Machine)
    requires ZoneCodec.ValidTable(zoneGroups) && Recordable(it) && AvoidsProviderKeys(nodeClaim)
    requires WrittenAs(zoneGroups, clusterID, nodeClass, nodeClaim, it, o, m)
    ensures MachineToNodeClaim(zoneGroups, m).Ok?
    ensures var c := MachineToNodeClaim(zoneGroups, m).value;
            && c.capacity == NonZero(it.capacity) && c.allocatable == NonZero(ReadAllocatable(it))
            && c.labels == LabelsFrom(zoneGroups, m, it.cpu, it.memoryGB)
            && c.managedBy == Some(clusterID) && c.ownedMachine == m.name
  {
    WrittenLabels(zoneGroups, clusterID, nodeClass, nodeClaim, it, o, m);
    WrittenCarries(clusterID, nodeClass, nodeClaim, it, o.price);
    CarriedReadsBack(clusterID, nodeClass.tags, it, o.price, m);
    LabelsReadBack(nodeClass, nodeClaim, it, o);
    Converts(zoneGroups, m, it);
  }

  lemma Converts(zoneGroups: map<string, int>, m: Machine, it: InstanceType)
    requires m.spec.Some? && CPU in it.capacity && MEMORY in it.capacity
    requires forall group :: ResourceListFromAnnotations(group, m.annotations) == Some(WrittenAmounts(it, group))
    requires Atoi(Lookup(m.labels, LABEL_CPU)) == Some(it.cpu)
    requires Atoi(Lookup(m.labels, LABEL_MEMORY_GB)) == Some(it.memoryGB)
    requires ParseInt(Lookup(m.annotations, KeyText(UnitPrice))).Some?
    ensures MachineToNodeClaim(zoneGroups, m) ==
            Ok(ReadClaim(NonZero(it.capacity), NonZero(ReadAllocatable(it)),
                         LabelsFrom(zoneGroups, m, it.cpu, it.memoryGB),
                         ManagerOf(m), m.name, m.providerID, m.created, m.phase == "Deleting"))
  {
    assert ResourceListFromAnnotations(Capacity, m.annotations) == Some(it.capacity);
    assert ResourceListFromAnnotations(KubeReserved, m.annotations).Some?;
    assert ResourceListFromAnnotations(SystemReserved, m.annotations).Some?;
    assert ResourceListFromAnnotations(EvictionThreshold, m.annotations).Some?;
  }

  lemma CarriedReadsBack(clusterID: string, tags: Option<string>, it: InstanceType,
                         price: real, m: Machine)
    requires Recordable(it) && Carries(m.annotations, RecordOf(it, price, clusterID, tags))
    ensures forall group :: ResourceListFromAnnotations(group, m.annotations) == Some(WrittenAmounts(it, group))
    ensures ParseInt(Lookup(m.annotations, KeyText(UnitPrice))).Some?
    ensures ManagerOf(m) == Some(clusterID)
  {
    forall group ensures ResourceListFromAnnotations(group, m.annotations) == Some(WrittenAmounts(it, group)) {
      RecordReadsBack(it, price, clusterID, tags, group, m.annotations);
    }
    PlainHolds(it, price, clusterID, tags);
    ParseItoa(PriceUnits(price));
  }

  lemma WrittenLabels(zoneGroups: map<string, int>, clusterID: string, nodeClass: NodeClass, nodeClaim: NodeClaim,
                      it: InstanceType, o: Offering, m: Machine)
    requires WrittenAs(zoneGroups, clusterID, nodeClass, nodeClaim, it, o, m)
    ensures m.labels == LabelsOf(nodeClass, nodeClaim, it, o) && CapacityTypeOf(m) == o.capacityType
    ensures m.annotations == AnnotationsOf(clusterID, nodeClass, nodeClaim, it, o.price)
  {}

  lemma LabelsReadBack(nodeClass: NodeClass, nodeClaim: NodeClaim, it: InstanceType, o: Offering)
    requires Recordable(it)
    ensures var labels := LabelsOf(nodeClass, nodeClaim, it, o);
            && Atoi(Lookup(labels, LABEL_CPU)) == Some(it.cpu) &&
               Atoi(Lookup(labels, LABEL_MEMORY_GB)) == Some(it.memoryGB)
            && Lookup(labels, LABEL_CAPACITY_TYPE) == o.capacityType
  {
    LabelLengths();
    AtoiItoa(it.cpu);
    AtoiItoa(it.memoryGB);
  }

  lemma IdentityLabels(zoneGroups: map<string, int>, m: Machine, cpu: int, memoryGB: int)
    requires m.spec.Some?
    ensures var labels := LabelsFrom(zoneGroups, m, cpu, memoryGB);
            && Lookup(labels, LABEL_CAPACITY_TYPE) == CapacityTypeOf(m)
            && Lookup(labels, LABEL_CPU) == Itoa(cpu) && Lookup(labels, LABEL_MEMORY_GB) == Itoa(memoryGB)
            && Lookup(labels, LABEL_CBS_ZONE) == m.zone &&
               Lookup(labels, LABEL_ZONE_ID) == ZoneIDOrEmpty(zoneGroups, m.zone)
  {
    LabelLengths();
  }

  lemma TypeLabels(zoneGroups: map<string, int>, m: Machine, cpu: int, memoryGB: int)
    requires m.spec.Some?
    ensures var labels, arch := LabelsFrom(zoneGroups, m, cpu, memoryGB), Lookup(m.labels, LABEL_ARCH);
            && Lookup(labels, LABEL_INSTANCE_TYPE) == m.spec.value.instanceType
            && Lookup(labels, LABEL_FAMILY) == Lookup(m.labels, LABEL_FAMILY)
            && Lookup(labels, LABEL_ARCH) == (if arch == "" then "amd64" else arch)
            && Lookup(labels, LABEL_OS) == "linux"
            && Lookup(labels, LABEL_NODE_POOL) == Lookup(m.labels, LABEL_NODE_POOL)
  {
    LabelLengths();
  }

  lemma WrittenTypeLabels(nodeClass: NodeClass, nodeClaim: NodeClaim, it: InstanceType, o: Offering)
    ensures var labels := LabelsOf(nodeClass, nodeClaim, it, o);
            && Lookup(labels, LABEL_FAMILY) == it.family && Lookup(labels, LABEL_ARCH) == it.arch
            && Lookup(labels, LABEL_NODE_POOL) == Lookup(nodeClaim.labels, LABEL_NODE_POOL)
            && Lookup(labels, LABEL_NODE_CLAIM) == nodeClaim.name && Lookup(labels, LABEL_NODE_CLASS) == nodeClass.name
  {
    LabelLengths();
  }

  /** A written machine's own type, family and architecture and its claim's pool come back. */
  lemma TypeReadsBack(zoneGroups: map<string, int>, clusterID: string, nodeClass: NodeClass, nodeClaim: NodeClaim,
                      it: InstanceType, o: Offering, m: Machine)
    requires WrittenAs(zoneGroups, clusterID, nodeClass, nodeClaim, it, o, m)
    ensures var labels := LabelsFrom(zoneGroups, m, it.cpu, it.memoryGB);
            && Lookup(labels, LABEL_INSTANCE_TYPE) == it.name && Lookup(labels, LABEL_FAMILY) == it.family
            && Lookup(labels, LABEL_ARCH) == (if it.arch == "" then "amd64" else it.arch)
            && Lookup(labels, LABEL_OS) == "linux"
            && Lookup(labels, LABEL_NODE_POOL) == Lookup(nodeClaim.labels, LABEL_NODE_POOL)
  {
    WrittenLabels(zoneGroups, clusterID, nodeClass, nodeClaim, it, o, m);
    WrittenTypeLabels(nodeClass, nodeClaim, it, o);
    TypeLabels(zoneGroups, m, it.cpu, it.memoryGB);
  }

  /** The labels that identify the offering: zone ID, zone, capacity type, CPU and memory. The zone ID comes back
      in decimal form, so it is the offering's own whenever that was written in decimal form, as List does. */
  lemma IdentityReadsBack(zoneGroups: map<string, int>, clusterID: string, nodeClass: NodeClass, nodeClaim: NodeClaim,
                          it: InstanceType, o: Offering, m: Machine)
    requires ZoneCodec.ValidTable(zoneGroups)
    requires WrittenAs(zoneGroups, clusterID, nodeClass, nodeClaim, it, o, m)
    ensures Atoi(o.zoneID).Some?
    ensures var labels := LabelsFrom(zoneGroups, m, it.cpu, it.memoryGB);
            && Lookup(labels, LABEL_CAPACITY_TYPE) == o.capacityType
            && Lookup(labels, LABEL_CPU) == Itoa(it.cpu) && Lookup(labels, LABEL_MEMORY_GB) == Itoa(it.memoryGB)
            && Lookup(labels, LABEL_CBS_ZONE) == m.zone
            && Lookup(labels, LABEL_ZONE_ID) == Itoa(Atoi(o.zoneID).value)
  {
    ZoneCodec.IDRoundTrip(zoneGroups, o.zoneID);
    WrittenLabels(zoneGroups, clusterID, nodeClass, nodeClaim, it, o, m);
    IdentityLabels(zoneGroups, m, it.cpu, it.memoryGB);
  }

  /** A machine launched from a listed instance type reads back with the same capacity, the same allocatable and
      the offering's own zone ID. */
  lemma LaunchedReadsBack(zoneGroups: map<string, int>, clusterID: string, nodeClass: NodeClass, nodeClaim: NodeClaim,
                          s: Settings, item: QuotaItem, offerings: seq<Offering>, from: QuotaItem, o: Offering,
                          m: Machine)
    requires ZoneCodec.ValidTable(zoneGroups) && AvoidsProviderKeys(nodeClaim)
    requires INT64_MIN <= item.cpu <= INT64_MAX && INT64_MIN <= item.memory <= INT64_MAX
    requires o == OfferingOf(zoneGroups, o.capacityType, from)
    requires WrittenAs(zoneGroups, clusterID, nodeClass, nodeClaim, NewInstanceType(s, item, offerings), o, m)
    ensures MachineToNodeClaim(zoneGroups, m).Ok?
    ensures var c, it := MachineToNodeClaim(zoneGroups, m).value, NewInstanceType(s, item, offerings);
            && c.capacity == NonZero(it.capacity) && c.allocatable == NonZero(Allocatable(it.capacity, it.overhead))
            && Lookup(c.labels, LABEL_ZONE_ID) == o.zoneID && Lookup(c.labels, LABEL_CAPACITY_TYPE) == o.capacityType
            && Lookup(c.labels, LABEL_CPU) == Itoa(item.cpu) && Lookup(c.labels, LABEL_MEMORY_GB) == Itoa(item.memory)
            && Lookup(c.labels, LABEL_INSTANCE_TYPE) == it.name && Lookup(c.labels, LABEL_FAMILY) == it.family
            && Lookup(c.labels, LABEL_ARCH) == it.arch && Lookup(c.labels, LABEL_OS) == "linux"
            && Lookup(c.labels, LABEL_NODE_POOL) == Lookup(nodeClaim.labels, LABEL_NODE_POOL)
  {
    var it := NewInstanceType(s, item, offerings);
    ListedIsRecordable(s, item, offerings);
    WrittenReadsBack(zoneGroups, clusterID, nodeClass, nodeClaim, it, o, m);
    AllocatableReadsBackIff(it);
    IdentityReadsBack(zoneGroups, clusterID, nodeClass, nodeClaim, it, o, m);
    TypeReadsBack(zoneGroups, clusterID, nodeClass, nodeClaim, it, o, m);
    OfferedZoneIDIsDecimal(zoneGroups, from);
  }

  /** The zone IDs List writes are decimal, or empty and then not understood. */
  lemma OfferedZoneIDIsDecimal(zoneGroups: map<string, int>, from: QuotaItem)
    ensures var id := ZoneIDOrEmpty(zoneGroups, from.zone);
            Atoi(id).Some? ==> id == Itoa(Atoi(id).value)
  {
    match ZoneCodec.IDOf(zoneGroups, from.zone) {
      case Ok(id) =>
        var (region, number) := ZoneCodec.RegionAndNumber(Split(from.zone, '-'));
        ParseItoa(Add64(zoneGroups[region], Atoi(number).value));
      case Err(_) =>
    }
  }
}
