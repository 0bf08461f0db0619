/** What the controllers find on a machine the provider has launched: the labels, the owner and the charges that
    counting failures, matching provider IDs and billing go by. */
module LaunchedMachine {
  import opened Text
  import opened Objects
  import opened InstanceTypes
  import opened LaunchChoice
  import opened MachineLaunch
  import Blacklist
  import FailureController
  import ProviderIds
  import ReadBack

  /** Every label of a launched machine, and that there is no other. */
  lemma LabelsAre(nodeClass: NodeClass, nodeClaim: NodeClaim, it: InstanceType, o: Offering)
    ensures var labels := LabelsOf(nodeClass, nodeClaim, it, o);
            && labels.Keys == {LABEL_NODE_POOL, LABEL_NODE_CLAIM, LABEL_NODE_CLASS, LABEL_FAMILY, LABEL_CPU,
                               LABEL_MEMORY_GB,
                               LABEL_ARCH, LABEL_CAPACITY_TYPE}
            && labels[LABEL_NODE_POOL] == Lookup(nodeClaim.labels, LABEL_NODE_POOL)
            && labels[LABEL_NODE_CLAIM] == nodeClaim.name && labels[LABEL_NODE_CLASS] == nodeClass.name
            && labels[LABEL_FAMILY] == it.family && labels[LABEL_ARCH] == it.arch
            && labels[LABEL_CPU] == Itoa(it.cpu) && labels[LABEL_MEMORY_GB] == Itoa(it.memoryGB)
            && labels[LABEL_CAPACITY_TYPE] == o.capacityType
  {
    ReadBack.LabelLengths();
  }

  lemma ClaimLabels(nodeClass: NodeClass, nodeClaim: NodeClaim, it: InstanceType, o: Offering)
    ensures var labels := LabelsOf(nodeClass, nodeClaim, it, o);
            && LABEL_NODE_CLAIM in labels && labels[LABEL_NODE_CLAIM] == nodeClaim.name
            && LABEL_INITIALIZED !in labels && Lookup(labels, LABEL_NODE_CLASS) == nodeClass.name
  {
    LabelsAre(nodeClass, nodeClaim, it, o);
    ReadBack.LabelLengths();
  }

  /** A launched machine, seen by the others: it is owned by its claim alone, labelled with its claim and class, has
      neither an ID nor the label of an initialised machine, and has not failed. */
  lemma LaunchedIsClaimed(zoneGroups: map<string, int>, clusterID: string, nodeClass: NodeClass, nodeClaim: NodeClaim,
                          it: InstanceType, o: Offering, m: Machine)
    requires WrittenAs(zoneGroups, clusterID, nodeClass, nodeClaim, it, o, m)
    ensures m.owners == [OwnerReference(nodeClaim.kind, nodeClaim.name)] && m.providerID == ""
    ensures ProviderIds.LabelledFor(m, nodeClaim.name) && LABEL_INITIALIZED !in m.labels
    ensures Lookup(m.labels, LABEL_NODE_CLASS) == nodeClass.name
    ensures m.failureReason == "" && m.failureMessage == "" && m.phase == ""
  {
    ClaimLabels(nodeClass, nodeClaim, it, o);
    ReadBack.WrittenLabels(zoneGroups, clusterID, nodeClass, nodeClaim, it, o, m);
    WrittenFields(zoneGroups, clusterID, nodeClass, nodeClaim, it, o, m);
  }

  lemma WrittenFields(zoneGroups: map<string, int>, clusterID: string, nodeClass: NodeClass, nodeClaim: NodeClaim,
                      it: InstanceType, o: Offering, m: Machine)
    requires WrittenAs(zoneGroups, clusterID, nodeClass, nodeClaim, it, o, m)
    ensures m.owners == [OwnerReference(nodeClaim.kind, nodeClaim.name)] && m.providerID == ""
    ensures m.failureReason == "" && m.failureMessage == "" && m.phase == "" && m.spec.Some?
    ensures m.spec.value == SpecOf(nodeClass, it, o, m.spec.value.kubeletArgs)
    ensures m.machineType == if o.capacityType == Blacklist.SPOT then "NativeCVM" else "Native"
  {}

  /** Creating the machine of a claim is just what the provider-ID protocol takes a new machine to be. */
  lemma LaunchAddsMachine(zoneGroups: map<string, int>, clusterID: string, nodeClass: NodeClass, nodeClaim: NodeClaim,
                          it: InstanceType, o: Offering, m: Machine, w: ProviderIds.World)
    requires WrittenAs(zoneGroups, clusterID, nodeClass, nodeClaim, it, o, m) && nodeClaim.kind == NODE_CLAIM_KIND
    requires nodeClaim.name in w.used && nodeClaim.name !in w.made && m.name !in w.made.Values
    ensures var w' := w.(o := w.o.(machines := w.o.machines[m.name := m]), made := w.made[nodeClaim.name := m.name]);
            ProviderIds.Step(w, w', ProviderIds.AddMachine(nodeClaim.name, m))
  {
    LaunchedIsClaimed(zoneGroups, clusterID, nodeClass, nodeClaim, it, o, m);
  }

  /** The failure pass counts a failure of a launched machine exactly when its node class is still there. */
  lemma LaunchedIsCountedIff(zoneGroups: map<string, int>, clusterID: string, nodeClass: NodeClass,
                             nodeClaim: NodeClaim,
                             it: InstanceType, o: Offering, m: Machine, classes: set<string>)
    requires WrittenAs(zoneGroups, clusterID, nodeClass, nodeClaim, it, o, m)
    ensures FailureController.IsCounted(m, classes) <==> nodeClass.name != "" && nodeClass.name in classes
  {
    LaunchedIsClaimed(zoneGroups, clusterID, nodeClass, nodeClaim, it, o, m);
    WrittenFields(zoneGroups, clusterID, nodeClass, nodeClaim, it, o, m);
  }

  /** A machine is charged as spot, and is of the type that can be, exactly when its offering is a spot one; it carries
      the class's keys and the first five of its security groups, all when there are no more. */
  lemma SpotIsChargedAsSpot(zoneGroups: map<string, int>, clusterID: string, nodeClass: NodeClass, nodeClaim: NodeClaim,
                            it: InstanceType, o: Offering, m: Machine)
    requires WrittenAs(zoneGroups, clusterID, nodeClass, nodeClaim, it, o, m)
    ensures m.spec.Some? && m.spec.value.instanceType == it.name && m.spec.value.keyIDs == nodeClass.keyIDs
    ensures o.capacityType == "spot" <==> m.spec.value.chargeType == "Spotpaid" && m.machineType == "NativeCVM"
    ensures o.capacityType != "spot" <==> m.spec.value.chargeType == "PostpaidByHour" && m.machineType == "Native"
    ensures var groups := m.spec.value.securityGroupIDs;
            groups <= nodeClass.securityGroupIDs && |groups| <= 5 &&
            (|groups| < 5 ==> groups == nodeClass.securityGroupIDs)
  {
    WrittenFields(zoneGroups, clusterID, nodeClass, nodeClaim, it, o, m);
    SpecIs(nodeClass, it, o, m.spec.value.kubeletArgs);
    assert |"NativeCVM"| != |"Native"|;
  }

  lemma SpecIs(nodeClass: NodeClass, it: InstanceType, o: Offering, args: seq<string>)
    ensures var spec := SpecOf(nodeClass, it, o, args); var groups := spec.securityGroupIDs;
            && spec.instanceType == it.name && spec.keyIDs == nodeClass.keyIDs
            && (o.capacityType == "spot" <==> spec.chargeType == "Spotpaid")
            && (o.capacityType != "spot" <==> spec.chargeType == "PostpaidByHour")
            && groups <= nodeClass.securityGroupIDs && |groups| <= 5
            && (|groups| < 5 ==> groups == nodeClass.securityGroupIDs)
  {
    assert |"Spotpaid"| != |"PostpaidByHour"|;
  }
}
