/** The cloud provider (pkg/cloudprovider/cloudprovider.go): launching through the filtered list of instance
    types, and reading a Machine back into a NodeClaim. */
module CloudProvider {
  import opened Text
  import opened Objects
  import opened InstanceTypes
  import opened LaunchChoice
  import opened MachineLaunch
  import Blacklist
  import ZoneCodec

  /* ---------- launching ---------- */

  /** Types the claim can use: compatible and large enough, which fits decides, with a usable offering. */
  function Resolve(reqs: Requirements, fits: InstanceType -> bool, types: seq<InstanceType>): seq<InstanceType> {
    Filter(it => fits(it) && |Usable(reqs, it)| > 0, types)
  }

  class Provider {
    const instancetypeProvider: InstanceTypes.Provider
    const machineProvider: MachineLaunch.Provider

    constructor (instancetypeProvider: InstanceTypes.Provider, machineProvider: MachineLaunch.Provider)
      ensures this.instancetypeProvider == instancetypeProvider && this.machineProvider == machineProvider
    {
      this.instancetypeProvider, this.machineProvider := instancetypeProvider, machineProvider;
    }

    /** List, resolve, launch; a refused object blocks what was to be launched. */
    method Create(nodeClass: NodeClass, nodeClaim: NodeClaim, s: Settings, odTypes: seq<QuotaItem>,
                  spotTypes: seq<QuotaItem>, fits: InstanceType -> bool, minValuesMet: bool,
                  name: string, now: nat, apiOk: bool)
      returns (outcome: Outcome, ghost types: seq<InstanceType>)
      requires instancetypeProvider.Valid() && ZoneCodec.Disjoint(machineProvider.zoneProvider.zoneGroups)
      modifies instancetypeProvider`blacklist
      ensures instancetypeProvider.Valid()
      ensures Listed(instancetypeProvider.zoneProvider.zoneGroups, old(instancetypeProvider.blacklist), now, Sizing(s),
                     odTypes, spotTypes, types)
      ensures Created(machineProvider.zoneProvider.zoneGroups, machineProvider.clusterID, nodeClass, nodeClaim,
                      Resolve(nodeClaim.reqs, fits, types), minValuesMet, apiOk, outcome)
      ensures instancetypeProvider.blacklist ==
              if outcome.Rejected? then BlockMachine(old(instancetypeProvider.blacklist), outcome.machine, now)
              else old(instancetypeProvider.blacklist)
    {
      types := [];
      var listed := instancetypeProvider.List(s, odTypes, spotTypes, now);
      types := listed;
      var resolved := Resolve(nodeClaim.reqs, fits, listed);
      if |resolved| == 0 {
        return NoTypes, types;
      }
      var chosen;
      outcome, chosen := machineProvider.Create(nodeClass, nodeClaim, resolved, minValuesMet, name, now, apiOk);
      if outcome.Rejected? {
        var m := outcome.machine;
        var instanceType := if m.spec.Some? then m.spec.value.instanceType else "";
        instancetypeProvider.BlockInstanceType(instanceType, CapacityTypeOf(m), m.zone, now);
      }
    }
  }

  function BlockMachine(cache: Blacklist.Cache, m: Machine, now: nat): Blacklist.Cache {
    Blacklist.Block(cache, if m.spec.Some? then m.spec.value.instanceType else "", CapacityTypeOf(m), m.zone, now)
  }

  /** What the launch of a resolved list comes to. */
  ghost predicate Created(zoneGroups: map<string, int>, clusterID: string, nodeClass: NodeClass, nodeClaim: NodeClaim,
                          resolved: seq<InstanceType>, minValuesMet: bool, apiOk: bool, outcome: Outcome)
  {
    if resolved == [] || (nodeClaim.reqs.hasMinValues && !minValuesMet) || Candidates(nodeClaim.reqs, resolved, []) then
      outcome == NoTypes
    else
      exists it :: FirstChoice(nodeClaim.reqs, resolved, it) &&
                   Decided(zoneGroups, clusterID, nodeClass, nodeClaim, it, apiOk, outcome)
  }

  lemma ResolvedIsUsable(reqs: Requirements, fits: InstanceType -> bool, types: seq<InstanceType>, it: InstanceType)
    requires FirstChoice(reqs, Resolve(reqs, fits, types), it)
    ensures it in types && fits(it) && Usable(reqs, it) != []
  {
    FirstChoiceIsListed(reqs, Resolve(reqs, fits, types), it);
  }

  lemma UsableIsNotNil(zoneGroups: map<string, int>, clusterID: string, nodeClass: NodeClass, nodeClaim: NodeClaim,
                       it: InstanceType, apiOk: bool, outcome: Outcome)
    requires Decided(zoneGroups, clusterID, nodeClass, nodeClaim, it, apiOk, outcome) &&
             Usable(nodeClaim.reqs, it) != []
    ensures outcome != NilOffering
    ensures outcome.Launched? || outcome.Rejected? ==>
              WrittenAs(zoneGroups, clusterID, nodeClass, nodeClaim, it, Cheapest(Usable(nodeClaim.reqs, it)),
                        outcome.machine)
  {}

  /** Behind the resolving filter the launch never meets a type without a usable offering. */
  lemma NeverNilOffering(zoneGroups: map<string, int>, clusterID: string, nodeClass: NodeClass, nodeClaim: NodeClaim,
                         fits: InstanceType -> bool, types: seq<InstanceType>, minValuesMet: bool, apiOk: bool,
                         outcome: Outcome)
    requires Created(zoneGroups, clusterID, nodeClass, nodeClaim, Resolve(nodeClaim.reqs, fits, types), minValuesMet,
                     apiOk, outcome)
    ensures outcome != NilOffering
  {
    var resolved := Resolve(nodeClaim.reqs, fits, types);
    forall it | FirstChoice(nodeClaim.reqs, resolved, it) &&
                Decided(zoneGroups, clusterID, nodeClass, nodeClaim, it, apiOk, outcome)
      ensures outcome != NilOffering
    {
      ResolvedIsUsable(nodeClaim.reqs, fits, types, it);
      UsableIsNotNil(zoneGroups, clusterID, nodeClass, nodeClaim, it, apiOk, outcome);
    }
  }

  lemma WrittenIdentity(zoneGroups: map<string, int>, clusterID: string, nodeClass: NodeClass, nodeClaim: NodeClaim,
                        it: InstanceType, o: Offering, m: Machine)
    requires WrittenAs(zoneGroups, clusterID, nodeClass, nodeClaim, it, o, m)
    ensures m.spec.Some? && m.spec.value.instanceType == it.name && CapacityTypeOf(m) == o.capacityType
    ensures m.failureMessage == ""
    ensures ZoneCodec.ZoneOf(zoneGroups, o.zoneID) == Ok(m.zone) && m.subnetID == SubnetIn(nodeClass.subnets, m.zone)
  {}

  lemma UsableIsOffered(reqs: Requirements, it: InstanceType, o: Offering)
    requires o in Usable(reqs, it)
    ensures o in it.offerings && o.available && Compatible(reqs, o)
  {
    assert o in Available(it);
  }

  /** Behind the resolving filter a machine is written at the cheapest usable offering of a first choice. */
  lemma LaunchedOffering(zoneGroups: map<string, int>, clusterID: string, nodeClass: NodeClass, nodeClaim: NodeClaim,
                         fits: InstanceType -> bool, types: seq<InstanceType>, minValuesMet: bool, apiOk: bool,
                         outcome: Outcome)
    returns (it: InstanceType, o: Offering)
    requires outcome.Launched? || outcome.Rejected?
    requires Created(zoneGroups, clusterID, nodeClass, nodeClaim, Resolve(nodeClaim.reqs, fits, types), minValuesMet,
                     apiOk, outcome)
    ensures it in types && fits(it) && FirstChoice(nodeClaim.reqs, Resolve(nodeClaim.reqs, fits, types), it)
    ensures Usable(nodeClaim.reqs, it) != [] && o == Cheapest(Usable(nodeClaim.reqs, it))
    ensures o in it.offerings && o.available && Compatible(nodeClaim.reqs, o)
    ensures WrittenAs(zoneGroups, clusterID, nodeClass, nodeClaim, it, o, outcome.machine)
  {
    var resolved := Resolve(nodeClaim.reqs, fits, types);
    it :| FirstChoice(nodeClaim.reqs, resolved, it) &&
      Decided(zoneGroups, clusterID, nodeClass, nodeClaim, it, apiOk, outcome);
    ResolvedIsUsable(nodeClaim.reqs, fits, types, it);
    UsableIsNotNil(zoneGroups, clusterID, nodeClass, nodeClaim, it, apiOk, outcome);
    o := Cheapest(Usable(nodeClaim.reqs, it));
    UsableIsOffered(nodeClaim.reqs, it, o);
  }

  /** A launched machine's type, capacity label, zone, price and subnet all stem from one cheapest usable offering
      of the first choice. */
  lemma LaunchIsCoherent(zoneGroups: map<string, int>, clusterID: string, nodeClass: NodeClass, nodeClaim: NodeClaim,
                         fits: InstanceType -> bool, types: seq<InstanceType>, minValuesMet: bool, apiOk: bool,
                         outcome: Outcome)
    returns (it: InstanceType, o: Offering)
    requires outcome.Launched? || outcome.Rejected?
    requires Created(zoneGroups, clusterID, nodeClass, nodeClaim, Resolve(nodeClaim.reqs, fits, types), minValuesMet,
                     apiOk, outcome)
    ensures it in types && FirstChoice(nodeClaim.reqs, Resolve(nodeClaim.reqs, fits, types), it)
    ensures o in it.offerings && o.available && Compatible(nodeClaim.reqs, o)
    ensures forall x | x in Usable(nodeClaim.reqs, it) :: o.price <= x.price
    ensures WrittenAs(zoneGroups, clusterID, nodeClass, nodeClaim, it, o, outcome.machine)
    ensures outcome.machine.spec.Some? && outcome.machine.spec.value.instanceType == it.name
    ensures outcome.machine.failureMessage == ""
    ensures CapacityTypeOf(outcome.machine) == o.capacityType
    ensures ZoneCodec.ZoneOf(zoneGroups, o.zoneID) == Ok(outcome.machine.zone)
    ensures outcome.machine.subnetID == SubnetIn(nodeClass.subnets, outcome.machine.zone)
  {
    it, o := LaunchedOffering(zoneGroups, clusterID, nodeClass, nodeClaim, fits, types, minValuesMet, apiOk, outcome);
    WrittenIdentity(zoneGroups, clusterID, nodeClass, nodeClaim, it, o, outcome.machine);
  }
}
