/** Where the loop of launches and failure passes stays open: the quota items on sale in zones the provider writes
    under another name. */
module OpenLoop {
  import opened Text
  import opened Objects
  import opened Blacklist
  import opened InstanceTypes
  import opened LaunchChoice
  import opened MachineLaunch
  import opened FeedbackLoop
  import CloudProvider
  import FailureController
  import ZoneCodec

  lemma WrittenIsNoWildcard(zoneGroups: map<string, int>, id: string)
    requires ZoneCodec.ValidTable(zoneGroups) && ZoneCodec.ZoneOf(zoneGroups, id).Ok?
    ensures ZoneCodec.ZoneOf(zoneGroups, id).value != "*"
  {
    var region := ZoneCodec.RegionAt(zoneGroups, Atoi(id).value);
    var n := Atoi(id).value - zoneGroups[region];
    assert |region + "-" + Itoa(n)| == |region| + 1 + |Itoa(n)|;
  }

  /** A block recorded under the name the machine gets leaves the quota item on sale exactly in renamed zones. */
  lemma RenamedZonesEscape(zoneGroups: map<string, int>, item: QuotaItem, capacityType: string, written: string,
                           now: nat)
    requires ZoneCodec.ValidTable(zoneGroups) && KnownCapacity(capacityType) && Separate(item.instanceType, "*")
    requires ZoneCodec.ZoneOf(zoneGroups, ZoneIDOrEmpty(zoneGroups, item.zone)) == Ok(written)
    ensures Sellable(Block(map[], item.instanceType, capacityType, written, now), now, capacityType, item) <==>
            IsRenamed(zoneGroups, item.zone)
  {
    ZoneIsKeptIff(zoneGroups, item.zone, written);
    WrittenIsNoWildcard(zoneGroups, ZoneIDOrEmpty(zoneGroups, item.zone));
    OneBlock(item.instanceType, capacityType, written, item.instanceType, capacityType, item.zone, now);
  }

  /* ---------- a launch with a single quota item ---------- */

  function OdItems(capacityType: string, item: QuotaItem): seq<QuotaItem> {
    if capacityType == ON_DEMAND then [item] else []
  }

  function SpotItems(capacityType: string, item: QuotaItem): seq<QuotaItem> {
    if capacityType == ON_DEMAND then [] else [item]
  }

  lemma OfferedOfOne(zoneGroups: map<string, int>, cache: Cache, now: nat, capacityType: string, item: QuotaItem)
    requires Sellable(cache, now, capacityType, item)
    ensures Offered(zoneGroups, cache, now, capacityType, [item], item.instanceType) ==
            [OfferingOf(zoneGroups, capacityType, item)]
  {
    assert [item][..0] == [];
    assert Offered(zoneGroups, cache, now, capacityType, [item][..0], item.instanceType) == [];
  }

  lemma ByTypeOfOne(cache: Cache, now: nat, capacityType: string, item: QuotaItem)
    requires capacityType in {SPOT, ON_DEMAND} && Sellable(cache, now, capacityType, item)
    ensures ByType(cache, now, OdItems(capacityType, item), SpotItems(capacityType, item)) ==
            map[item.instanceType := item]
  {
    assert [item][..0] == [];
    assert LastByType([item][..0]) == map[];
    assert LastByType([item]) == map[][item.instanceType := item];
    assert ByType(cache, now, [], [item][..0]) == map[];
  }

  /** A single item that is not blocked is listed as a type with a single offering. */
  lemma OneItemIsListed(zoneGroups: map<string, int>, cache: Cache, now: nat, build: Build, capacityType: string,
                        item: QuotaItem)
    requires KeepsIdentity(build) && capacityType in {SPOT, ON_DEMAND} && Sellable(cache, now, capacityType, item)
    ensures Listed(zoneGroups, cache, now, build, OdItems(capacityType, item), SpotItems(capacityType, item),
                   [build(item, [OfferingOf(zoneGroups, capacityType, item)])])
  {
    var od, spot := OdItems(capacityType, item), SpotItems(capacityType, item);
    ByTypeOfOne(cache, now, capacityType, item);
    OfferedOfOne(zoneGroups, cache, now, capacityType, item);
    var o := OfferingOf(zoneGroups, capacityType, item);
    assert OfferedUnder(zoneGroups, cache, now, od, spot, item.instanceType) == [o];
    OnlyBuilt(zoneGroups, cache, now, build, od, spot, item, o);
  }

  lemma OnlyBuilt(zoneGroups: map<string, int>, cache: Cache, now: nat, build: Build, od: seq<QuotaItem>,
                  spot: seq<QuotaItem>, item: QuotaItem, o: Offering)
    requires KeepsIdentity(build) && ByType(cache, now, od, spot) == map[item.instanceType := item]
    requires OfferedUnder(zoneGroups, cache, now, od, spot, item.instanceType) == [o]
    ensures Listed(zoneGroups, cache, now, build, od, spot, [build(item, [o])])
  {
    var types, byType := [build(item, [o])], ByType(cache, now, od, spot);
    assert types[0].name == item.instanceType && byType.Keys == {item.instanceType};
    assert NamedOnce(types, byType.Keys);
  }

  const ANYTHING := Requirements(Unconstrained, Unconstrained, Unconstrained, false)
  const CLAIM := NodeClaim("claim", NODE_CLAIM_KIND, map[], map[], ANYTHING)

  function FitsAll(): InstanceType -> bool {
    _ => true
  }

  function ClassIn(zone: string): NodeClass {
    NodeClass("class", [Subnet("subnet-1", zone, "")], [], [], None)
  }

  lemma OneOfferingIsUsable(it: InstanceType, o: Offering)
    requires it.offerings == [o] && o.available
    ensures Available(it) == [o] && Usable(ANYTHING, it) == [o]
  {
    FilterOfOne((o: Offering) => o.available, o);
    FilterOfOne(o => Compatible(ANYTHING, o), o);
  }

  /** An unconstrained claim chooses the only type there is. */
  lemma OnlyTypeIsChosen(it: InstanceType, o: Offering)
    requires it.offerings == [o] && o.available
    ensures CloudProvider.Resolve(ANYTHING, FitsAll(), [it]) == [it]
    ensures FirstChoice(ANYTHING, [it], it) && !Candidates(ANYTHING, [it], [])
  {
    OneOfferingIsUsable(it, o);
    OnlyTypeIsResolved(it, FitsAll());
    assert !IsMixed(ANYTHING, [it]);
    StrOrderIsTotal(it.name, it.name);
    assert FirstAmong(ANYTHING, [it], it);
    assert Candidates(ANYTHING, [it], [it]);
  }

  lemma OnlyTypeIsResolved(it: InstanceType, fits: InstanceType -> bool)
    requires fits(it) && Usable(ANYTHING, it) != []
    ensures CloudProvider.Resolve(ANYTHING, fits, [it]) == [it]
  {
    assert it in CloudProvider.Resolve(ANYTHING, fits, [it]);
  }

  function LaunchedAt(clusterID: string, it: InstanceType, o: Offering, zone: string): Machine {
    MachineOf(clusterID, ClassIn(zone), CLAIM, it, o, zone, [REGISTER_TAINT_KEY + "=" + REGISTER_TAINT], "np-2", 0)
  }

  predicate IsTriple(m: Machine, instanceType: string, capacityType: string, zone: string) {
    m.spec.Some? && m.spec.value.instanceType == instanceType && CapacityTypeOf(m) == capacityType && m.zone == zone
  }

  lemma LaunchedTriple(clusterID: string, it: InstanceType, o: Offering, zone: string)
    ensures IsTriple(LaunchedAt(clusterID, it, o, zone), it.name, o.capacityType, zone)
  {}

  lemma OnlyTypeIsLaunched(zoneGroups: map<string, int>, clusterID: string, it: InstanceType, o: Offering, zone: string)
    returns (m: Machine)
    requires it.offerings == [o] && o.available && ZoneCodec.ZoneOf(zoneGroups, o.zoneID) == Ok(zone)
    ensures CloudProvider.Created(zoneGroups, clusterID, ClassIn(zone), CLAIM,
                                  CloudProvider.Resolve(ANYTHING, FitsAll(), [it]), true, true, Launched(m))
    ensures IsTriple(m, it.name, o.capacityType, zone)
  {
    OnlyTypeIsChosen(it, o);
    OneOfferingIsUsable(it, o);
    m := LaunchedAt(clusterID, it, o, zone);
    LaunchedTriple(clusterID, it, o, zone);
    NoUserArgs(m.spec.value.kubeletArgs);
    assert SubnetIn(ClassIn(zone).subnets, zone) == "subnet-1";
    assert WrittenAs(zoneGroups, clusterID, ClassIn(zone), CLAIM, it, o, m);
    assert Decided(zoneGroups, clusterID, ClassIn(zone), CLAIM, it, true, Launched(m));
  }

  lemma NoUserArgs(args: seq<string>)
    requires |args| == 1
    ensures UserArgs(map[], args[..|args| - 1])
  {
    assert Enumerates(map[], {}, []) && args[..0] == ArgsOf(map[], []);
  }

  function RequestFor(build: Build, capacityType: string, item: QuotaItem, zone: string): Request {
    Request(ClassIn(zone), CLAIM, build, OdItems(capacityType, item), SpotItems(capacityType, item), FitsAll(),
            true, true)
  }

  lemma OneItemIsLaunched(zoneGroups: map<string, int>, clusterID: string, w: World, build: Build, capacityType: string,
                          item: QuotaItem, zone: string) returns (m: Machine)
    requires KeepsIdentity(build) && capacityType in {SPOT, ON_DEMAND} && OnSale(item)
    requires Sellable(w.cache, w.now, capacityType, item)
    requires ZoneCodec.ZoneOf(zoneGroups, ZoneIDOrEmpty(zoneGroups, item.zone)) == Ok(zone)
    ensures LaunchStep(zoneGroups, clusterID, w, After(w, Launched(m)), RequestFor(build, capacityType, item, zone),
                       Launched(m))
    ensures IsTriple(m, item.instanceType, capacityType, zone)
  {
    var o := OfferingOf(zoneGroups, capacityType, item);
    var it := build(item, [o]);
    OneItemIsListed(zoneGroups, w.cache, w.now, build, capacityType, item);
    m := OnlyTypeIsLaunched(zoneGroups, clusterID, it, o, zone);
    StepFor(zoneGroups, clusterID, w, RequestFor(build, capacityType, item, zone), OdItems(capacityType, item),
            SpotItems(capacityType, item), Launched(m), it);
  }

  lemma StepFor(zoneGroups: map<string, int>, clusterID: string, w: World, r: Request, od: seq<QuotaItem>,
                spot: seq<QuotaItem>, outcome: Outcome, it: InstanceType)
    requires KeepsIdentity(r.build) && r.fits == FitsAll() && r.minValuesMet && r.apiOk
    requires r.odTypes == od && r.spotTypes == spot && r.nodeClaim == CLAIM
    requires Listed(zoneGroups, w.cache, w.now, r.build, od, spot, [it])
    requires CloudProvider.Created(zoneGroups, clusterID, r.nodeClass, CLAIM,
                                   CloudProvider.Resolve(ANYTHING, FitsAll(), [it]),
                                   true, true, outcome)
    ensures LaunchStep(zoneGroups, clusterID, w, After(w, outcome), r, outcome)
  {
    ToLaunchStep(zoneGroups, clusterID, w, r, outcome, [it]);
  }

  /* ---------- a pass over a single failed machine ---------- */

  /** A machine of this triple that failed at birth, for no shortage. */
  function FailedOf(instanceType: string, capacityType: string, zone: string): Machine {
    Machine("np-1", map[LABEL_CAPACITY_TYPE := capacityType], map[], [OwnerReference(NODE_CLAIM_KIND, "first")], 0, "",
            "",
            zone, "", "", Some(ProviderSpec(instanceType, "", [], [], [])), "", "failed")
  }

  lemma FailedIsUnknown(instanceType: string, capacityType: string, zone: string, cache: Cache, now: nat)
    requires now > 30 * FailureController.SECOND
    ensures var failed := FailedOf(instanceType, capacityType, zone);
            && !FailureController.CountsAsShortage(cache, failed, now)
            && FailureController.CountsAsUnknown(cache, failed, now)
            && FailureController.BlockedType(failed) == instanceType && CapacityTypeOf(failed) == capacityType
  {
    var failed := FailedOf(instanceType, capacityType, zone);
    assert failed.owners[0].kind == NODE_CLAIM_KIND;
    assert |failed.failureReason| != |FailureController.INVALID_CONFIGURATION|;
    assert |failed.failureMessage| < |"LimitExceeded.UserSpotQuota"|;
    assert !Contains(failed.failureMessage, "LimitExceeded.UserSpotQuota");
  }

  /** A pass over it blocks just its triple. */
  lemma PassBlocksFailed(instanceType: string, capacityType: string, zone: string, now: nat) returns (failed: Machine)
    requires now > 30 * FailureController.SECOND
    ensures Escalates(World(now, map[], [failed]), {}, failed) && IsTriple(failed, instanceType, capacityType, zone)
    ensures FailureController.Passed(map[], [failed], {}, now) == Block(map[], instanceType, capacityType, zone, now)
  {
    failed := FailedOf(instanceType, capacityType, zone);
    FailedIsUnknown(instanceType, capacityType, zone, map[], now);
    FailureController.FiltersOfOne(map[], failed, now);
    assert FailureController.Counted(map[], [failed], {}, now) == map[];
    BlockAllOfOne(map[], failed, now);
  }

  lemma BlockAllOfOne(cache: Cache, m: Machine, now: nat)
    ensures FailureController.BlockAll(cache, [m], now) == FailureController.BlockOne(cache, m, now)
  {
    assert [m][..0] == [];
    assert FailureController.BlockAll(cache, [m][..0], now) == cache;
  }

  /* ---------- the loop opens ---------- */

  /** For every item on sale in a renamed zone, capacity type and way to build types, the loop can be left open: a
      machine fails there, a pass blocks its triple, and the next launch creates the same triple at the same instant. */
  lemma RenamedZoneRepeats(zoneGroups: map<string, int>, clusterID: string, build: Build, item: QuotaItem,
                           capacityType: string) returns (worlds: seq<World>, events: seq<Event>, failed: Machine)
    requires ZoneCodec.ValidTable(zoneGroups) && KeepsIdentity(build) && capacityType in {SPOT, ON_DEMAND}
    requires Separate(item.instanceType, "*") && OnSale(item) && IsRenamed(zoneGroups, item.zone)
    ensures Repeats(zoneGroups, clusterID, worlds, events, 0, 1, failed)
    ensures worlds[1].now == worlds[0].now && |events| == 2 && events[1].outcome.Launched?
    ensures events[1].request.build == build && QuotesOnly(events, {item})
  {
    var w, w', m, zone;
    w, w', m, failed, zone := BlockedItemIsLaunched(zoneGroups, clusterID, build, item, capacityType);
    worlds, events := Assemble(zoneGroups, clusterID, w, w', RequestFor(build, capacityType, item, zone), m, failed);
    QuotesOne(build, capacityType, item, zone, events);
  }

  /** The two steps: the pass over the failed machine and the launch that repeats it. */
  lemma BlockedItemIsLaunched(zoneGroups: map<string, int>, clusterID: string, build: Build, item: QuotaItem,
                              capacityType: string)
    returns (w: World, w': World, m: Machine, failed: Machine, zone: string)
    requires ZoneCodec.ValidTable(zoneGroups) && KeepsIdentity(build) && capacityType in {SPOT, ON_DEMAND}
    requires Separate(item.instanceType, "*") && OnSale(item) && IsRenamed(zoneGroups, item.zone)
    ensures w' == w.(cache := FailureController.Passed(w.cache, w.machines, {}, w.now)) && Escalates(w, {}, failed)
    ensures LaunchStep(zoneGroups, clusterID, w', After(w', Launched(m)), RequestFor(build, capacityType, item, zone),
                       Launched(m))
    ensures SameKind(failed, m)
  {
    zone := ZoneCodec.ZoneOf(zoneGroups, ZoneIDOrEmpty(zoneGroups, item.zone)).value;
    var now := 31 * FailureController.SECOND;
    failed := PassBlocksFailed(item.instanceType, capacityType, zone, now);
    RenamedZonesEscape(zoneGroups, item, capacityType, zone, now);
    w := World(now, map[], [failed]);
    w' := World(now, Block(map[], item.instanceType, capacityType, zone, now), [failed]);
    m := OneItemIsLaunched(zoneGroups, clusterID, w', build, capacityType, item, zone);
  }

  lemma Assemble(zoneGroups: map<string, int>, clusterID: string, w: World, w': World, r: Request, m: Machine,
                 failed: Machine) returns (worlds: seq<World>, events: seq<Event>)
    requires w' == w.(cache := FailureController.Passed(w.cache, w.machines, {}, w.now)) && Escalates(w, {}, failed)
    requires LaunchStep(zoneGroups, clusterID, w', After(w', Launched(m)), r, Launched(m)) && SameKind(failed, m)
    ensures Repeats(zoneGroups, clusterID, worlds, events, 0, 1, failed)
    ensures worlds[1].now == worlds[0].now && events == [Pass({}), Launch(r, Launched(m))]
  {
    PassIsStep(zoneGroups, clusterID, w, w');
    LaunchIsStep(zoneGroups, clusterID, w', r, m);
    worlds, events := [w, w', After(w', Launched(m))], [Pass({}), Launch(r, Launched(m))];
    TwoSteps(zoneGroups, clusterID, worlds, events);
    OneRepeats(zoneGroups, clusterID, worlds, events, failed);
  }

  lemma QuotesOne(build: Build, capacityType: string, item: QuotaItem, zone: string, events: seq<Event>)
    requires |events| == 2 && events[0].Pass? && events[1].Launch?
    requires events[1].request == RequestFor(build, capacityType, item, zone)
    ensures events[1].request.build == build && QuotesOnly(events, {item})
  {}

  lemma PassIsStep(zoneGroups: map<string, int>, clusterID: string, w: World, w': World)
    requires w' == w.(cache := FailureController.Passed(w.cache, w.machines, {}, w.now))
    ensures Step(zoneGroups, clusterID, w, w', Pass({}))
  {}

  lemma LaunchIsStep(zoneGroups: map<string, int>, clusterID: string, w: World, r: Request, m: Machine)
    requires LaunchStep(zoneGroups, clusterID, w, After(w, Launched(m)), r, Launched(m))
    ensures Step(zoneGroups, clusterID, w, After(w, Launched(m)), Launch(r, Launched(m)))
  {}

  lemma TwoSteps(zoneGroups: map<string, int>, clusterID: string, worlds: seq<World>, events: seq<Event>)
    requires |worlds| == 3 && |events| == 2
    requires Step(zoneGroups, clusterID, worlds[0], worlds[1], events[0])
    requires Step(zoneGroups, clusterID, worlds[1], worlds[2], events[1])
    ensures IsRun(zoneGroups, clusterID, worlds, events)
  {}

  lemma OneRepeats(zoneGroups: map<string, int>, clusterID: string, worlds: seq<World>, events: seq<Event>,
                   failed: Machine)
    requires |events| == 2 && IsRun(zoneGroups, clusterID, worlds, events) && worlds[1].now == worlds[0].now
    requires events[0].Pass? && Escalates(worlds[0], events[0].classes, failed)
    requires CreatesLike(failed, events[1])
    ensures Repeats(zoneGroups, clusterID, worlds, events, 0, 1, failed)
  {}

  predicate QuotesOnly(events: seq<Event>, quotas: set<QuotaItem>) {
    forall k | 0 <= k < |events| && events[k].Launch? ::
      (forall item | item in events[k].request.odTypes :: item in quotas) &&
      (forall item | item in events[k].request.spotTypes :: item in quotas)
  }

  lemma RepeatNeedsRenamed(zoneGroups: map<string, int>, clusterID: string, quotas: set<QuotaItem>, worlds: seq<World>,
                           events: seq<Event>, i: nat, j: nat, failed: Machine)
    requires ZoneCodec.ValidTable(zoneGroups) && QuotesOnly(events, quotas)
    requires Repeats(zoneGroups, clusterID, worlds, events, i, j, failed)
    ensures exists item | item in quotas :: OnSale(item) && IsRenamed(zoneGroups, item.zone)
  {
    var item := RepeatIsRenamed(zoneGroups, clusterID, worlds, events, i, j, failed);
  }

  lemma RenamedIsEnough(zoneGroups: map<string, int>, clusterID: string, quotas: set<QuotaItem>, item: QuotaItem)
    returns (worlds: seq<World>, events: seq<Event>, failed: Machine)
    requires ZoneCodec.ValidTable(zoneGroups) && item in quotas && Separate(item.instanceType, "*")
    requires OnSale(item) && IsRenamed(zoneGroups, item.zone)
    ensures QuotesOnly(events, quotas) && Repeats(zoneGroups, clusterID, worlds, events, 0, 1, failed)
  {
    var settings := Settings(50, true, 0.0, map[], InstanceTypes.Cluster.Cluster(None, None));
    SizingKeepsIdentity(settings);
    worlds, events, failed := RenamedZoneRepeats(zoneGroups, clusterID, Sizing(settings), item, ON_DEMAND);
  }

  /** The exact condition: with the cloud quoting from these items only, some run repeats a blocked triple within
      thirty minutes if and only if one of the items is on sale in a renamed zone. */
  lemma LoopOpensIff(zoneGroups: map<string, int>, clusterID: string, quotas: set<QuotaItem>)
    requires ZoneCodec.ValidTable(zoneGroups) && forall item | item in quotas :: Separate(item.instanceType, "*")
    ensures (exists worlds, events, i: nat, j: nat, failed ::
               QuotesOnly(events, quotas) && Repeats(zoneGroups, clusterID, worlds, events, i, j, failed)) <==>
            (exists item | item in quotas :: OnSale(item) && IsRenamed(zoneGroups, item.zone))
  {
    if item :| item in quotas && OnSale(item) && IsRenamed(zoneGroups, item.zone) {
      var worlds, events, failed := RenamedIsEnough(zoneGroups, clusterID, quotas, item);
    } else {
      forall worlds, events, i: nat, j: nat, failed |
        QuotesOnly(events, quotas) && Repeats(zoneGroups, clusterID, worlds, events, i, j, failed)
        ensures false
      {
        RepeatNeedsRenamed(zoneGroups, clusterID, quotas, worlds, events, i, j, failed);
      }
    }
  }
}
