/** The closed loop of launches, failure passes and time: what a pass blocks is not launched again while
    the block lives. */
module FeedbackLoop {
  import opened Text
  import opened Objects
  import opened Blacklist
  import opened InstanceTypes
  import opened LaunchChoice
  import opened MachineLaunch
  import CloudProvider
  import FailureController
  import ZoneCodec

  /** The state the loop runs on. Other actors may add, change and delete machines at any time. */
  datatype World = World(now: nat, cache: Cache, machines: seq<Machine>)

  /** Everything a launch gets from outside. */
  datatype Request = Request(nodeClass: NodeClass, nodeClaim: NodeClaim, build: Build,
                             odTypes: seq<QuotaItem>, spotTypes: seq<QuotaItem>,
                             fits: InstanceType -> bool, minValuesMet: bool, apiOk: bool)

  datatype Event =
    | Tick
    | Cluster
    | Pass(classes: set<string>)
    | Launch(request: Request, outcome: Outcome)

  /** A launched machine joins the others; a refused one blocks what was to be launched. */
  function After(w: World, outcome: Outcome): World {
    match outcome
    case Launched(m) => w.(machines := w.machines + [m])
    case Rejected(m) => w.(cache := CloudProvider.BlockMachine(w.cache, m, w.now))
    case _ => w
  }

  ghost predicate LaunchStep(zoneGroups: map<string, int>, clusterID: string, w: World, w': World, r: Request,
                             outcome: Outcome)
  {
    && KeepsIdentity(r.build)
    && (exists types ::
          Listed(zoneGroups, w.cache, w.now, r.build, r.odTypes, r.spotTypes, types) &&
          CloudProvider.Created(zoneGroups, clusterID, r.nodeClass, r.nodeClaim,
            CloudProvider.Resolve(r.nodeClaim.reqs, r.fits, types), r.minValuesMet, r.apiOk, outcome))
    && w' == After(w, outcome)
  }

  lemma ToLaunchStep(zoneGroups: map<string, int>, clusterID: string, w: World, r: Request, outcome: Outcome,
                     types: seq<InstanceType>)
    requires KeepsIdentity(r.build)
    requires Listed(zoneGroups, w.cache, w.now, r.build, r.odTypes, r.spotTypes, types)
    requires CloudProvider.Created(zoneGroups, clusterID, r.nodeClass, r.nodeClaim,
               CloudProvider.Resolve(r.nodeClaim.reqs, r.fits, types), r.minValuesMet, r.apiOk, outcome)
    ensures LaunchStep(zoneGroups, clusterID, w, After(w, outcome), r, outcome)
  {}

  /** One atomic step. A pass also deletes machines, but which ones it manages to delete is left to Cluster steps. */
  ghost predicate Step(zoneGroups: map<string, int>, clusterID: string, w: World, w': World, e: Event) {
    match e
    case Tick => w.now <= w'.now && w' == w.(now := w'.now)
    case Cluster => w' == w.(machines := w'.machines)
    case Pass(classes) => w' == w.(cache := FailureController.Passed(w.cache, w.machines, classes, w.now))
    case Launch(r, outcome) => LaunchStep(zoneGroups, clusterID, w, w', r, outcome)
  }

  ghost predicate IsRun(zoneGroups: map<string, int>, clusterID: string, worlds: seq<World>, events: seq<Event>) {
    && |worlds| == |events| + 1
    && forall k | 0 <= k < |events| :: Step(zoneGroups, clusterID, worlds[k], worlds[k + 1], events[k])
  }

  /** The zone has an ID, and that ID stands for a zone. */
  ghost predicate Understood(zoneGroups: map<string, int>, zone: string) {
    ZoneCodec.ZoneOf(zoneGroups, ZoneIDOrEmpty(zoneGroups, zone)).Ok?
  }

  /** A zone whose name the provider would write differently. */
  ghost predicate IsRenamed(zoneGroups: map<string, int>, zone: string) {
    Understood(zoneGroups, zone) && !ZoneCodec.CanonicalZone(zoneGroups, zone)
  }

  predicate OnSale(item: QuotaItem) {
    item.status == "SELL" && item.inventory > 0
  }

  predicate Quotes(r: Request, item: QuotaItem) {
    item in r.odTypes || item in r.spotTypes
  }

  /** No item that is quoted in this run is on sale in a renamed zone. */
  ghost predicate NothingRenamed(zoneGroups: map<string, int>, events: seq<Event>) {
    forall k, item | 0 <= k < |events| && events[k].Launch? && Quotes(events[k].request, item) ::
      !(OnSale(item) && IsRenamed(zoneGroups, item.zone))
  }

  /* ---------- one launch ---------- */

  /** A machine is created from a quota item of its type that is on sale and not blocked at that moment, and its zone
      is the zone that item's ID stands for. */
  lemma LaunchIsUnblocked(zoneGroups: map<string, int>, clusterID: string, w: World, w': World, r: Request,
                          outcome: Outcome)
    returns (item: QuotaItem, m: Machine)
    requires outcome.Launched? || outcome.Rejected?
    requires LaunchStep(zoneGroups, clusterID, w, w', r, outcome)
    ensures m == outcome.machine && m.spec.Some? && m.failureMessage == ""
    ensures Quotes(r, item) && OnSale(item)
    ensures item.instanceType == m.spec.value.instanceType && CapacityTypeOf(m) in {SPOT, ON_DEMAND}
    ensures !IsBlocked(w.cache, m.spec.value.instanceType, CapacityTypeOf(m), item.zone, w.now)
    ensures ZoneCodec.ZoneOf(zoneGroups, ZoneIDOrEmpty(zoneGroups, item.zone)) == Ok(m.zone)
  {
    m := outcome.machine;
    var types :| Listed(zoneGroups, w.cache, w.now, r.build, r.odTypes, r.spotTypes, types) &&
                 CloudProvider.Created(zoneGroups, clusterID, r.nodeClass, r.nodeClaim,
                   CloudProvider.Resolve(r.nodeClaim.reqs, r.fits, types), r.minValuesMet, r.apiOk, outcome);
    var it, o := CloudProvider.LaunchIsCoherent(zoneGroups, clusterID, r.nodeClass, r.nodeClaim, r.fits, types,
                                                r.minValuesMet, r.apiOk, outcome);
    item := ListedOfferingIsUnblocked(zoneGroups, w.cache, w.now, r.build, r.odTypes, r.spotTypes, types, it, o);
  }

  /** The machine's zone is the quota item's own zone exactly when that zone is canonical. */
  lemma ZoneIsKeptIff(zoneGroups: map<string, int>, zone: string, written: string)
    requires ZoneCodec.ValidTable(zoneGroups)
    requires ZoneCodec.ZoneOf(zoneGroups, ZoneIDOrEmpty(zoneGroups, zone)) == Ok(written)
    ensures ZoneCodec.CanonicalZone(zoneGroups, zone) <==> written == zone
  {
    assert Atoi("").None?;
    ZoneCodec.ZoneRoundTrip(zoneGroups, zone);
  }

  /** When a launch creates a machine of a blocked triple, the item behind it is on sale in a renamed zone. */
  lemma BlockedLaunchIsRenamed(zoneGroups: map<string, int>, clusterID: string, w: World, w': World, r: Request,
                               outcome: Outcome) returns (item: QuotaItem)
    requires ZoneCodec.ValidTable(zoneGroups) && (outcome.Launched? || outcome.Rejected?)
    requires LaunchStep(zoneGroups, clusterID, w, w', r, outcome) && outcome.machine.spec.Some?
    requires IsBlocked(w.cache, outcome.machine.spec.value.instanceType, CapacityTypeOf(outcome.machine),
                       outcome.machine.zone, w.now)
    ensures Quotes(r, item) && OnSale(item) && IsRenamed(zoneGroups, item.zone)
  {
    var m;
    item, m := LaunchIsUnblocked(zoneGroups, clusterID, w, w', r, outcome);
    ZoneIsKeptIff(zoneGroups, item.zone, m.zone);
  }

  /* ---------- blocks live on ---------- */

  /** A block of this pattern stays in force until the given time. */
  ghost predicate BlockedUntil(cache: Cache, instName: string, capacityType: string, zone: string, until: nat) {
    var key := BlockedKey(instName, capacityType, zone);
    key in cache && cache[key].expires >= until
  }

  lemma {:induction false} CountingKeepsBlocks(cache: Cache, ms: seq<Machine>, classes: set<string>, now: nat,
                                               i: string, c: string, z: string, until: nat)
    requires BlockedUntil(cache, i, c, z, until)
    ensures BlockedUntil(FailureController.CountAll(cache, ms, classes, now), i, c, z, until)
    decreases |ms|
  {
    if ms != [] {
      CountingKeepsBlocks(cache, ms[..|ms| - 1], classes, now, i, c, z, until);
      var m := ms[|ms| - 1];
      if FailureController.IsCounted(m, classes) {
        KeysDiffer(i, c, z, m.spec.value.instanceType, CapacityTypeOf(m), m.zone);
        KeysDiffer(i, c, z, "*", CapacityTypeOf(m), m.zone);
      }
    }
  }

  lemma {:induction false} BlockingKeepsBlocks(cache: Cache, ms: seq<Machine>, now: nat,
                                               i: string, c: string, z: string, until: nat)
    requires BlockedUntil(cache, i, c, z, until) && until <= now + BLOCK_TTL
    ensures BlockedUntil(FailureController.BlockAll(cache, ms, now), i, c, z, until)
    decreases |ms|
  {
    if ms != [] {
      BlockingKeepsBlocks(cache, ms[..|ms| - 1], now, i, c, z, until);
    }
  }

  /** No step shortens a block that ends within half an hour from now: blocking again only renews it. */
  lemma StepKeepsBlocks(zoneGroups: map<string, int>, clusterID: string, w: World, w': World, e: Event,
                        i: string, c: string, z: string, until: nat)
    requires Step(zoneGroups, clusterID, w, w', e)
    requires BlockedUntil(w.cache, i, c, z, until) && until <= w.now + BLOCK_TTL
    ensures BlockedUntil(w'.cache, i, c, z, until) && w.now <= w'.now
  {
    match e {
      case Pass(classes) =>
        var shortages := FailureController.Shortages(w.cache, w.machines, w.now);
        var counted := FailureController.CountAll(w.cache, shortages, classes, w.now);
        CountingKeepsBlocks(w.cache, shortages, classes, w.now, i, c, z, until);
        BlockingKeepsBlocks(counted, FailureController.Unknowns(counted, w.machines, w.now), w.now, i, c, z, until);
      case _ =>
    }
  }

  lemma {:induction false} RunKeepsBlocks(zoneGroups: map<string, int>, clusterID: string, worlds: seq<World>,
                                          events: seq<Event>, start: nat, end: nat, i: string, c: string, z: string,
                                          until: nat)
    requires IsRun(zoneGroups, clusterID, worlds, events) && start <= end < |worlds|
    requires BlockedUntil(worlds[start].cache, i, c, z, until) && until <= worlds[start].now + BLOCK_TTL
    ensures BlockedUntil(worlds[end].cache, i, c, z, until) && worlds[start].now <= worlds[end].now
    decreases end
  {
    if start != end {
      RunKeepsBlocks(zoneGroups, clusterID, worlds, events, start, end - 1, i, c, z, until);
      StepKeepsBlocks(zoneGroups, clusterID, worlds[end - 1], worlds[end], events[end - 1], i, c, z, until);
    }
  }

  /* ---------- the loop closes ---------- */

  /** m is of the kind that is blocked on account of failed: its capacity type and zone, and its type unless failed
      ran into the user's spot quota, which concerns all types. */
  ghost predicate SameKind(failed: Machine, m: Machine) {
    && failed.spec.Some? && m.spec.Some? && CapacityTypeOf(failed) == CapacityTypeOf(m) && failed.zone == m.zone
    && (failed.spec.value.instanceType == m.spec.value.instanceType ||
        Contains(failed.failureMessage, "LimitExceeded.UserSpotQuota"))
  }

  /** The pass takes this readable machine for an unknown failure, and so blocks it. */
  ghost predicate Escalates(w: World, classes: set<string>, failed: Machine) {
    && failed.spec.Some?
    && var counted := FailureController.Counted(w.cache, w.machines, classes, w.now);
       failed in FailureController.Unknowns(counted, w.machines, w.now)
  }

  /** A pass takes this machine for an unknown failure, or the API server refuses to create it. */
  ghost predicate BlocksOn(w: World, e: Event, failed: Machine) {
    (e.Pass? && Escalates(w, e.classes, failed)) || (e.Launch? && e.outcome == Rejected(failed))
  }

  /** A launch that writes a machine of the blocked kind, whether or not the API server accepts it. */
  ghost predicate CreatesLike(failed: Machine, e: Event) {
    e.Launch? && (e.outcome.Launched? || e.outcome.Rejected?) && SameKind(failed, e.outcome.machine)
  }

  /** Within thirty minutes from the pass or the refusal that blocked a machine, a launch creates one of its kind. */
  ghost predicate Repeats(zoneGroups: map<string, int>, clusterID: string, worlds: seq<World>, events: seq<Event>,
                          i: nat, j: nat, failed: Machine)
  {
    && IsRun(zoneGroups, clusterID, worlds, events) && i < j < |events| && BlocksOn(worlds[i], events[i], failed)
    && CreatesLike(failed, events[j]) && worlds[j].now <= worlds[i].now + 30 * MINUTE
  }

  lemma PassBlocks(w: World, classes: set<string>, failed: Machine)
    requires Escalates(w, classes, failed)
    ensures BlockedUntil(FailureController.Passed(w.cache, w.machines, classes, w.now),
                         FailureController.BlockedType(failed), CapacityTypeOf(failed), failed.zone, w.now + BLOCK_TTL)
  {
    var counted := FailureController.Counted(w.cache, w.machines, classes, w.now);
    FailureController.BlockAllBlocks(counted, FailureController.Unknowns(counted, w.machines, w.now), w.now, failed);
  }

  /** A refused machine carries no failure message, and its own triple is blocked. */
  lemma RefusalBlocks(zoneGroups: map<string, int>, clusterID: string, w: World, w': World, r: Request, failed: Machine)
    requires LaunchStep(zoneGroups, clusterID, w, w', r, Rejected(failed))
    ensures failed.spec.Some? && failed.failureMessage == ""
    ensures BlockedUntil(w'.cache, failed.spec.value.instanceType, CapacityTypeOf(failed), failed.zone,
                         w.now + BLOCK_TTL)
  {
    var item, m := LaunchIsUnblocked(zoneGroups, clusterID, w, w', r, Rejected(failed));
  }

  lemma NothingIsNoQuota(m: Machine)
    requires m.failureMessage == ""
    ensures !Contains(m.failureMessage, "LimitExceeded.UserSpotQuota")
  {}

  /** What a pass or a refusal blocks, by the key it is stored under. */
  lemma BlockIsStored(zoneGroups: map<string, int>, clusterID: string, w: World, w': World, e: Event, failed: Machine)
    requires Step(zoneGroups, clusterID, w, w', e) && BlocksOn(w, e, failed)
    ensures failed.spec.Some? && w'.now == w.now
    ensures BlockedUntil(w'.cache, FailureController.BlockedType(failed), CapacityTypeOf(failed), failed.zone,
                         w.now + BLOCK_TTL)
  {
    if e.Pass? {
      PassBlocks(w, e.classes, failed);
    } else {
      RefusalBlocks(zoneGroups, clusterID, w, w', e.request, failed);
      NothingIsNoQuota(failed);
    }
  }

  lemma RepeatIsBlocked(zoneGroups: map<string, int>, clusterID: string, worlds: seq<World>, events: seq<Event>,
                        i: nat, j: nat, failed: Machine)
    requires Repeats(zoneGroups, clusterID, worlds, events, i, j, failed)
    ensures var m := events[j].outcome.machine;
            IsBlocked(worlds[j].cache, m.spec.value.instanceType, CapacityTypeOf(m), m.zone, worlds[j].now)
  {
    BlockIsStored(zoneGroups, clusterID, worlds[i], worlds[i + 1], events[i], failed);
    var pattern, until := FailureController.BlockedType(failed), worlds[i].now + BLOCK_TTL;
    RunKeepsBlocks(zoneGroups, clusterID, worlds, events, i + 1, j, pattern, CapacityTypeOf(failed), failed.zone,
                   until);
    FailureController.CoveredIsBlocked(worlds[j].cache, failed, events[j].outcome.machine.spec.value.instanceType,
                                       worlds[j].now);
  }

  /** Every such repetition goes back to a quota item on sale in a renamed zone. */
  lemma RepeatIsRenamed(zoneGroups: map<string, int>, clusterID: string, worlds: seq<World>, events: seq<Event>,
                        i: nat, j: nat, failed: Machine) returns (item: QuotaItem)
    requires ZoneCodec.ValidTable(zoneGroups) && Repeats(zoneGroups, clusterID, worlds, events, i, j, failed)
    ensures Quotes(events[j].request, item) && OnSale(item) && IsRenamed(zoneGroups, item.zone)
  {
    RepeatIsBlocked(zoneGroups, clusterID, worlds, events, i, j, failed);
    assert Step(zoneGroups, clusterID, worlds[j], worlds[j + 1], events[j]);
    item := BlockedLaunchIsRenamed(zoneGroups, clusterID, worlds[j], worlds[j + 1], events[j].request,
                                   events[j].outcome);
  }

  /** Once a pass or a refusal has blocked a machine, no launch in the run creates one of its kind until more than
      thirty minutes have passed. */
  lemma FeedbackLoopCloses(zoneGroups: map<string, int>, clusterID: string, worlds: seq<World>, events: seq<Event>,
                           i: nat, j: nat, failed: Machine)
    requires ZoneCodec.ValidTable(zoneGroups) && IsRun(zoneGroups, clusterID, worlds, events)
    requires NothingRenamed(zoneGroups, events)
    requires i < j < |events| && BlocksOn(worlds[i], events[i], failed) && CreatesLike(failed, events[j])
    ensures worlds[j].now > worlds[i].now + 30 * MINUTE
  {
    if worlds[j].now <= worlds[i].now + 30 * MINUTE {
      var item := RepeatIsRenamed(zoneGroups, clusterID, worlds, events, i, j, failed);
      assert false;
    }
  }

  /** Together with the escalation rule: a machine that is in the cluster when a pass runs, failed and readable, and
      not a shortage within its limits when the pass ends, is not repeated for half an hour. */
  lemma FailureIsNotRepeated(zoneGroups: map<string, int>, clusterID: string, worlds: seq<World>, events: seq<Event>,
                             i: nat, j: nat, failed: Machine)
    requires ZoneCodec.ValidTable(zoneGroups) && IsRun(zoneGroups, clusterID, worlds, events)
    requires NothingRenamed(zoneGroups, events)
    requires i < j < |events| && events[i].Pass? && failed in worlds[i].machines
    requires failed.spec.Some? && failed.failureMessage != "" && FailureController.Eligible(failed, worlds[i].now)
    requires !FailureController.IsShortageMessage(failed) ||
             FailureController.CountersExceeded(worlds[i + 1].cache, failed, worlds[i].now)
    requires CreatesLike(failed, events[j])
    ensures worlds[j].now > worlds[i].now + 30 * MINUTE
  {
    var w, e := worlds[i], events[i];
    assert Step(zoneGroups, clusterID, w, worlds[i + 1], e);
    FailureController.PassKeepsReadings(w.cache, w.machines, e.classes, w.now, failed);
    FeedbackLoopCloses(zoneGroups, clusterID, worlds, events, i, j, failed);
  }

  /** In particular, after a failure on the user's spot quota no launch of any type takes its capacity type and zone
      for half an hour. */
  lemma UserQuotaStopsAllTypes(zoneGroups: map<string, int>, clusterID: string, worlds: seq<World>, events: seq<Event>,
                               i: nat, j: nat, failed: Machine)
    requires ZoneCodec.ValidTable(zoneGroups) && IsRun(zoneGroups, clusterID, worlds, events)
    requires NothingRenamed(zoneGroups, events)
    requires i < j < |events| && events[i].Pass? && Escalates(worlds[i], events[i].classes, failed)
    requires Contains(failed.failureMessage, "LimitExceeded.UserSpotQuota")
    requires events[j].Launch? && events[j].outcome.Launched?
    requires var m := events[j].outcome.machine; CapacityTypeOf(m) == CapacityTypeOf(failed) && m.zone == failed.zone
    ensures worlds[j].now > worlds[i].now + 30 * MINUTE
  {
    assert Step(zoneGroups, clusterID, worlds[j], worlds[j + 1], events[j]);
    var item, m := LaunchIsUnblocked(zoneGroups, clusterID, worlds[j], worlds[j + 1], events[j].request,
                                     events[j].outcome);
    FeedbackLoopCloses(zoneGroups, clusterID, worlds, events, i, j, failed);
  }

  /* ---------- the operations take these steps ---------- */

  /** Creating through the cloud provider is a launch step, given that both of its parts share one region table. */
  method LaunchOnce(provider: CloudProvider.Provider, nodeClass: NodeClass, nodeClaim: NodeClaim, s: Settings,
                    odTypes: seq<QuotaItem>, spotTypes: seq<QuotaItem>, fits: InstanceType -> bool, minValuesMet: bool,
                    name: string, apiOk: bool, w: World) returns (outcome: Outcome, ghost w': World)
    requires provider.instancetypeProvider.Valid() && w.cache == provider.instancetypeProvider.blacklist
    requires provider.machineProvider.zoneProvider.zoneGroups == provider.instancetypeProvider.zoneProvider.zoneGroups
    requires ZoneCodec.Disjoint(provider.machineProvider.zoneProvider.zoneGroups)
    modifies provider.instancetypeProvider`blacklist
    ensures provider.instancetypeProvider.Valid() && w'.cache == provider.instancetypeProvider.blacklist
    ensures Step(provider.machineProvider.zoneProvider.zoneGroups, provider.machineProvider.clusterID, w, w',
                 Launch(Request(nodeClass, nodeClaim, Sizing(s), odTypes, spotTypes, fits, minValuesMet, apiOk),
                        outcome))
  {
    ghost var types;
    outcome, types := provider.Create(nodeClass, nodeClaim, s, odTypes, spotTypes, fits, minValuesMet, name, w.now,
                                      apiOk);
    SizingKeepsIdentity(s);
    w' := After(w, outcome);
    ToLaunchStep(provider.machineProvider.zoneProvider.zoneGroups, provider.machineProvider.clusterID, w,
                 Request(nodeClass, nodeClaim, Sizing(s), odTypes, spotTypes, fits, minValuesMet, apiOk), outcome,
                 types);
  }

  /** Reconciling the failures is a pass step. */
  method PassOnce(controller: FailureController.Controller, classes: set<string>, listOk: seq<bool>, deletionsOk: bool,
                  w: World) returns (ghost w': World)
    requires controller.provider.Valid() && w.cache == controller.provider.blacklist
    requires |listOk| == |FailureController.Shortages(w.cache, w.machines, w.now)|
    modifies controller.provider`blacklist, controller`successfulCount
    ensures controller.provider.Valid() && w'.cache == controller.provider.blacklist
    ensures forall zoneGroups, clusterID :: Step(zoneGroups, clusterID, w, w', Pass(classes))
  {
    var _, _ := controller.Reconcile(w.machines, classes, listOk, deletionsOk, w.now);
    w' := w.(cache := controller.provider.blacklist);
  }

  /* ---------- the loop's cache is a run of the failure history ---------- */

  function CacheEventOf(w: World, e: Event): seq<FailureController.CacheEvent> {
    match e
    case Pass(classes) => [FailureController.PassEvent(w.machines, classes, w.now)]
    case Launch(_, Rejected(m)) =>
      var instanceType := if m.spec.Some? then m.spec.value.instanceType else "";
      [FailureController.BlockEvent(instanceType, CapacityTypeOf(m), m.zone, w.now)]
    case _ => []
  }

  function CacheEvents(worlds: seq<World>, events: seq<Event>, n: nat): seq<FailureController.CacheEvent>
    requires n <= |events| && n <= |worlds|
  {
    if n == 0 then [] else CacheEvents(worlds, events, n - 1) + CacheEventOf(worlds[n - 1], events[n - 1])
  }

  lemma StepExtendsRun(zoneGroups: map<string, int>, clusterID: string, w: World, w': World, e: Event,
                       before: seq<FailureController.CacheEvent>)
    requires Step(zoneGroups, clusterID, w, w', e) && w.cache == FailureController.Run(before)
    ensures w'.cache == FailureController.Run(before + CacheEventOf(w, e))
  {
    var last := CacheEventOf(w, e);
    if last == [] {
      assert before + last == before;
    } else {
      assert (before + last)[..|before|] == before && (before + last)[|before|] == last[0];
    }
  }

  ghost predicate CacheIsRun(worlds: seq<World>, events: seq<Event>, n: nat)
    requires n <= |events| && n < |worlds|
  {
    worlds[n].cache == FailureController.Run(CacheEvents(worlds, events, n))
  }

  lemma NextCacheIsRun(zoneGroups: map<string, int>, clusterID: string, worlds: seq<World>, events: seq<Event>, k: nat)
    requires k < |events| && k + 1 < |worlds| && CacheIsRun(worlds, events, k)
    requires Step(zoneGroups, clusterID, worlds[k], worlds[k + 1], events[k])
    ensures CacheIsRun(worlds, events, k + 1)
  {
    StepExtendsRun(zoneGroups, clusterID, worlds[k], worlds[k + 1], events[k], CacheEvents(worlds, events, k));
  }

  /** From an empty cache on, the cache of every world is that of the passes and refusals so far, so all laws of such
      runs hold of it. */
  lemma LoopCacheIsRun(zoneGroups: map<string, int>, clusterID: string, worlds: seq<World>, events: seq<Event>, n: nat)
    requires IsRun(zoneGroups, clusterID, worlds, events) && worlds[0].cache == map[] && n <= |events|
    ensures CacheIsRun(worlds, events, n)
  {
    for k := 0 to n
      invariant CacheIsRun(worlds, events, k)
    {
      NextCacheIsRun(zoneGroups, clusterID, worlds, events, k);
    }
  }
}
