/** The failure controller's pass (pkg/controllers/nodeclaim/failure/controller.go): failed machines are
    classified, shortages are counted, and whatever is not, or no longer, a tolerable shortage is blocked.
    One clock reading serves a whole pass. */
module FailureController {
  import opened Text
  import opened Objects
  import opened Blacklist
  import InstanceTypes

  const SECOND: nat := 1_000_000_000
  const INVALID_CONFIGURATION := "InvalidConfiguration"
  const SPOT_LIMIT: nat := 50
  const TYPE_LIMIT: nat := 3

  /* ---------- classification ---------- */

  predicate IsShortageMessage(m: Machine) {
    && m.failureReason == INVALID_CONFIGURATION
    && (|| Contains(m.failureMessage, "Insufficient resources of")
        || Contains(m.failureMessage, "InvalidParameterValue.InsufficientOffering")
        || Contains(m.failureMessage, "ResourceInsufficient.SpecifiedInstanceType")
        || Contains(m.failureMessage, "LimitExceeded.SpotQuota"))
  }

  predicate IsSaid(text: string) {
    text in ["Insufficient resources of", "InvalidParameterValue.InsufficientOffering",
             "ResourceInsufficient.SpecifiedInstanceType", "LimitExceeded.SpotQuota"]
  }

  /** A shortage is an invalid configuration whose message says one of four things, anywhere. */
  lemma ShortageMessageIff(m: Machine)
    ensures IsShortageMessage(m) <==>
            m.failureReason == "InvalidConfiguration" && exists text :: IsSaid(text) && Contains(m.failureMessage, text)
  {
    assert IsSaid("Insufficient resources of") && IsSaid("InvalidParameterValue.InsufficientOffering");
    assert IsSaid("ResourceInsufficient.SpecifiedInstanceType") && IsSaid("LimitExceeded.SpotQuota");
  }

  predicate CountersExceeded(cache: Cache, m: Machine, now: nat)
    requires m.spec.Some?
  {
    var capacityType := CapacityTypeOf(m);
    || (capacityType == SPOT && FailureCount(cache, "*", capacityType, m.zone, now) > SPOT_LIMIT)
    || FailureCount(cache, m.spec.value.instanceType, capacityType, m.zone, now) > TYPE_LIMIT
  }

  /** A shortage that is still tolerated: isFailureWithInsufficientResources. */
  predicate IsTolerated(cache: Cache, m: Machine, now: nat) {
    IsShortageMessage(m) && m.spec.Some? && !CountersExceeded(cache, m, now)
  }

  predicate Eligible(m: Machine, now: nat) {
    m.providerID == "" && OwnedByNodeClaim(m) && now > m.created + 30 * SECOND
  }

  predicate CountsAsShortage(cache: Cache, m: Machine, now: nat) {
    Eligible(m, now) && IsTolerated(cache, m, now)
  }

  predicate CountsAsUnknown(cache: Cache, m: Machine, now: nat) {
    Eligible(m, now) && m.failureMessage != "" && !IsTolerated(cache, m, now)
  }

  function Shortages(cache: Cache, items: seq<Machine>, now: nat): seq<Machine> {
    Filter(m => CountsAsShortage(cache, m, now), items)
  }

  function Unknowns(cache: Cache, items: seq<Machine>, now: nat): seq<Machine> {
    Filter(m => CountsAsUnknown(cache, m, now), items)
  }

  /* ---------- counting and blocking ---------- */

  /** Machines without a node class on record, or without a readable spec, are passed over. */
  predicate IsCounted(m: Machine, classes: set<string>) {
    var nodeClass := Lookup(m.labels, LABEL_NODE_CLASS);
    nodeClass != "" && nodeClass in classes && m.spec.Some?
  }

  function CountOne(cache: Cache, m: Machine, classes: set<string>, now: nat): Cache {
    if !IsCounted(m, classes) then cache
    else
      var capacityType := CapacityTypeOf(m);
      var counted := AddFailure(cache, m.spec.value.instanceType, capacityType, m.zone, now);
      if capacityType == SPOT then AddFailure(counted, "*", capacityType, m.zone, now) else counted
  }

  function CountAll(cache: Cache, ms: seq<Machine>, classes: set<string>, now: nat): Cache {
    if ms == [] then cache else CountOne(CountAll(cache, ms[..|ms| - 1], classes, now), ms[|ms| - 1], classes, now)
  }

  /** A user-wide spot quota blocks every instance type. */
  function BlockedType(m: Machine): string
    requires m.spec.Some?
  {
    if Contains(m.failureMessage, "LimitExceeded.UserSpotQuota") then "*" else m.spec.value.instanceType
  }

  function BlockOne(cache: Cache, m: Machine, now: nat): Cache {
    if m.spec.None? then cache else Block(cache, BlockedType(m), CapacityTypeOf(m), m.zone, now)
  }

  function BlockAll(cache: Cache, ms: seq<Machine>, now: nat): Cache {
    if ms == [] then cache else BlockOne(BlockAll(cache, ms[..|ms| - 1], now), ms[|ms| - 1], now)
  }

  /** The cache after the counting half of a pass, and after the whole pass. */
  function Counted(cache: Cache, items: seq<Machine>, classes: set<string>, now: nat): Cache {
    CountAll(cache, Shortages(cache, items, now), classes, now)
  }

  function Passed(cache: Cache, items: seq<Machine>, classes: set<string>, now: nat): Cache {
    var counted := Counted(cache, items, classes, now);
    BlockAll(counted, Unknowns(counted, items, now), now)
  }

  /* ---------- the controller ---------- */

  /** Where List is called to refresh: at every counted machine up to the first that succeeds. */
  ghost predicate RefreshPoint(ms: seq<Machine>, classes: set<string>, listOk: seq<bool>, k: nat) {
    k < |ms| == |listOk| && IsCounted(ms[k], classes) && forall l | 0 <= l < k && IsCounted(ms[l], classes) ::
      !listOk[l]
  }

  class Controller {
    const provider: InstanceTypes.Provider
    var successfulCount: nat

    constructor (provider: InstanceTypes.Provider)
      ensures this.provider == provider && successfulCount == 0
    {
      this.provider := provider;
      successfulCount := 0;
    }

    method IsFailureWithInsufficientResources(m: Machine, now: nat) returns (r: bool)
      requires provider.Valid()
      ensures r == IsTolerated(provider.blacklist, m, now)
    {
      if !IsShortageMessage(m) || m.spec.None? {
        return false;
      }
      var insType, capacityType := m.spec.value.instanceType, CapacityTypeOf(m);
      if capacityType == SPOT {
        var inZone := provider.GetInsufficientFailureCount("*", capacityType, m.zone, now);
        if inZone > 50 {
          return false;
        }
      }
      var ofType := provider.GetInsufficientFailureCount(insType, capacityType, m.zone, now);
      if ofType > 3 {
        return false;
      }
      return true;
    }

    /** Raises the counters, and asks for a fresh list of instance types until one attempt succeeds. */
    method RefreshInstanceTypes(ms: seq<Machine>, classes: set<string>, listOk: seq<bool>, now: nat)
      returns (refreshes: set<nat>)
      requires provider.Valid() && |listOk| == |ms|
      modifies provider`blacklist
      ensures provider.Valid() && provider.blacklist == CountAll(old(provider.blacklist), ms, classes, now)
      ensures forall k: nat :: k in refreshes <==> RefreshPoint(ms, classes, listOk, k)
    {
      var isRefreshed := false;
      refreshes := {};
      for k := 0 to |ms|
        invariant provider.Valid() && provider.blacklist == CountAll(old(provider.blacklist), ms[..k], classes, now)
        invariant isRefreshed <==> exists l | 0 <= l < k :: IsCounted(ms[l], classes) && listOk[l]
        invariant forall l: nat :: l in refreshes <==> l < k && RefreshPoint(ms, classes, listOk, l)
      {
        var m := ms[k];
        assert ms[..k + 1][..k] == ms[..k];
        var nodeClass := Lookup(m.labels, LABEL_NODE_CLASS);
        if nodeClass == "" || nodeClass !in classes || m.spec.None? {
          continue;
        }
        var insType, capacityType := m.spec.value.instanceType, CapacityTypeOf(m);
        provider.AddInsufficientFailure(insType, capacityType, m.zone, now);
        if capacityType == SPOT {
          provider.AddInsufficientFailure("*", capacityType, m.zone, now);
        }
        if !isRefreshed {
          refreshes := refreshes + {k};
          isRefreshed := listOk[k];
        }
      }
      assert ms[..|ms|] == ms;
    }

    method BlockInstanceTypes(ms: seq<Machine>, now: nat)
      requires provider.Valid()
      modifies provider`blacklist
      ensures provider.Valid() && provider.blacklist == BlockAll(old(provider.blacklist), ms, now)
    {
      for k := 0 to |ms|
        invariant provider.Valid() && provider.blacklist == BlockAll(old(provider.blacklist), ms[..k], now)
      {
        var m := ms[k];
        assert ms[..k + 1][..k] == ms[..k];
        if m.spec.None? {
          continue;
        }
        var insType := m.spec.value.instanceType;
        if Contains(m.failureMessage, "LimitExceeded.UserSpotQuota") {
          insType := "*";
        }
        provider.BlockInstanceType(insType, CapacityTypeOf(m), m.zone, now);
      }
      assert ms[..|ms|] == ms;
    }

    /** lo.Filter with the first condition of Reconcile. */
    method SelectShortages(items: seq<Machine>, now: nat) returns (ms: seq<Machine>)
      requires provider.Valid()
      ensures ms == Shortages(provider.blacklist, items, now)
    {
      ms := [];
      for k := 0 to |items|
        invariant ms == Shortages(provider.blacklist, items[..k], now)
      {
        assert items[..k + 1][..k] == items[..k];
        var tolerated := IsFailureWithInsufficientResources(items[k], now);
        var aged := now > items[k].created + 30 * SECOND;
        if items[k].providerID == "" && OwnedByNodeClaim(items[k]) && aged && tolerated {
          ms := ms + [items[k]];
        }
      }
      assert items[..|items|] == items;
    }

    /** lo.Filter with the second condition of Reconcile. */
    method SelectUnknowns(items: seq<Machine>, now: nat) returns (ms: seq<Machine>)
      requires provider.Valid()
      ensures ms == Unknowns(provider.blacklist, items, now)
    {
      ms := [];
      for k := 0 to |items|
        invariant ms == Unknowns(provider.blacklist, items[..k], now)
      {
        assert items[..k + 1][..k] == items[..k];
        var tolerated := IsFailureWithInsufficientResources(items[k], now);
        if items[k].providerID == "" && OwnedByNodeClaim(items[k]) && now > items[k].created + 30 * SECOND
           && items[k].failureMessage != "" && !tolerated
        {
          ms := ms + [items[k]];
        }
      }
      assert items[..|items|] == items;
    }

    /** One pass; the failure list holds the shortages, then the unknown failures.
        The deletions that follow either all succeed or end the pass with an error. */
    method Reconcile(items: seq<Machine>, classes: set<string>, listOk: seq<bool>, deletionsOk: bool, now: nat)
      returns (failures: seq<Machine>, requeueAfter: Option<nat>)
      requires provider.Valid() && |listOk| == |Shortages(provider.blacklist, items, now)|
      modifies provider`blacklist, this`successfulCount
      ensures provider.Valid() && provider.blacklist == Passed(old(provider.blacklist), items, classes, now)
      ensures failures == Shortages(old(provider.blacklist), items, now) +
                          Unknowns(Counted(old(provider.blacklist), items, classes, now), items, now)
      ensures if deletionsOk then
                successfulCount == old(successfulCount) + 1 &&
                requeueAfter == Some(if old(successfulCount) < 20 then 10 * SECOND else MINUTE)
              else
                successfulCount == old(successfulCount) && requeueAfter == None
    {
      var shortages := SelectShortages(items, now);
      var _ := RefreshInstanceTypes(shortages, classes, listOk, now);
      var unknowns := SelectUnknowns(items, now);
      BlockInstanceTypes(unknowns, now);
      failures := shortages + unknowns;
      if !deletionsOk {
        return failures, None;
      }
      successfulCount := successfulCount + 1;
      requeueAfter := Some(if successfulCount <= 20 then 10 * SECOND else MINUTE);
    }
  }

  /* ---------- counting conserves ---------- */

  /** How often one machine raises the counter under a key. */
  function Raises(m: Machine, classes: set<string>, key: string): nat {
    if !IsCounted(m, classes) then 0
    else
      (if FailureKey(m.spec.value.instanceType, CapacityTypeOf(m), m.zone) == key then 1 else 0) +
      (if CapacityTypeOf(m) == SPOT && FailureKey("*", SPOT, m.zone) == key then 1 else 0)
  }

  function RaisesOf(ms: seq<Machine>, classes: set<string>, key: string): nat {
    if ms == [] then 0 else RaisesOf(ms[..|ms| - 1], classes, key) + Raises(ms[|ms| - 1], classes, key)
  }

  /** A counted machine raises the counter of its own triple and, when it is a spot one, that of its zone; machines
      whose class is gone, or that cannot be read, raise none, and nobody raises any other counter. */
  lemma RaisesIs(m: Machine, classes: set<string>, i: string, c: string, z: string)
    requires KnownCapacity(c) && Separate("*", i)
    requires m.spec.Some? ==> KnownCapacity(CapacityTypeOf(m)) && Separate(m.spec.value.instanceType, i)
    ensures var nodeClass, capacityType := Lookup(m.labels, "karpenter.k8s.tke/tkemachinenodeclass"), CapacityTypeOf(m);
            Raises(m, classes, FailureKey(i, c, z)) ==
            if nodeClass == "" || nodeClass !in classes || m.spec.None? || c != capacityType || z != m.zone then 0
            else (if i == m.spec.value.instanceType then 1 else 0) + (if i == "*" && c == "spot" then 1 else 0)
  {
    assert LABEL_NODE_CLASS == "karpenter.k8s.tke/tkemachinenodeclass";
    if m.spec.Some? {
      FailureKeyIsInjective(m.spec.value.instanceType, CapacityTypeOf(m), m.zone, i, c, z);
      FailureKeyIsInjective("*", SPOT, m.zone, i, c, z);
    }
  }

  function CountUnder(cache: Cache, key: string, now: nat): nat {
    if Live(cache, key, now) && cache[key].Count? then cache[key].count else 0
  }

  /** Counting raises every counter by exactly the number of times its key is hit, and touches nothing else. */
  lemma {:induction false} CountingConserves(cache: Cache, ms: seq<Machine>, classes: set<string>, now: nat,
                                             key: string)
    ensures var after := CountAll(cache, ms, classes, now);
            && CountUnder(after, key, now) == CountUnder(cache, key, now) + RaisesOf(ms, classes, key)
            && (RaisesOf(ms, classes, key) == 0 ==>
                (key in after <==> key in cache) && (key in cache ==> after[key] == cache[key]))
            && (RaisesOf(ms, classes, key) > 0 ==>
                  key in after && after[key] == Count(CountUnder(after, key, now), now + HOUR))
    decreases |ms|
  {
    if ms != [] {
      CountingConserves(cache, ms[..|ms| - 1], classes, now, key);
    }
  }

  /** Blocking leaves every counter alone. */
  lemma {:induction false} BlockingKeepsCounters(cache: Cache, ms: seq<Machine>, now: nat, i: string, c: string,
                                                 z: string)
    ensures var key, after := FailureKey(i, c, z), BlockAll(cache, ms, now);
            (key in after <==> key in cache) && (key in cache ==> after[key] == cache[key])
    decreases |ms|
  {
    if ms != [] {
      BlockingKeepsCounters(cache, ms[..|ms| - 1], now, i, c, z);
      var m := ms[|ms| - 1];
      if m.spec.Some? {
        KeysDiffer(BlockedType(m), CapacityTypeOf(m), m.zone, i, c, z);
      }
    }
  }

  /* ---------- the two filters ---------- */

  lemma CountingOnlyRaises(cache: Cache, ms: seq<Machine>, classes: set<string>, m: Machine, now: nat)
    requires m.spec.Some?
    ensures CountersExceeded(cache, m, now) ==> CountersExceeded(CountAll(cache, ms, classes, now), m, now)
  {
    CountingConserves(cache, ms, classes, now, FailureKey("*", CapacityTypeOf(m), m.zone));
    CountingConserves(cache, ms, classes, now, FailureKey(m.spec.value.instanceType, CapacityTypeOf(m), m.zone));
  }

  /** Every eligible machine with a failure message is in the failure list; it is in both of its halves exactly
      when it was tolerated at first and a counter of its own crossed its limit within the pass. */
  lemma FiltersMissNothing(cache: Cache, items: seq<Machine>, classes: set<string>, now: nat, m: Machine)
    requires m in items && Eligible(m, now) && m.failureMessage != ""
    ensures var counted := Counted(cache, items, classes, now);
            var first, second := m in Shortages(cache, items, now), m in Unknowns(counted, items, now);
            && (first || second)
            && (first && second <==> IsTolerated(cache, m, now) && CountersExceeded(counted, m, now))
  {
    if m.spec.Some? {
      CountingOnlyRaises(cache, Shortages(cache, items, now), classes, m, now);
    }
  }

  /** What a pass lists as failures, and so deletes: exactly the machines with a failure message that have no ID, are
      owned by a claim and are older than 30 s, whatever the counters read. */
  lemma FailureListIff(cache: Cache, items: seq<Machine>, classes: set<string>, now: nat, m: Machine)
    ensures m in Shortages(cache, items, now) + Unknowns(Counted(cache, items, classes, now), items, now) <==>
            && m in items && m.providerID == "" && m.failureMessage != ""
            && (exists k | 0 <= k < |m.owners| :: m.owners[k].kind == "NodeClaim")
            && now > m.created + 30_000_000_000
  {
    if m in items && Eligible(m, now) && m.failureMessage != "" {
      FiltersMissNothing(cache, items, classes, now, m);
    }
  }

  lemma FiltersOfOne(cache: Cache, m: Machine, now: nat)
    ensures Shortages(cache, [m], now) == if CountsAsShortage(cache, m, now) then [m] else []
    ensures Unknowns(cache, [m], now) == if CountsAsUnknown(cache, m, now) then [m] else []
  {
    FilterOfOne(m => CountsAsShortage(cache, m, now), m);
    FilterOfOne(m => CountsAsUnknown(cache, m, now), m);
  }

  /* ---------- two clock readings ---------- */

  /** What a counter reads at a second reading, when the pass has selected and counted at a first one: a counter the
      pass raised is renewed for an hour, any other only runs on. */
  function CountLater(cache: Cache, items: seq<Machine>, classes: set<string>, first: nat, second: nat,
                      key: string): nat
  {
    var raises := RaisesOf(Shortages(cache, items, first), classes, key);
    if raises == 0 then CountUnder(cache, key, second)
    else if second <= first + HOUR then CountUnder(cache, key, first) + raises
    else 0
  }

  lemma ReadsCountLater(cache: Cache, items: seq<Machine>, classes: set<string>, first: nat, second: nat, key: string)
    ensures CountUnder(Counted(cache, items, classes, first), key, second) ==
            CountLater(cache, items, classes, first, second, key)
  {
    CountingConserves(cache, Shortages(cache, items, first), classes, first, key);
  }

  predicate OverLater(cache: Cache, items: seq<Machine>, classes: set<string>, first: nat, second: nat, m: Machine)
    requires m.spec.Some?
  {
    var capacityType := CapacityTypeOf(m);
    || (capacityType == SPOT &&
        CountLater(cache, items, classes, first, second, FailureKey("*", capacityType, m.zone)) > SPOT_LIMIT)
    || CountLater(cache, items, classes, first, second,
                  FailureKey(m.spec.value.instanceType, capacityType, m.zone)) > TYPE_LIMIT
  }

  predicate Missed(cache: Cache, items: seq<Machine>, classes: set<string>, first: nat, second: nat, m: Machine) {
    m !in Shortages(cache, items, first) && m !in Unknowns(Counted(cache, items, classes, first), items, second)
  }

  /** With two clock readings, the filters miss an eligible failed machine exactly when it is a readable shortage with
      a counter over its limit at the first reading and none at the second. */
  lemma TwoReadingsMissIff(cache: Cache, items: seq<Machine>, classes: set<string>, first: nat, second: nat, m: Machine)
    requires m in items && Eligible(m, first) && m.failureMessage != "" && first <= second
    ensures Missed(cache, items, classes, first, second, m) <==>
            IsShortageMessage(m) && m.spec.Some? && CountersExceeded(cache, m, first) &&
            !OverLater(cache, items, classes, first, second, m)
  {
    if m.spec.Some? {
      ReadsCountLater(cache, items, classes, first, second, FailureKey("*", CapacityTypeOf(m), m.zone));
      ReadsCountLater(cache, items, classes, first, second,
                      FailureKey(m.spec.value.instanceType, CapacityTypeOf(m), m.zone));
    }
  }

  /** When a counter is within its limit at the second reading of a pass that takes at most an hour: one that was over
      must be left alone by the pass and expire in between; any other must not be raised over. */
  lemma CountLaterFallsIff(cache: Cache, items: seq<Machine>, classes: set<string>, first: nat, second: nat,
                           key: string, limit: nat)
    requires first <= second <= first + HOUR
    ensures var raises, before := RaisesOf(Shortages(cache, items, first), classes, key), CountUnder(cache, key, first);
            CountLater(cache, items, classes, first, second, key) <= limit <==>
            if before > limit then raises == 0 && cache[key].expires < second else before + raises <= limit
  {}

  /** A readable on-demand shortage of type S5 that is owned by a claim and was created at time 0. */
  const SAMPLE := Machine("np-1", map[LABEL_CAPACITY_TYPE := ON_DEMAND], map[],
                          [OwnerReference(NODE_CLAIM_KIND, "claim")], 0, "",
                          "", "ap-guangzhou-3", "", "", Some(ProviderSpec("S5", "", [], [], [])), INVALID_CONFIGURATION,
                          "Insufficient resources of")

  lemma SampleIsShortage(now: nat)
    requires now > 30 * SECOND
    ensures Eligible(SAMPLE, now) && IsShortageMessage(SAMPLE) && SAMPLE.failureMessage != ""
    ensures CapacityTypeOf(SAMPLE) == ON_DEMAND && ON_DEMAND != SPOT
  {
    var message := SAMPLE.failureMessage;
    assert message[0..] == message;
    assert SAMPLE.owners[0].kind == NODE_CLAIM_KIND;
    assert |ON_DEMAND| != |SPOT|;
  }

  /** It happens: the counter at 4 expires a nanosecond after the first reading, and the machine is in neither half. */
  lemma SlowPassMissesAMachine(t: nat, classes: set<string>)
    requires t > 30 * SECOND
    ensures Missed(map[FailureKey("S5", ON_DEMAND, "ap-guangzhou-3") := Count(4, t)], [SAMPLE], classes, t, t + 1,
                   SAMPLE)
  {
    var key := FailureKey("S5", ON_DEMAND, "ap-guangzhou-3");
    var cache: Cache := map[key := Count(4, t)];
    SampleIsShortage(t);
    assert CountersExceeded(cache, SAMPLE, t);
    assert SAMPLE !in Shortages(cache, [SAMPLE], t);
    assert forall x | x in Shortages(cache, [SAMPLE], t) :: x == SAMPLE;
    assert Shortages(cache, [SAMPLE], t) == [];
    TwoReadingsMissIff(cache, [SAMPLE], classes, t, t + 1, SAMPLE);
  }

  /* ---------- escalation ---------- */

  /** Whoever is blocked in a pass is blocked for the next half hour. */
  lemma {:induction false} BlockAllBlocks(cache: Cache, ms: seq<Machine>, now: nat, m: Machine)
    requires m in ms && m.spec.Some?
    ensures var key, after := BlockedKey(BlockedType(m), CapacityTypeOf(m), m.zone), BlockAll(cache, ms, now);
            key in after && after[key] == Flag(now + BLOCK_TTL)
    decreases |ms|
  {
    var last := ms[|ms| - 1];
    if m in ms[..|ms| - 1] {
      BlockAllBlocks(cache, ms[..|ms| - 1], now, m);
    } else {
      assert m == last;
    }
  }

  /** A block of m covers its own type, and every type when m ran into the user's spot quota. */
  predicate Covers(m: Machine, instanceType: string)
    requires m.spec.Some?
  {
    instanceType == m.spec.value.instanceType || Contains(m.failureMessage, "LimitExceeded.UserSpotQuota")
  }

  lemma CoveredIsBlocked(cache: Cache, m: Machine, instanceType: string, now: nat)
    requires m.spec.Some? && Covers(m, instanceType)
    requires Live(cache, BlockedKey(BlockedType(m), CapacityTypeOf(m), m.zone), now)
    ensures IsBlocked(cache, instanceType, CapacityTypeOf(m), m.zone, now)
  {}

  /** A readable unknown failure of a pass leaves what it covers blocked for half an hour. */
  lemma UnknownsAreBlocked(cache: Cache, items: seq<Machine>, classes: set<string>, now: nat, m: Machine,
                           instanceType: string, later: nat)
    requires m in items && CountsAsUnknown(Counted(cache, items, classes, now), m, now) && m.spec.Some?
    requires Covers(m, instanceType) && later <= now + 30 * MINUTE
    ensures IsBlocked(Passed(cache, items, classes, now), instanceType, CapacityTypeOf(m), m.zone, later)
  {
    var counted := Counted(cache, items, classes, now);
    BlockAllBlocks(counted, Unknowns(counted, items, now), now, m);
    CoveredIsBlocked(Passed(cache, items, classes, now), m, instanceType, later);
  }

  lemma PassKeepsReadings(cache: Cache, items: seq<Machine>, classes: set<string>, now: nat, m: Machine)
    requires m.spec.Some?
    ensures CountersExceeded(Passed(cache, items, classes, now), m, now) ==
            CountersExceeded(Counted(cache, items, classes, now), m, now)
  {
    var counted := Counted(cache, items, classes, now);
    var unknowns := Unknowns(counted, items, now);
    BlockingKeepsCounters(counted, unknowns, now, "*", CapacityTypeOf(m), m.zone);
    BlockingKeepsCounters(counted, unknowns, now, m.spec.value.instanceType, CapacityTypeOf(m), m.zone);
  }

  /** When a pass ends, every eligible machine with a failure message and a readable spec that is not a shortage
      within its limits has its type, capacity type and zone blocked, until half an hour after the pass. */
  lemma EscalationIsComplete(cache: Cache, items: seq<Machine>, classes: set<string>, now: nat, m: Machine, later: nat)
    requires m in items && Eligible(m, now) && m.failureMessage != "" && m.spec.Some?
    requires !IsShortageMessage(m) || CountersExceeded(Passed(cache, items, classes, now), m, now)
    requires later <= now + 30 * MINUTE
    ensures IsBlocked(Passed(cache, items, classes, now), m.spec.value.instanceType, CapacityTypeOf(m), m.zone, later)
  {
    PassKeepsReadings(cache, items, classes, now, m);
    UnknownsAreBlocked(cache, items, classes, now, m, m.spec.value.instanceType, later);
  }

  /** A machine without an ID, owned by a claim and older than 30 s, that ran into the user's spot quota and is not
      tolerated when the pass ends, has every instance type blocked at its capacity type and zone for half an hour. */
  lemma UserQuotaBlocksAllTypes(cache: Cache, items: seq<Machine>, classes: set<string>, now: nat, m: Machine,
                                instanceType: string, later: nat)
    requires m in items && m.providerID == "" && now > m.created + 30 * SECOND && m.spec.Some?
    requires exists k | 0 <= k < |m.owners| :: m.owners[k].kind == "NodeClaim"
    requires Contains(m.failureMessage, "LimitExceeded.UserSpotQuota")
    requires !IsTolerated(Passed(cache, items, classes, now), m, now) && later <= now + 30 * MINUTE
    ensures IsBlocked(Passed(cache, items, classes, now), instanceType, CapacityTypeOf(m), m.zone, later)
  {
    PassKeepsReadings(cache, items, classes, now, m);
    UnknownsAreBlocked(cache, items, classes, now, m, instanceType, later);
  }

  /* ---------- a pass blocks nothing else ---------- */

  /** The names, capacity types and zones a pass's unknown failures have blocked. */
  ghost predicate CoveredBy(unknowns: seq<Machine>, i: string, c: string, z: string) {
    exists m | m in unknowns && m.spec.Some? ::
      Covers(m, i) && CapacityTypeOf(m) in {c, "*"} && m.zone in {z, "*"}
  }

  /** Machines whose names can be told from this one and from "*". */
  ghost predicate NamesApart(ms: seq<Machine>, i: string) {
    forall m | m in ms && m.spec.Some? ::
      KnownCapacity(CapacityTypeOf(m)) && Separate(m.spec.value.instanceType, i) &&
      Separate(m.spec.value.instanceType, "*") && m.spec.value.instanceType != "*"
  }

  lemma {:induction false} CountingKeepsBlockedKeys(cache: Cache, ms: seq<Machine>, classes: set<string>, now: nat,
                                                    i: string, c: string, z: string)
    ensures var key, after := BlockedKey(i, c, z), CountAll(cache, ms, classes, now);
            (key in after <==> key in cache) && (key in cache ==> after[key] == cache[key])
    decreases |ms|
  {
    if ms != [] {
      CountingKeepsBlockedKeys(cache, ms[..|ms| - 1], classes, now, i, c, z);
      var m := ms[|ms| - 1];
      if IsCounted(m, classes) {
        KeysDiffer(i, c, z, m.spec.value.instanceType, CapacityTypeOf(m), m.zone);
        KeysDiffer(i, c, z, "*", CapacityTypeOf(m), m.zone);
      }
    }
  }

  /** This pattern is what one of the machines blocks. */
  ghost predicate IsPatternOf(ms: seq<Machine>, i: string, c: string, z: string) {
    exists m | m in ms && m.spec.Some? :: BlockedType(m) == i && CapacityTypeOf(m) == c && m.zone == z
  }

  lemma {:induction false} LiveAfterBlocking(cache: Cache, ms: seq<Machine>, now: nat, i: string, c: string, z: string,
                                             later: nat)
    requires KnownCapacity(c) && later <= now + BLOCK_TTL
    requires forall m | m in ms && m.spec.Some? :: KnownCapacity(CapacityTypeOf(m)) && Separate(BlockedType(m), i)
    ensures Live(BlockAll(cache, ms, now), BlockedKey(i, c, z), later) <==>
            Live(cache, BlockedKey(i, c, z), later) || IsPatternOf(ms, i, c, z)
    decreases |ms|
  {
    if ms != [] {
      var before, m := ms[..|ms| - 1], ms[|ms| - 1];
      assert forall x | x in before :: x in ms;
      LiveAfterBlocking(cache, before, now, i, c, z, later);
      assert forall x | x in ms :: x in before || x == m;
      if m.spec.Some? {
        assert m in ms;
        BlockedKeyIsInjective(BlockedType(m), CapacityTypeOf(m), m.zone, i, c, z);
      }
    }
  }

  lemma LiveAfterPass(cache: Cache, items: seq<Machine>, classes: set<string>, now: nat, i: string, c: string,
                      z: string,
                      later: nat)
    requires KnownCapacity(c) && later <= now + BLOCK_TTL && (i == "*" || Separate("*", i)) && NamesApart(items, i)
    ensures var unknowns := Unknowns(Counted(cache, items, classes, now), items, now);
            Live(Passed(cache, items, classes, now), BlockedKey(i, c, z), later) <==>
            Live(cache, BlockedKey(i, c, z), later) || IsPatternOf(unknowns, i, c, z)
  {
    var counted := Counted(cache, items, classes, now);
    CountingKeepsBlockedKeys(cache, Shortages(cache, items, now), classes, now, i, c, z);
    LiveAfterBlocking(counted, Unknowns(counted, items, now), now, i, c, z, later);
  }

  lemma PatternsCoverIff(unknowns: seq<Machine>, i: string, c: string, z: string)
    requires NamesApart(unknowns, i)
    ensures (exists i', c', z' | i' in {i, "*"} && c' in {c, "*"} && z' in {z, "*"} ::
             IsPatternOf(unknowns, i', c', z')) <==>
            CoveredBy(unknowns, i, c, z)
  {
    if CoveredBy(unknowns, i, c, z) {
      var m :| m in unknowns && m.spec.Some? && Covers(m, i) && CapacityTypeOf(m) in {c, "*"} && m.zone in {z, "*"};
      assert IsPatternOf(unknowns, BlockedType(m), CapacityTypeOf(m), m.zone);
    }
  }

  /** Exactly what a pass blocks: for half an hour a triple is blocked after it if and only if it was before, or an
      unknown failure of the pass has its capacity type and zone, and its type or the user's spot quota. */
  lemma PassBlocksIff(cache: Cache, items: seq<Machine>, classes: set<string>, now: nat, i: string, c: string,
                      z: string,
                      later: nat)
    requires KnownCapacity(c) && later <= now + BLOCK_TTL && Separate("*", i) && NamesApart(items, i)
    ensures IsBlocked(Passed(cache, items, classes, now), i, c, z, later) <==>
            IsBlocked(cache, i, c, z, later) ||
            CoveredBy(Unknowns(Counted(cache, items, classes, now), items, now), i, c, z)
  {
    var unknowns := Unknowns(Counted(cache, items, classes, now), items, now);
    LiveAfterPass(cache, items, classes, now, i, c, z, later);
    LiveAfterPass(cache, items, classes, now, "*", "*", "*", later);
    LiveAfterPass(cache, items, classes, now, i, c, "*", later);
    LiveAfterPass(cache, items, classes, now, i, "*", z, later);
    LiveAfterPass(cache, items, classes, now, i, "*", "*", later);
    LiveAfterPass(cache, items, classes, now, "*", c, z, later);
    LiveAfterPass(cache, items, classes, now, "*", c, "*", later);
    LiveAfterPass(cache, items, classes, now, "*", "*", z, later);
    PatternsCoverIff(unknowns, i, c, z);
  }

  /** Without a user spot quota among the failures, a pass from an empty cache blocks no name but their own. */
  lemma NoQuotaNoOtherName(items: seq<Machine>, classes: set<string>, now: nat, i: string, c: string, z: string,
                           later: nat)
    requires KnownCapacity(c) && later <= now + BLOCK_TTL && Separate("*", i) && NamesApart(items, i)
    requires forall m | m in items :: !Contains(m.failureMessage, "LimitExceeded.UserSpotQuota")
    requires forall m | m in items && m.spec.Some? :: m.spec.value.instanceType != i
    ensures !IsBlocked(Passed(map[], items, classes, now), i, c, z, later)
  {
    PassBlocksIff(map[], items, classes, now, i, c, z, later);
    NothingIsCovered(Unknowns(Counted(map[], items, classes, now), items, now), i, c, z);
    NothingBlocksNothing(i, c, z, later);
  }

  lemma NothingIsCovered(unknowns: seq<Machine>, i: string, c: string, z: string)
    requires forall m | m in unknowns && m.spec.Some? :: !Covers(m, i)
    ensures !CoveredBy(unknowns, i, c, z)
  {}

  lemma NothingBlocksNothing(i: string, c: string, z: string, now: nat)
    ensures !IsBlocked(map[], i, c, z, now)
  {}

  /* ---------- counters stay bounded over all runs ---------- */

  /** What happens to the cache: passes, and blocks after a failed creation. */
  datatype CacheEvent =
    | PassEvent(items: seq<Machine>, classes: set<string>, now: nat)
    | BlockEvent(instName: string, capacityType: string, zone: string, now: nat)

  function Run(events: seq<CacheEvent>): Cache {
    if events == [] then map[]
    else
      var before := Run(events[..|events| - 1]);
      match events[|events| - 1]
      case PassEvent(items, classes, now) => Passed(before, items, classes, now)
      case BlockEvent(i, c, z, now) => Block(before, i, c, z, now)
  }

  /** At most n machines a pass, and no instance type called "*". */
  ghost predicate SmallPasses(events: seq<CacheEvent>, n: nat) {
    forall e | e in events && e.PassEvent? :: |e.items| <= n && forall m | m in e.items :: IsTyped(m)
  }

  predicate IsTyped(m: Machine) {
    m.spec.Some? ==> m.spec.value.instanceType != "*"
  }

  /** The limit of a counter: 50 under the names the spot-zone counters can have, 3 under all others. */
  function Limit(instName: string): nat {
    if instName == "*" || "*-" <= instName then 50 else 3
  }

  ghost predicate StoredWithin(cache: Cache, i: string, c: string, z: string, bound: nat) {
    var key := FailureKey(i, c, z);
    key in cache && cache[key].Count? ==> cache[key].count <= bound
  }

  /** Only names that begin like a wildcard share a key with a spot-zone counter. */
  lemma ZoneKeysNeedStars(i: string, c: string, z: string, zone: string)
    requires FailureKey(i, c, z) == FailureKey("*", SPOT, zone)
    ensures i == "*" || "*-" <= i
  {
    var key, other := FailureKey(i, c, z), FailureKey("*", SPOT, zone);
    assert key[12..] == KeyTail(i, c, z) && other[12..] == KeyTail("*", SPOT, zone);
    var tail := KeyTail(i, c, z);
    assert tail[0] == '*' && tail[1] == '-';
    assert tail[..|i|] == i && tail[|i|] == '-';
    if |i| == 1 {
      assert i == ['*'];
    } else if |i| >= 2 {
      assert i[0] == '*' && i[1] == '-';
    }
  }

  lemma OneRaiseEach(m: Machine, classes: set<string>, key: string)
    requires IsTyped(m)
    ensures Raises(m, classes, key) <= 1
  {
    if Raises(m, classes, key) == 2 {
      var t := m.spec.value.instanceType;
      assert |FailureKey(t, SPOT, m.zone)| == |t| + |FailureKey("*", SPOT, m.zone)| - 1;
      ZoneKeysNeedStars(t, SPOT, m.zone, m.zone);
    }
  }

  /** m raises the counter under this key, as its type's or as its spot zone's. */
  predicate RaisesKey(m: Machine, key: string) {
    && m.spec.Some?
    && (|| FailureKey(m.spec.value.instanceType, CapacityTypeOf(m), m.zone) == key
        || (CapacityTypeOf(m) == SPOT && FailureKey("*", SPOT, m.zone) == key))
  }

  lemma {:induction false} RaisesAtMostOnce(ms: seq<Machine>, classes: set<string>, key: string)
    requires forall m | m in ms :: IsTyped(m)
    ensures RaisesOf(ms, classes, key) <= |ms|
    ensures RaisesOf(ms, classes, key) > 0 ==> exists m | m in ms :: RaisesKey(m, key)
    decreases |ms|
  {
    if ms != [] {
      var m, before := ms[|ms| - 1], ms[..|ms| - 1];
      RaisesAtMostOnce(before, classes, key);
      assert m in ms && forall x | x in before :: x in ms;
      OneRaiseEach(m, classes, key);
      if RaisesOf(before, classes, key) == 0 && Raises(m, classes, key) > 0 {
        assert RaisesKey(m, key);
      }
    }
  }

  /** A counter only moves in a pass that admitted a machine below its limit, by at most one per machine. */
  lemma PassKeepsBound(cache: Cache, items: seq<Machine>, classes: set<string>, now: nat,
                       i: string, c: string, z: string, n: nat)
    requires |items| <= n && forall m | m in items :: IsTyped(m)
    requires StoredWithin(cache, i, c, z, Limit(i) + n)
    ensures StoredWithin(Passed(cache, items, classes, now), i, c, z, Limit(i) + n)
  {
    var shortages := Shortages(cache, items, now);
    var key, counted := FailureKey(i, c, z), CountAll(cache, shortages, classes, now);
    CountingConserves(cache, shortages, classes, now, key);
    RaisesAtMostOnce(shortages, classes, key);
    BlockingKeepsCounters(counted, Unknowns(counted, items, now), now, i, c, z);
    if RaisesOf(shortages, classes, key) > 0 {
      var m :| m in shortages && RaisesKey(m, key);
      AdmittedBelowLimit(cache, m, now, i, c, z);
    }
  }

  lemma AdmittedBelowLimit(cache: Cache, m: Machine, now: nat, i: string, c: string, z: string)
    requires IsTolerated(cache, m, now) && RaisesKey(m, FailureKey(i, c, z))
    ensures CountUnder(cache, FailureKey(i, c, z), now) <= Limit(i)
  {
    if FailureKey(m.spec.value.instanceType, CapacityTypeOf(m), m.zone) != FailureKey(i, c, z) {
      ZoneKeysNeedStars(i, c, z, m.zone);
    }
  }

  /** Over every run, with at most n machines a pass and no instance type called "*", a per-type counter never
      exceeds 3 + n and a spot zone's counter never exceeds 50 + n. */
  lemma {:induction false} CountersStayBounded(events: seq<CacheEvent>, n: nat, i: string, c: string, z: string)
    requires SmallPasses(events, n)
    ensures StoredWithin(Run(events), i, c, z, Limit(i) + n)
    ensures forall now: nat :: FailureCount(Run(events), i, c, z, now) <= Limit(i) + n
    decreases |events|
  {
    if events != [] {
      var last, before := events[|events| - 1], events[..|events| - 1];
      CountersStayBounded(before, n, i, c, z);
      match last {
        case PassEvent(items, classes, now) =>
          PassKeepsBound(Run(before), items, classes, now, i, c, z, n);
        case BlockEvent(i', c', z', now) =>
          KeysDiffer(i', c', z', i, c, z);
      }
    }
  }
}
