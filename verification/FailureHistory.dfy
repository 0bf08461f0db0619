/** What failed machines do to the cache over whole runs: the cache after any run of passes and blocks is the replay
    of a timed history of single adds and blocks, so the laws of such histories hold of it. */
module FailureHistory {
  import opened Objects
  import opened Blacklist
  import opened FailureController

  /* ---------- the history behind a run ---------- */

  function AddsOf(m: Machine, classes: set<string>, now: nat): seq<Timed> {
    if !IsCounted(m, classes) then []
    else
      var capacityType := CapacityTypeOf(m);
      var ofType := [Timed(AddOp(m.spec.value.instanceType, capacityType, m.zone), now)];
      if capacityType == SPOT then ofType + [Timed(AddOp("*", capacityType, m.zone), now)] else ofType
  }

  function AllAddsOf(ms: seq<Machine>, classes: set<string>, now: nat): seq<Timed> {
    if ms == [] then [] else AllAddsOf(ms[..|ms| - 1], classes, now) + AddsOf(ms[|ms| - 1], classes, now)
  }

  function BlocksOf(m: Machine, now: nat): seq<Timed> {
    if m.spec.None? then [] else [Timed(BlockOp(BlockedType(m), CapacityTypeOf(m), m.zone), now)]
  }

  function AllBlocksOf(ms: seq<Machine>, now: nat): seq<Timed> {
    if ms == [] then [] else AllBlocksOf(ms[..|ms| - 1], now) + BlocksOf(ms[|ms| - 1], now)
  }

  /** A pass adds for its tolerated shortages, then blocks for what it finds unknown after that. */
  function PassAdds(cache: Cache, e: CacheEvent): seq<Timed>
    requires e.PassEvent?
  {
    AllAddsOf(Shortages(cache, e.items, e.now), e.classes, e.now)
  }

  function PassBlocks(cache: Cache, e: CacheEvent): seq<Timed>
    requires e.PassEvent?
  {
    AllBlocksOf(Unknowns(Counted(cache, e.items, e.classes, e.now), e.items, e.now), e.now)
  }

  function EventHistory(cache: Cache, e: CacheEvent): seq<Timed> {
    match e
    case PassEvent(_, _, _) => PassAdds(cache, e) + PassBlocks(cache, e)
    case BlockEvent(i, c, z, now) => [Timed(BlockOp(i, c, z), now)]
  }

  function RunHistory(events: seq<CacheEvent>): seq<Timed> {
    if events == [] then []
    else
      var before := events[..|events| - 1];
      RunHistory(before) + EventHistory(Run(before), events[|events| - 1])
  }

  /* ---------- replaying it ---------- */

  function ReplayOn(cache: Cache, history: seq<Timed>): Cache {
    if history == [] then cache else Apply(ReplayOn(cache, history[..|history| - 1]), history[|history| - 1])
  }

  lemma {:induction false} ReplayAppend(history: seq<Timed>, more: seq<Timed>)
    ensures Replay(history + more) == ReplayOn(Replay(history), more)
    decreases |more|
  {
    if more == [] {
      assert history + more == history;
    } else {
      ReplayAppend(history, more[..|more| - 1]);
      assert (history + more)[..|history + more| - 1] == history + more[..|more| - 1];
    }
  }

  lemma {:induction false} ReplayOnAppend(cache: Cache, history: seq<Timed>, more: seq<Timed>)
    ensures ReplayOn(cache, history + more) == ReplayOn(ReplayOn(cache, history), more)
    decreases |more|
  {
    if more == [] {
      assert history + more == history;
    } else {
      ReplayOnAppend(cache, history, more[..|more| - 1]);
      assert (history + more)[..|history + more| - 1] == history + more[..|more| - 1];
    }
  }

  lemma ReplayOne(cache: Cache, e: Timed)
    ensures ReplayOn(cache, [e]) == Apply(cache, e)
  {
    assert [e][..0] == [];
  }

  lemma CountOneReplays(cache: Cache, m: Machine, classes: set<string>, now: nat)
    ensures CountOne(cache, m, classes, now) == ReplayOn(cache, AddsOf(m, classes, now))
  {
    if IsCounted(m, classes) {
      var ofType := Timed(AddOp(m.spec.value.instanceType, CapacityTypeOf(m), m.zone), now);
      var ofZone := Timed(AddOp("*", CapacityTypeOf(m), m.zone), now);
      ReplayOne(cache, ofType);
      ReplayOne(Apply(cache, ofType), ofZone);
      ReplayOnAppend(cache, [ofType], [ofZone]);
    }
  }

  lemma {:induction false} CountAllReplays(cache: Cache, ms: seq<Machine>, classes: set<string>, now: nat)
    ensures CountAll(cache, ms, classes, now) == ReplayOn(cache, AllAddsOf(ms, classes, now))
    decreases |ms|
  {
    if ms != [] {
      var before, last := ms[..|ms| - 1], ms[|ms| - 1];
      CountAllReplays(cache, before, classes, now);
      CountOneReplays(CountAll(cache, before, classes, now), last, classes, now);
      ReplayOnAppend(cache, AllAddsOf(before, classes, now), AddsOf(last, classes, now));
    }
  }

  lemma {:induction false} BlockAllReplays(cache: Cache, ms: seq<Machine>, now: nat)
    ensures BlockAll(cache, ms, now) == ReplayOn(cache, AllBlocksOf(ms, now))
    decreases |ms|
  {
    if ms != [] {
      var before, last := ms[..|ms| - 1], ms[|ms| - 1];
      BlockAllReplays(cache, before, now);
      if last.spec.Some? {
        ReplayOne(BlockAll(cache, before, now), BlocksOf(last, now)[0]);
      }
      ReplayOnAppend(cache, AllBlocksOf(before, now), BlocksOf(last, now));
    }
  }

  lemma PassReplays(cache: Cache, e: CacheEvent)
    requires e.PassEvent?
    ensures Passed(cache, e.items, e.classes, e.now) == ReplayOn(cache, EventHistory(cache, e))
  {
    var counted := Counted(cache, e.items, e.classes, e.now);
    CountAllReplays(cache, Shortages(cache, e.items, e.now), e.classes, e.now);
    BlockAllReplays(counted, Unknowns(counted, e.items, e.now), e.now);
    ReplayOnAppend(cache, PassAdds(cache, e), PassBlocks(cache, e));
  }

  /** The cache after any run is the replay of the run's history. */
  lemma {:induction false} RunIsReplay(events: seq<CacheEvent>)
    ensures Run(events) == Replay(RunHistory(events))
    decreases |events|
  {
    if events != [] {
      var before, last := events[..|events| - 1], events[|events| - 1];
      RunIsReplay(before);
      ReplayAppend(RunHistory(before), EventHistory(Run(before), last));
      match last {
        case PassEvent(_, _, _) => PassReplays(Run(before), last);
        case BlockEvent(i, c, z, now) => ReplayOne(Run(before), Timed(BlockOp(i, c, z), now));
      }
    }
  }

  /* ---------- the laws of histories, for runs ---------- */

  /** In every run the counter read at any time is the longest gap chain of what was counted under its key. */
  lemma RunCountIsGapChain(events: seq<CacheEvent>, i: string, c: string, z: string, now: nat)
    ensures var times := AddTimes(RunHistory(events), FailureKey(i, c, z));
            var count := FailureCount(Run(events), i, c, z, now);
            IsChain(times, count, now) && forall k: nat | IsChain(times, k, now) :: k <= count
  {
    RunIsReplay(events);
    FailureCountIsGapChain(RunHistory(events), i, c, z, now);
  }

  ghost predicate EventsInOrder(events: seq<CacheEvent>) {
    forall k, l | 0 <= k < l < |events| :: events[k].now <= events[l].now
  }

  lemma {:induction false} AddsAreAt(ms: seq<Machine>, classes: set<string>, now: nat)
    ensures forall e | e in AllAddsOf(ms, classes, now) :: e.at == now && e.op.AddOp?
    decreases |ms|
  {
    if ms != [] {
      AddsAreAt(ms[..|ms| - 1], classes, now);
    }
  }

  lemma {:induction false} BlocksAreAt(ms: seq<Machine>, now: nat)
    ensures forall e | e in AllBlocksOf(ms, now) :: e.at == now && e.op.BlockOp?
    decreases |ms|
  {
    if ms != [] {
      BlocksAreAt(ms[..|ms| - 1], now);
    }
  }

  lemma EventHistoryIsAt(cache: Cache, e: CacheEvent)
    ensures forall t | t in EventHistory(cache, e) :: t.at == e.now
  {
    if e.PassEvent? {
      AddsAreAt(Shortages(cache, e.items, e.now), e.classes, e.now);
      BlocksAreAt(Unknowns(Counted(cache, e.items, e.classes, e.now), e.items, e.now), e.now);
    }
  }

  lemma AppendInOrder(history: seq<Timed>, more: seq<Timed>, now: nat)
    requires InOrder(history) && (forall t | t in history :: t.at <= now) && (forall t | t in more :: t.at == now)
    ensures InOrder(history + more) && forall t | t in history + more :: t.at <= now
  {
    var all := history + more;
    forall k | 0 <= k < |all| ensures if k < |history| then all[k] in history else all[k] in more {}
  }

  lemma {:induction false} RunHistoryInOrder(events: seq<CacheEvent>, now: nat)
    requires EventsInOrder(events) && forall k | 0 <= k < |events| :: events[k].now <= now
    ensures InOrder(RunHistory(events)) && forall t | t in RunHistory(events) :: t.at <= now
    decreases |events|
  {
    if events != [] {
      var before, last := events[..|events| - 1], events[|events| - 1];
      RunHistoryInOrder(before, last.now);
      EventHistoryIsAt(Run(before), last);
      AppendInOrder(RunHistory(before), EventHistory(Run(before), last), last.now);
    }
  }

  /** In every run the eight lookups are wildcard matching against the run's unexpired blocks. */
  lemma RunLookupsAreWildcardMatching(events: seq<CacheEvent>, i: string, c: string, z: string, now: nat)
    requires EventsInOrder(events) && forall k | 0 <= k < |events| :: events[k].now <= now
    requires KnownCapacity(c) && BlocksApart(RunHistory(events), i) && BlocksApart(RunHistory(events), "*")
    ensures IsBlocked(Run(events), i, c, z, now) <==>
            exists p: Op :: p.BlockOp? && Matches(p, i, c, z) && RecentlyBlocked(RunHistory(events), p, now)
  {
    RunHistoryInOrder(events, now);
    RunIsReplay(events);
    LookupsAreWildcardMatching(RunHistory(events), i, c, z, now);
  }

  /* ---------- chains escalate ---------- */

  /** The failures counted for m's type follow each other four times within the hour, or those of its spot zone
      fifty-one times. */
  ghost predicate InLongChain(history: seq<Timed>, m: Machine, now: nat)
    requires m.spec.Some?
  {
    var capacityType := CapacityTypeOf(m);
    || IsChain(AddTimes(history, FailureKey(m.spec.value.instanceType, capacityType, m.zone)), 4, now)
    || (capacityType == SPOT && IsChain(AddTimes(history, FailureKey("*", capacityType, m.zone)), 51, now))
  }

  /** A chain may be cut short at its far end. */
  lemma ChainIsCut(times: seq<nat>, k: nat, l: nat, now: nat)
    requires IsChain(times, k, now) && l <= k
    ensures IsChain(times, l, now)
  {}

  lemma OverLimitIff(history: seq<Timed>, i: string, c: string, z: string, now: nat, limit: nat)
    ensures FailureCount(Replay(history), i, c, z, now) > limit <==>
            IsChain(AddTimes(history, FailureKey(i, c, z)), limit + 1, now)
  {
    FailureCountIsGapChain(history, i, c, z, now);
    var times, count := AddTimes(history, FailureKey(i, c, z)), FailureCount(Replay(history), i, c, z, now);
    if count > limit {
      ChainIsCut(times, count, limit + 1, now);
    }
  }

  lemma ExceededIff(history: seq<Timed>, m: Machine, now: nat)
    requires m.spec.Some?
    ensures CountersExceeded(Replay(history), m, now) <==> InLongChain(history, m, now)
  {
    OverLimitIff(history, m.spec.value.instanceType, CapacityTypeOf(m), m.zone, now, TYPE_LIMIT);
    OverLimitIff(history, "*", CapacityTypeOf(m), m.zone, now, SPOT_LIMIT);
  }

  lemma AddTimesAppend(history: seq<Timed>, e: Timed, key: string)
    requires e.op.BlockOp?
    ensures AddTimes(history + [e], key) == AddTimes(history, key)
  {
    assert (history + [e])[..|history|] == history;
  }

  lemma {:induction false} BlocksAddNothing(history: seq<Timed>, blocks: seq<Timed>, key: string)
    requires forall e | e in blocks :: e.op.BlockOp?
    ensures AddTimes(history + blocks, key) == AddTimes(history, key)
    decreases |blocks|
  {
    if blocks == [] {
      assert history + blocks == history;
    } else {
      var before, last := blocks[..|blocks| - 1], blocks[|blocks| - 1];
      BlocksAddNothing(history, before, key);
      AddTimesAppend(history + before, last, key);
      assert history + blocks == history + before + [last];
    }
  }

  lemma CountedIsReplay(before: seq<CacheEvent>, e: CacheEvent)
    requires e.PassEvent?
    ensures Counted(Run(before), e.items, e.classes, e.now) == Replay(RunHistory(before) + PassAdds(Run(before), e))
  {
    RunIsReplay(before);
    ReplayAppend(RunHistory(before), PassAdds(Run(before), e));
    CountAllReplays(Run(before), Shortages(Run(before), e.items, e.now), e.classes, e.now);
  }

  lemma RunOfLast(before: seq<CacheEvent>, e: CacheEvent)
    requires e.PassEvent?
    ensures Run(before + [e]) == Passed(Run(before), e.items, e.classes, e.now)
    ensures RunHistory(before + [e]) == RunHistory(before) + PassAdds(Run(before), e) + PassBlocks(Run(before), e)
  {
    var events := before + [e];
    assert events[..|events| - 1] == before && events[|events| - 1] == e;
    LastEvent(events, before, e);
  }

  lemma LastEvent(events: seq<CacheEvent>, before: seq<CacheEvent>, e: CacheEvent)
    requires events != [] && events[..|events| - 1] == before && events[|events| - 1] == e && e.PassEvent?
    ensures Run(events) == Passed(Run(before), e.items, e.classes, e.now)
    ensures RunHistory(events) == RunHistory(before) + PassAdds(Run(before), e) + PassBlocks(Run(before), e)
  {
    assert RunHistory(events) == RunHistory(before) + EventHistory(Run(before), e);
  }

  lemma SameAddsSameChains(history: seq<Timed>, blocks: seq<Timed>, m: Machine, now: nat)
    requires m.spec.Some? && forall e | e in blocks :: e.op.BlockOp?
    ensures InLongChain(history + blocks, m, now) <==> InLongChain(history, m, now)
  {
    BlocksAddNothing(history, blocks, FailureKey(m.spec.value.instanceType, CapacityTypeOf(m), m.zone));
    BlocksAddNothing(history, blocks, FailureKey("*", CapacityTypeOf(m), m.zone));
  }

  /** m's counters are over a limit in the second half of a run's last pass exactly when m is in a long chain. */
  lemma LongChainIff(before: seq<CacheEvent>, e: CacheEvent, m: Machine)
    requires e.PassEvent? && m.spec.Some?
    ensures CountersExceeded(Counted(Run(before), e.items, e.classes, e.now), m, e.now) <==>
            InLongChain(RunHistory(before + [e]), m, e.now)
  {
    var counted := Counted(Run(before), e.items, e.classes, e.now);
    CountedIsReplay(before, e);
    ExceededIff(RunHistory(before) + PassAdds(Run(before), e), m, e.now);
    BlocksAreAt(Unknowns(counted, e.items, e.now), e.now);
    SameAddsSameChains(RunHistory(before) + PassAdds(Run(before), e), PassBlocks(Run(before), e), m, e.now);
    RunOfLast(before, e);
  }

  /** An eligible readable shortage seen by this pass. */
  predicate IsSeen(e: CacheEvent, m: Machine) {
    e.PassEvent? && m in e.items && Eligible(m, e.now) && IsShortageMessage(m) && m.spec.Some? && m.failureMessage != ""
  }

  /** The last pass of a run takes such a machine for an unknown failure exactly when, over the whole run, the
      failures counted for its type or its spot zone form a long chain up to that pass. */
  lemma EscalatedIffInLongChain(before: seq<CacheEvent>, e: CacheEvent, m: Machine)
    requires IsSeen(e, m)
    ensures m in Unknowns(Counted(Run(before), e.items, e.classes, e.now), e.items, e.now) <==>
            InLongChain(RunHistory(before + [e]), m, e.now)
  {
    LongChainIff(before, e, m);
  }

  /** End to end: a shortage of a type or spot zone whose failures formed such a chain leaves its type, capacity type
      and zone blocked for half an hour from the pass on. */
  lemma LongChainsAreBlocked(before: seq<CacheEvent>, e: CacheEvent, m: Machine, later: nat)
    requires IsSeen(e, m) && InLongChain(RunHistory(before + [e]), m, e.now) && later <= e.now + 30 * MINUTE
    ensures IsBlocked(Run(before + [e]), m.spec.value.instanceType, CapacityTypeOf(m), m.zone, later)
  {
    LongChainIff(before, e, m);
    RunOfLast(before, e);
    UnknownsAreBlocked(Run(before), e.items, e.classes, e.now, m, m.spec.value.instanceType, later);
  }
}
