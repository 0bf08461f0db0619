/** The expiring cache behind blocks and failure counts: the key formats, the two lifetimes and the
    eight lookups of pkg/providers/instancetype/instancetype.go. Times are in nanoseconds. */
module Blacklist {
  import opened Text

  const MINUTE: nat := 60_000_000_000
  const HOUR: nat := 60 * MINUTE

  /** Lifetime of a block: the default expiration the operator creates the cache with. */
  const BLOCK_TTL: nat := 30 * MINUTE

  const SPOT := "spot"
  const ON_DEMAND := "on-demand"

  /** A stored value with its expiration: `true` for a block, an int for a failure count. */
  datatype Item = Flag(expires: nat) | Count(count: nat, expires: nat)

  type Cache = map<string, Item>

  predicate Live(cache: Cache, key: string, now: nat) {
    key in cache && now <= cache[key].expires
  }

  function KeyTail(instName: string, capacityType: string, zone: string): string {
    instName + "-" + (capacityType + "-" + zone)
  }

  function BlockedKey(instName: string, capacityType: string, zone: string): string {
    "blocked-ins-" + KeyTail(instName, capacityType, zone)
  }

  function FailureKey(instName: string, capacityType: string, zone: string): string {
    "failure-ins-" + KeyTail(instName, capacityType, zone)
  }

  /** Blocks sit under blocked- keys and counts under failure- keys, so no type assertion can fail. */
  ghost predicate WellTyped(cache: Cache) {
    forall key | key in cache :: if cache[key].Flag? then "blocked-ins-" <= key else "failure-ins-" <= key
  }

  lemma KeysDiffer(i: string, c: string, z: string, i': string, c': string, z': string)
    ensures BlockedKey(i, c, z) != FailureKey(i', c', z')
  {
    assert BlockedKey(i, c, z)[0] == 'b' && FailureKey(i', c', z')[0] == 'f';
  }

  /* ---------- the operations on the cache ---------- */

  function Block(cache: Cache, instName: string, capacityType: string, zone: string, now: nat): Cache {
    cache[BlockedKey(instName, capacityType, zone) := Flag(now + BLOCK_TTL)]
  }

  function FailureCount(cache: Cache, instName: string, capacityType: string, zone: string, now: nat): nat {
    var key := FailureKey(instName, capacityType, zone);
    if Live(cache, key, now) && cache[key].Count? then cache[key].count else 0
  }

  /** An add counts on from the live count and renews it for an hour. */
  function AddFailure(cache: Cache, instName: string, capacityType: string, zone: string, now: nat): Cache {
    cache[FailureKey(instName, capacityType, zone) :=
      Count(1 + FailureCount(cache, instName, capacityType, zone, now), now + HOUR)]
  }

  /** The eight lookups, in their order. */
  predicate IsBlocked(cache: Cache, instName: string, capacityType: string, zone: string, now: nat) {
    || Live(cache, BlockedKey(instName, capacityType, zone), now)
    || Live(cache, BlockedKey("*", "*", "*"), now)
    || Live(cache, BlockedKey(instName, capacityType, "*"), now)
    || Live(cache, BlockedKey(instName, "*", zone), now)
    || Live(cache, BlockedKey(instName, "*", "*"), now)
    || Live(cache, BlockedKey("*", capacityType, zone), now)
    || Live(cache, BlockedKey("*", capacityType, "*"), now)
    || Live(cache, BlockedKey("*", "*", zone), now)
  }

  /* ---------- which keys coincide ---------- */

  predicate KnownCapacity(capacityType: string) {
    capacityType == SPOT || capacityType == ON_DEMAND || capacityType == "*" || capacityType == ""
  }

  predicate ExtendsBy(i: string, c: string, j: string) {
    j == i + "-" + c || i + "-" + c + "-" <= j
  }

  /** j is i and a capacity type, alone or followed by a dash and anything. */
  predicate Extends(i: string, j: string) {
    ExtendsBy(i, SPOT, j) || ExtendsBy(i, ON_DEMAND, j) || ExtendsBy(i, "*", j) || ExtendsBy(i, "", j)
  }

  predicate Separate(i: string, j: string) {
    i == j || (!Extends(i, j) && !Extends(j, i))
  }

  lemma ExtendsByCapacity(i: string, c: string, j: string)
    requires KnownCapacity(c) && ExtendsBy(i, c, j)
    ensures Extends(i, j)
  {}

  lemma ExtensionIsLonger(i: string, j: string)
    requires Extends(i, j)
    ensures |i| < |j| && i <= j && j[|i|] == '-'
  {
    var c := if ExtendsBy(i, SPOT, j) then SPOT else if ExtendsBy(i, ON_DEMAND, j) then ON_DEMAND
             else if ExtendsBy(i, "*", j) then "*" else "";
    assert i + "-" + c <= j;
    assert (i + "-" + c)[..|i|] == i && (i + "-" + c)[|i|] == '-';
  }

  /** Names without dashes are always separate. */
  lemma DashFreeNamesAreSeparate(i: string, j: string)
    requires DashFree(i) && DashFree(j)
    ensures Separate(i, j)
  {
    if Extends(i, j) {
      ExtensionIsLonger(i, j);
    } else if Extends(j, i) {
      ExtensionIsLonger(j, i);
    }
  }

  /** What follows a common name: the longer name's remainder begins with a capacity type. */
  lemma RestBegins(c: string, z: string, r: string, c': string, z': string)
    requires KnownCapacity(c) && KnownCapacity(c') && c + "-" + z == r + "-" + (c' + "-" + z')
    ensures r == c || c + "-" <= r
  {
    var rest := c + "-" + z;
    assert rest[..|c|] == c && rest[|c|] == '-' && rest[..|r|] == r && rest[|r|] == '-';
    assert rest[|r| + 1..] == c' + "-" + z' && (c' + "-" + z')[0] == if c' == "" then '-' else c'[0];
    if |r| < |c| {
      assert false;
    } else if |c| < |r| {
      assert r[..|c|] == c && r[|c|] == '-';
    }
  }

  lemma LongerNameExtends(i: string, c: string, z: string, i': string, c': string, z': string)
    requires KnownCapacity(c) && KnownCapacity(c') && |i| < |i'| && KeyTail(i, c, z) == KeyTail(i', c', z')
    ensures Extends(i, i')
  {
    var tail := KeyTail(i, c, z);
    assert tail[..|i|] == i && tail[|i|] == '-' && tail[..|i'|] == i';
    var r := i'[|i| + 1..];
    assert i' == i + "-" + r;
    assert tail[|i| + 1..] == c + "-" + z && tail[|i| + 1..] == r + "-" + (c' + "-" + z');
    RestBegins(c, z, r, c', z');
    if r != c {
      assert i + "-" + c + "-" == i + "-" + (c + "-");
    }
    ExtendsByCapacity(i, c, i');
  }

  lemma SameNameSameTriple(i: string, c: string, z: string, c': string, z': string)
    requires KnownCapacity(c) && KnownCapacity(c') && KeyTail(i, c, z) == KeyTail(i, c', z')
    ensures c == c' && z == z'
  {
    var rest, rest' := c + "-" + z, c' + "-" + z';
    assert KeyTail(i, c, z)[|i| + 1..] == rest && KeyTail(i, c', z')[|i| + 1..] == rest';
    assert rest[0] == if c == "" then '-' else c[0];
    assert rest'[0] == if c' == "" then '-' else c'[0];
    assert rest[|c| + 1..] == z && rest'[|c'| + 1..] == z';
  }

  /** Equal keys come from equal triples, for separate instance names and known capacity types. */
  lemma KeyTailIsInjective(i: string, c: string, z: string, i': string, c': string, z': string)
    requires KnownCapacity(c) && KnownCapacity(c') && Separate(i, i')
    requires KeyTail(i, c, z) == KeyTail(i', c', z')
    ensures i == i' && c == c' && z == z'
  {
    if |i| < |i'| {
      LongerNameExtends(i, c, z, i', c', z');
    } else if |i'| < |i| {
      LongerNameExtends(i', c', z', i, c, z);
    } else {
      assert KeyTail(i, c, z)[..|i|] == i && KeyTail(i', c', z')[..|i|] == i';
      SameNameSameTriple(i, c, z, c', z');
    }
  }

  lemma WholeExtensionSharesKey(i: string, c: string)
    ensures KeyTail(i, c, SPOT + "-z") == KeyTail(i + "-" + c, SPOT, "z")
  {
    assert KeyTail(i, c, SPOT + "-z") == i + "-" + c + "-" + (SPOT + "-z");
    assert SPOT + "-" + "z" == SPOT + "-z";
  }

  lemma LongExtensionSharesKey(i: string, c: string, s: string)
    ensures KeyTail(i, c, s + "-" + (SPOT + "-z")) == KeyTail(i + "-" + c + "-" + s, SPOT, "z")
  {
    assert KeyTail(i, c, s + "-" + (SPOT + "-z")) == i + "-" + c + "-" + s + "-" + (SPOT + "-z");
    assert SPOT + "-" + "z" == SPOT + "-z";
  }

  /** A name and its extension do share a key, under zones of different lengths. */
  lemma ExtensionSharesKey(i: string, i': string) returns (c: string, z: string, c': string, z': string)
    requires Extends(i, i')
    ensures KnownCapacity(c) && KnownCapacity(c') && KeyTail(i, c, z) == KeyTail(i', c', z')
    ensures 1 == |z'| < |z| && z' != "*"
  {
    c := if ExtendsBy(i, SPOT, i') then SPOT else if ExtendsBy(i, ON_DEMAND, i') then ON_DEMAND
         else if ExtendsBy(i, "*", i') then "*" else "";
    c', z' := SPOT, "z";
    if i' == i + "-" + c {
      z := SPOT + "-z";
      WholeExtensionSharesKey(i, c);
    } else {
      var s := i'[|i + "-" + c + "-"|..];
      z := s + "-" + (SPOT + "-z");
      LongExtensionSharesKey(i, c, s);
      assert i' == i + "-" + c + "-" + s;
    }
  }

  /** Two different names can share a key exactly when the longer is the shorter one and a known capacity type, or
      goes on from there with a dash. */
  lemma NamesCollideIff(i: string, i': string)
    requires i != i'
    ensures (exists c, z, c', z' ::
             KnownCapacity(c) && KnownCapacity(c') && KeyTail(i, c, z) == KeyTail(i', c', z')) <==>
            Extends(i, i') || Extends(i', i)
  {
    if Extends(i, i') {
      var c, z, c', z' := ExtensionSharesKey(i, i');
    } else if Extends(i', i) {
      var c', z', c, z := ExtensionSharesKey(i', i);
      assert KeyTail(i, c, z) == KeyTail(i', c', z');
    } else {
      forall c, z, c', z' | KnownCapacity(c) && KnownCapacity(c') && KeyTail(i, c, z) == KeyTail(i', c', z')
        ensures false
      {
        KeyTailIsInjective(i, c, z, i', c', z');
      }
    }
  }

  lemma BlockedKeyIsInjective(i: string, c: string, z: string, i': string, c': string, z': string)
    requires KnownCapacity(c) && KnownCapacity(c') && Separate(i, i')
    ensures BlockedKey(i, c, z) == BlockedKey(i', c', z') <==> (i, c, z) == (i', c', z')
  {
    if BlockedKey(i, c, z) == BlockedKey(i', c', z') {
      assert BlockedKey(i, c, z)[12..] == KeyTail(i, c, z) && BlockedKey(i', c', z')[12..] == KeyTail(i', c', z');
      KeyTailIsInjective(i, c, z, i', c', z');
    }
  }

  lemma FailureKeyIsInjective(i: string, c: string, z: string, i': string, c': string, z': string)
    requires KnownCapacity(c) && KnownCapacity(c') && Separate(i, i')
    ensures FailureKey(i, c, z) == FailureKey(i', c', z') <==> (i, c, z) == (i', c', z')
  {
    if FailureKey(i, c, z) == FailureKey(i', c', z') {
      assert FailureKey(i, c, z)[12..] == KeyTail(i, c, z) && FailureKey(i', c', z')[12..] == KeyTail(i', c', z');
      KeyTailIsInjective(i, c, z, i', c', z');
    }
  }

  /* ---------- timed histories ---------- */

  datatype Op =
    | BlockOp(instName: string, capacityType: string, zone: string)
    | AddOp(instName: string, capacityType: string, zone: string)

  datatype Timed = Timed(op: Op, at: nat)

  function Apply(cache: Cache, e: Timed): Cache {
    match e.op
    case BlockOp(i, c, z) => Block(cache, i, c, z, e.at)
    case AddOp(i, c, z) => AddFailure(cache, i, c, z, e.at)
  }

  /** The cache after a history of operations, starting empty. */
  function Replay(history: seq<Timed>): Cache {
    if history == [] then map[] else Apply(Replay(history[..|history| - 1]), history[|history| - 1])
  }

  ghost predicate InOrder(history: seq<Timed>) {
    forall k, l | 0 <= k < l < |history| :: history[k].at <= history[l].at
  }

  /** Every blocked name is separate from this one. */
  ghost predicate BlocksApart(history: seq<Timed>, i: string) {
    forall k | 0 <= k < |history| && history[k].op.BlockOp? ::
      KnownCapacity(history[k].op.capacityType) && Separate(history[k].op.instName, i)
  }

  /* ---------- wildcard matching ---------- */

  predicate Matches(pattern: Op, instName: string, capacityType: string, zone: string) {
    && (pattern.instName == "*" || pattern.instName == instName)
    && (pattern.capacityType == "*" || pattern.capacityType == capacityType)
    && (pattern.zone == "*" || pattern.zone == zone)
  }

  /** The history holds a block of this very pattern that has not expired. */
  ghost predicate RecentlyBlocked(history: seq<Timed>, pattern: Op, now: nat) {
    exists k | 0 <= k < |history| :: history[k].op == pattern && now <= history[k].at + 30 * MINUTE
  }

  lemma {:induction false} LiveBlocks(history: seq<Timed>, i: string, c: string, z: string, now: nat)
    requires InOrder(history) && KnownCapacity(c) && BlocksApart(history, i)
    ensures Live(Replay(history), BlockedKey(i, c, z), now) <==> RecentlyBlocked(history, BlockOp(i, c, z), now)
    decreases |history|
  {
    if history != [] {
      var n := |history| - 1;
      var before, e := history[..n], history[n];
      LiveBlocks(before, i, c, z, now);
      assert forall k | 0 <= k < n :: history[k] == before[k];
      match e.op {
        case BlockOp(i', c', z') =>
          BlockedKeyIsInjective(i', c', z', i, c, z);
        case AddOp(i', c', z') =>
          KeysDiffer(i, c, z, i', c', z');
      }
    }
  }

  /** The eight lookups are wildcard matching against the unexpired blocks of the history, for every name that is
      separate, like "*", from the blocked names. */
  lemma LookupsAreWildcardMatching(history: seq<Timed>, i: string, c: string, z: string, now: nat)
    requires InOrder(history) && KnownCapacity(c) && BlocksApart(history, i) && BlocksApart(history, "*")
    ensures IsBlocked(Replay(history), i, c, z, now) <==>
            exists p: Op :: p.BlockOp? && Matches(p, i, c, z) && RecentlyBlocked(history, p, now)
  {
    LiveBlocks(history, i, c, z, now);
    LiveBlocks(history, "*", "*", "*", now);
    LiveBlocks(history, i, c, "*", now);
    LiveBlocks(history, i, "*", z, now);
    LiveBlocks(history, i, "*", "*", now);
    LiveBlocks(history, "*", c, z, now);
    LiveBlocks(history, "*", c, "*", now);
    LiveBlocks(history, "*", "*", z, now);
    assert forall p: Op | p.BlockOp? && Matches(p, i, c, z) ::
        p == BlockOp(p.instName, p.capacityType, p.zone) && p.instName in {i, "*"} && p.capacityType in {c, "*"} &&
        p.zone in {z, "*"};
  }

  /** One block of p answers a lookup of i as the pattern would. */
  predicate AnswersAsPattern(p: string, c': string, z': string, i: string, c: string, z: string, now: nat) {
    IsBlocked(Block(map[], p, c', z', now), i, c, z, now) <==> Matches(BlockOp(p, c', z'), i, c, z)
  }

  lemma OneBlock(p: string, c': string, z': string, i: string, c: string, z: string, now: nat)
    requires KnownCapacity(c) && KnownCapacity(c') && Separate(p, i) && Separate(p, "*")
    ensures AnswersAsPattern(p, c', z', i, c, z, now)
  {
    var history := [Timed(BlockOp(p, c', z'), now)];
    assert history[..0] == [];
    assert Replay(history) == Block(map[], p, c', z', now);
    LookupsAreWildcardMatching(history, i, c, z, now);
    assert RecentlyBlocked(history, history[0].op, now);
    assert forall q | RecentlyBlocked(history, q, now) :: q == history[0].op;
  }

  /** Names that extend each other collide: a block of either hits a stranger of the other. */
  lemma DashedNamesCollide(i: string, i': string, now: nat) returns (c: string, z: string, c': string, z': string)
    requires Extends(i, i')
    ensures KnownCapacity(c) && KnownCapacity(c')
    ensures !Matches(BlockOp(i', c', z'), i, c, z) && IsBlocked(Block(map[], i', c', z', now), i, c, z, now)
    ensures !Matches(BlockOp(i, c, z), i', c', z') && IsBlocked(Block(map[], i, c, z, now), i', c', z', now)
  {
    c, z, c', z' := ExtensionSharesKey(i, i');
    ExtensionIsLonger(i, i');
  }

  lemma WildcardNameCollides(p: string, i: string, now: nat) returns (c: string, z: string, c': string, z': string)
    requires Extends("*", p)
    ensures KnownCapacity(c) && KnownCapacity(c') && !AnswersAsPattern(p, c', z', i, c, z, now)
  {
    c, z, c', z' := ExtensionSharesKey("*", p);
  }

  /** Blocks of p answer lookups of i as patterns, for all known capacity types and all zones, exactly when p is
      separate both from i and from "*". */
  lemma AnswersAsPatternIff(p: string, i: string)
    ensures (forall c', z', c, z, now | KnownCapacity(c) && KnownCapacity(c') ::
             AnswersAsPattern(p, c', z', i, c, z, now)) <==>
            Separate(p, i) && Separate(p, "*")
  {
    if Separate(p, i) && Separate(p, "*") {
      forall c', z', c, z, now | KnownCapacity(c) && KnownCapacity(c')
        ensures AnswersAsPattern(p, c', z', i, c, z, now)
      {
        OneBlock(p, c', z', i, c, z, now);
      }
    } else if Extends(p, i) {
      var c', z', c, z := DashedNamesCollide(p, i, 0);
      assert !AnswersAsPattern(p, c', z', i, c, z, 0);
    } else if Extends(i, p) {
      var c, z, c', z' := DashedNamesCollide(i, p, 0);
      assert !AnswersAsPattern(p, c', z', i, c, z, 0);
    } else {
      if Extends(p, "*") {
        ExtensionIsLonger(p, "*");
      }
      var c, z, c', z' := WildcardNameCollides(p, i, 0);
    }
  }

  /* ---------- the failure count is a gap chain ---------- */

  /** When failures were added under a key. */
  function AddTimes(history: seq<Timed>, key: string): seq<nat> {
    if history == [] then []
    else
      var before, e := AddTimes(history[..|history| - 1], key), history[|history| - 1];
      if e.op.AddOp? && FailureKey(e.op.instName, e.op.capacityType, e.op.zone) == key then before + [e.at] else before
  }

  /** When a triple's own failures were added. */
  function OwnAddTimes(history: seq<Timed>, i: string, c: string, z: string): seq<nat> {
    if history == [] then []
    else
      var before, e := OwnAddTimes(history[..|history| - 1], i, c, z), history[|history| - 1];
      if e.op == AddOp(i, c, z) then before + [e.at] else before
  }

  /** With every counted name separate from it, the adds under a triple's key are the triple's own. */
  lemma {:induction false} KeysCountOwnAdds(history: seq<Timed>, i: string, c: string, z: string)
    requires KnownCapacity(c) && forall k | 0 <= k < |history| && history[k].op.AddOp? ::
               KnownCapacity(history[k].op.capacityType) && Separate(history[k].op.instName, i)
    ensures AddTimes(history, FailureKey(i, c, z)) == OwnAddTimes(history, i, c, z)
    decreases |history|
  {
    if history != [] {
      var e := history[|history| - 1];
      KeysCountOwnAdds(history[..|history| - 1], i, c, z);
      if e.op.AddOp? {
        FailureKeyIsInjective(e.op.instName, e.op.capacityType, e.op.zone, i, c, z);
      }
    }
  }

  /** The last k adds follow each other within the hour, the last of them within an hour before now. */
  ghost predicate IsChain(times: seq<nat>, k: nat, now: nat) {
    && k <= |times|
    && (k > 0 ==> now <= times[|times| - 1] + 60 * MINUTE)
    && (forall j | |times| - k < j < |times| :: times[j] <= times[j - 1] + 60 * MINUTE)
  }

  function ChainAt(times: seq<nat>): nat {
    var n := |times|;
    if n == 0 then 0
    else if n >= 2 && times[n - 1] <= times[n - 2] + HOUR then 1 + ChainAt(times[..n - 1])
    else 1
  }

  lemma {:induction false} ChainAtIsLongest(times: seq<nat>, now: nat)
    requires times != [] && now <= times[|times| - 1] + HOUR
    ensures ChainAt(times) > 0 && IsChain(times, ChainAt(times), now)
    ensures forall k: nat | IsChain(times, k, now) :: k <= ChainAt(times)
    decreases |times|
  {
    var n := |times|;
    if n >= 2 && times[n - 1] <= times[n - 2] + HOUR {
      var before := times[..n - 1];
      ChainAtIsLongest(before, times[n - 1]);
      forall k: nat | IsChain(times, k, now) && k > 0 ensures k <= ChainAt(times) {
        assert IsChain(before, k - 1, times[n - 1]);
      }
      var m := ChainAt(before);
      forall j | n - (m + 1) < j < n ensures times[j] <= times[j - 1] + HOUR {
        if j < n - 1 {
          assert before[j] <= before[j - 1] + HOUR;
        }
      }
    } else {
      forall k: nat | IsChain(times, k, now) ensures k <= 1 {
        assert n < 2 || times[n - 1] > times[n - 2] + HOUR;
      }
    }
  }

  /** The chain of these adds, renewed at the last of them. */
  ghost predicate StoresChain(cache: Cache, key: string, times: seq<nat>) {
    if times == [] then key !in cache
    else key in cache && cache[key] == Count(ChainAt(times), times[|times| - 1] + HOUR)
  }

  lemma ChainGrows(cache: Cache, i: string, c: string, z: string, at: nat, times: seq<nat>)
    requires StoresChain(cache, FailureKey(i, c, z), times)
    ensures StoresChain(AddFailure(cache, i, c, z, at), FailureKey(i, c, z), times + [at])
  {
    assert (times + [at])[..|times|] == times;
  }

  /** What the cache stores for a triple is the chain of its key so far. */
  lemma {:induction false} StoredChain(history: seq<Timed>, i: string, c: string, z: string)
    ensures StoresChain(Replay(history), FailureKey(i, c, z), AddTimes(history, FailureKey(i, c, z)))
    decreases |history|
  {
    if history != [] {
      var before, e := history[..|history| - 1], history[|history| - 1];
      StoredChain(before, i, c, z);
      match e.op {
        case BlockOp(i', c', z') =>
          KeysDiffer(i', c', z', i, c, z);
        case AddOp(i', c', z') =>
          if FailureKey(i', c', z') == FailureKey(i, c, z) {
            ChainGrows(Replay(before), i', c', z', e.at, AddTimes(before, FailureKey(i, c, z)));
          }
      }
    }
  }

  /** The count read at any time after a history is the length of the longest gap chain of its key's adds that
      reaches that time. */
  lemma FailureCountIsGapChain(history: seq<Timed>, i: string, c: string, z: string, now: nat)
    ensures var times, count := AddTimes(history, FailureKey(i, c, z)), FailureCount(Replay(history), i, c, z, now);
            IsChain(times, count, now) && forall k: nat | IsChain(times, k, now) :: k <= count
  {
    StoredChain(history, i, c, z);
    var times := AddTimes(history, FailureKey(i, c, z));
    if times != [] && now <= times[|times| - 1] + HOUR {
      ChainAtIsLongest(times, now);
    }
  }
}
