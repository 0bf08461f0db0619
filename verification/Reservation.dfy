/** How much of a machine is held back: bracketed CPU and memory reservations, kdump memory, the VM
    overhead and the eviction thresholds (level.go, kdump.go and types.go of pkg/providers/instancetype).
    CPU amounts are in millicores, every other resource in its base unit. */
module Reservation {

  const MI: int := 1024 * 1024
  const GI: int := 1024 * MI

  function Ceil(x: real): (n: int)
    ensures n as real - 1.0 < x <= n as real
  {
    -(-x).Floor
  }

  /** Go's conversion of a float to an integer drops the fraction. */
  function Truncate(x: real): (n: int)
    ensures x >= 0.0 ==> n as real <= x < n as real + 1.0
  {
    if x >= 0.0 then x.Floor else Ceil(x)
  }

  /* ---------- brackets ---------- */

  datatype Level = Level(low: int, high: int, base: int, fact: real) {
    function Eval(resource: int): real {
      if resource < low then 0.0
      else if resource < high then (resource - low) as real * fact + base as real
      else (high - low) as real * fact + base as real
    }
  }

  function Total(levels: seq<Level>, resource: int): real {
    if levels == [] then 0.0 else Total(levels[..|levels| - 1], resource) + levels[|levels| - 1].Eval(resource)
  }

  method EvalLevels(levels: seq<Level>, fraction: int) returns (r: int)
    ensures r == Truncate(Total(levels, fraction))
  {
    var res := 0.0;
    for k := 0 to |levels|
      invariant res == Total(levels[..k], fraction)
    {
      res := res + levels[k].Eval(fraction);
      assert levels[..k + 1][..k] == levels[..k];
    }
    assert levels[..|levels|] == levels;
    r := Truncate(res);
  }

  const MEMORY_LEVELS := [
    Level(0, 4, 0, 0.25 * 1024.0),
    Level(4, 8, 0, 0.20 * 1024.0),
    Level(8, 16, 0, 0.1 * 1024.0),
    Level(16, 128, 0, 0.06 * 1024.0),
    Level(128, 0x8000_0000, 0, 0.02 * 1024.0)
  ]

  /** Kubernetes newer than 1.29.0-0. */
  const CPU_LEVELS := [
    Level(0, 1000, 60, 0.0),
    Level(1000, 2000, 0, 0.01),
    Level(2000, 4000, 0, 0.005),
    Level(4000, 0x8000_0000, 0, 0.0025)
  ]

  const LEGACY_CPU_LEVELS := [
    Level(0, 4000, 100, 0.0),
    Level(4000, 64000, 0, 0.025),
    Level(64000, 128000, 0, 0.0125),
    Level(128000, 0x8000_0000, 0, 0.005)
  ]

  /* ---------- kdump ---------- */

  datatype Kdump = Kdump(low: int, high: int, reserved: int) {
    function Eval(resource: int): int {
      if resource < low || resource >= high then 0 else reserved
    }
  }

  const KDUMP_LEVELS := [
    Kdump(1800 * MI, 64 * GI, 256 * MI),
    Kdump(64 * GI, 128 * GI, 512 * MI),
    Kdump(128 * GI, 0x7fff_ffff, 768 * MI)
  ]

  /** The first positive reservation, or what the last level says. */
  function ScanKdumps(levels: seq<Kdump>, resource: int): int {
    if levels == [] then 0
    else
      var res := levels[0].Eval(resource);
      if res > 0 || |levels| == 1 then res else ScanKdumps(levels[1..], resource)
  }

  method EvalKdumps(levels: seq<Kdump>, resource: int) returns (res: int)
    ensures res == ScanKdumps(levels, resource)
  {
    res := 0;
    for k := 0 to |levels|
      invariant k < |levels| ==> ScanKdumps(levels, resource) == ScanKdumps(levels[k..], resource)
      invariant k == |levels| ==> ScanKdumps(levels, resource) == res
    {
      res := levels[k].Eval(resource);
      assert levels[k..][1..] == levels[k + 1..];
      if res > 0 {
        return;
      }
    }
  }

  /** The step function the shipped levels amount to on 64-bit integers. */
  function KdumpReserved(resource: int): int {
    if resource < 1800 * MI || 128 * GI <= resource then 0
    else if resource < 64 * GI then 256 * MI
    else 512 * MI
  }

  /** The third shipped level is dead: it ends at the largest 32-bit integer, below its own start, so from
      128 GiB on nothing is reserved. */
  lemma ShippedKdumps(resource: int)
    ensures ScanKdumps(KDUMP_LEVELS, resource) == KdumpReserved(resource)
  {
    var ls := KDUMP_LEVELS;
    assert ls[1..] == [ls[1], ls[2]] && ls[1..][1..] == [ls[2]];
    assert ScanKdumps(ls[1..], resource) ==
           if ls[1].Eval(resource) > 0 then ls[1].Eval(resource) else ScanKdumps([ls[2]], resource);
    assert ScanKdumps([ls[2]], resource) == ls[2].Eval(resource);
  }

  /* ---------- capacity and overhead ---------- */

  /** Memory capacity in bytes of a machine sold with m bytes. */
  function MemoryCapacity(m: int, overheadPercent: real): int {
    Ceil((m - ScanKdumps(KDUMP_LEVELS, m)) as real * (1.0 - overheadPercent))
  }

  function KubeReservedCPU(newer: bool, milliCPU: int): int {
    Truncate(Total(if newer then CPU_LEVELS else LEGACY_CPU_LEVELS, milliCPU))
  }

  function LegacyMemory(memoryGB: int): int {
    Truncate(Total(MEMORY_LEVELS, memoryGB)) * MI
  }

  function KubeReservedMemory(newer: bool, memoryGB: int, pods: int): int {
    var byPods := (20 * pods + 256) * MI;
    if newer then (if LegacyMemory(memoryGB) < byPods then LegacyMemory(memoryGB) else byPods)
    else LegacyMemory(memoryGB)
  }

  const EVICTION_MEMORY: int := 100 * MI

  function EvictionStorage(storage: int): int {
    Ceil(storage as real / 100.0 * 10.0)
  }

  /* ---------- closed forms ---------- */

  function Clamp(x: int, high: int): real {
    if x < 0 then 0.0 else if x < high then x as real else high as real
  }

  lemma LegacyMemoryTotal(gb: int)
    requires gb >= 0
    ensures Total(MEMORY_LEVELS, gb) ==
            256.0 * Clamp(gb, 4) + 204.8 * Clamp(gb - 4, 4) + 102.4 * Clamp(gb - 8, 8)
            + 61.44 * Clamp(gb - 16, 112) + 20.48 * Clamp(gb - 128, 0x7fff_ff80)
  {
    var ls := MEMORY_LEVELS;
    assert ls[..4][..3] == ls[..3] && ls[..3][..2] == ls[..2] && ls[..2][..1] == ls[..1] && ls[..1][..0] == [];
    assert Total(ls, gb) == Total(ls[..4], gb) + ls[4].Eval(gb);
    assert Total(ls[..4], gb) == Total(ls[..3], gb) + ls[3].Eval(gb);
    assert Total(ls[..3], gb) == Total(ls[..2], gb) + ls[2].Eval(gb);
    assert Total(ls[..2], gb) == Total(ls[..1], gb) + ls[1].Eval(gb);
    assert Total(ls[..1], gb) == ls[0].Eval(gb);
  }

  lemma CPUTotals(r: int)
    requires r >= 0
    ensures Total(CPU_LEVELS, r) ==
            60.0 + 0.01 * Clamp(r - 1000, 1000) + 0.005 * Clamp(r - 2000, 2000) + 0.0025 * Clamp(r - 4000, 0x7fff_f060)
    ensures Total(LEGACY_CPU_LEVELS, r) ==
            100.0 + 0.025 * Clamp(r - 4000, 60000) + 0.0125 * Clamp(r - 64000, 64000)
            + 0.005 * Clamp(r - 128000, 0x7ffe_0c00)
  {
    FourLevels(CPU_LEVELS, r);
    FourLevels(LEGACY_CPU_LEVELS, r);
  }

  lemma FourLevels(ls: seq<Level>, r: int)
    requires |ls| == 4
    ensures Total(ls, r) == ls[0].Eval(r) + ls[1].Eval(r) + ls[2].Eval(r) + ls[3].Eval(r)
  {
    assert ls[..3][..2] == ls[..2] && ls[..2][..1] == ls[..1] && ls[..1][..0] == [];
    assert Total(ls[..3], r) == Total(ls[..2], r) + ls[2].Eval(r);
    assert Total(ls[..2], r) == Total(ls[..1], r) + ls[1].Eval(r);
    assert Total(ls[..1], r) == ls[0].Eval(r);
  }

  /* ---------- reservations fit ---------- */

  /** CPU: for every machine of at least one core something is left, and newer clusters never reserve more. */
  lemma CPUFits(milliCPU: int)
    requires milliCPU >= 1000
    ensures 0 < KubeReservedCPU(true, milliCPU) <= KubeReservedCPU(false, milliCPU) < milliCPU
  {
    CPUTotals(milliCPU);
  }

  /** Newer clusters never reserve more memory, whatever the number of pods. */
  lemma NewerReservesNoMoreMemory(newer: bool, memoryGB: int, pods: int)
    ensures KubeReservedMemory(newer, memoryGB, pods) <= KubeReservedMemory(false, memoryGB, pods)
    ensures KubeReservedMemory(false, memoryGB, pods) == LegacyMemory(memoryGB)
  {}

  ghost predicate MemoryFits(newer: bool, memoryGB: int, pods: int, overheadPercent: real) {
    KubeReservedMemory(newer, memoryGB, pods) + EVICTION_MEMORY < MemoryCapacity(memoryGB * GI, overheadPercent)
  }

  lemma KdumpOfWholeGB(gb: int)
    requires gb >= 1
    ensures KdumpReserved(gb * GI) == if gb == 1 || 128 <= gb then 0 else if gb < 64 then 256 * MI else 512 * MI
  {}

  /** What is reserved is within 89/256 of what is left after kdump; one GB is the tight case. */
  lemma ReservedShare(gb: int)
    requires gb >= 1
    ensures LegacyMemory(gb) + EVICTION_MEMORY > 0
    ensures (LegacyMemory(gb) + EVICTION_MEMORY) as real <= (gb * GI - KdumpReserved(gb * GI)) as real * (89.0 / 256.0)
  {
    LegacyMemoryTotal(gb);
    KdumpOfWholeGB(gb);
    var reserved := Truncate(Total(MEMORY_LEVELS, gb));
    var left := if gb == 1 || 128 <= gb then 1024 * gb else if gb < 64 then 1024 * gb - 256 else 1024 * gb - 512;
    assert gb * GI - KdumpReserved(gb * GI) == left * MI;
    assert reserved as real + 100.0 <= left as real * 89.0 / 256.0;
    assert (reserved + 100) * 256 <= left * 89;
  }

  lemma Scale(a: real, g: real, h: real)
    requires a > 0.0 && g < h
    ensures a * g < a * h
  {}

  lemma CeilAbove(n: int, x: real)
    requires n as real < x
    ensures n < Ceil(x)
  {}

  lemma CeilExceeds(reserved: int, left: int, f: real)
    requires left > 0 && f < 167.0 / 256.0 && reserved as real <= left as real * (89.0 / 256.0)
    ensures reserved < Ceil(left as real * (1.0 - f))
  {
    var share := 1.0 - f;
    Scale(left as real, 89.0 / 256.0, share);
    CeilAbove(reserved, left as real * share);
  }

  lemma CapacityOfGB(gb: int, f: real)
    ensures MemoryCapacity(gb * GI, f) == Ceil((gb * GI - KdumpReserved(gb * GI)) as real * (1.0 - f))
  {
    ShippedKdumps(gb * GI);
  }

  lemma CapacityExceeds(gb: int, reserved: int, f: real)
    requires gb >= 1 && f < 167.0 / 256.0
    requires reserved as real <= (gb * GI - KdumpReserved(gb * GI)) as real * (89.0 / 256.0)
    ensures reserved < MemoryCapacity(gb * GI, f)
  {
    KdumpOfWholeGB(gb);
    CapacityOfGB(gb, f);
    CeilExceeds(reserved, gb * GI - KdumpReserved(gb * GI), f);
  }

  lemma MemoryFitsBelow(newer: bool, gb: int, pods: int, overheadPercent: real)
    requires gb >= 1 && overheadPercent < 167.0 / 256.0
    ensures MemoryFits(newer, gb, pods, overheadPercent)
  {
    ReservedShare(gb);
    CapacityExceeds(gb, LegacyMemory(gb) + EVICTION_MEMORY, overheadPercent);
    NewerReservesNoMoreMemory(newer, gb, pods);
  }

  lemma OneGBIsTight(overheadPercent: real)
    requires overheadPercent >= 167.0 / 256.0
    ensures !MemoryFits(false, 1, 0, overheadPercent)
  {
    LegacyMemoryTotal(1);
    ShippedKdumps(GI);
    assert GI as real * (1.0 - overheadPercent) <= GI as real * (89.0 / 256.0);
  }

  /** Memory: the reservations fit for every size, version and pod count exactly when the configured
      overhead fraction is below 167/256; the option's own validation only rejects negative values. */
  lemma MemoryFitsIff(overheadPercent: real)
    ensures overheadPercent < 167.0 / 256.0 <==>
            forall newer: bool, gb: int, pods: int | gb >= 1 :: MemoryFits(newer, gb, pods, overheadPercent)
  {
    if overheadPercent < 167.0 / 256.0 {
      forall newer: bool, gb: int, pods: int | gb >= 1 ensures MemoryFits(newer, gb, pods, overheadPercent) {
        MemoryFitsBelow(newer, gb, pods, overheadPercent);
      }
    } else {
      OneGBIsTight(overheadPercent);
    }
  }

  /** Ephemeral storage: a tenth is held back, so something is left unless there is none. */
  lemma StorageFits(storage: int)
    requires storage >= 0 && storage % 1_000_000_000 == 0
    ensures 0 <= EvictionStorage(storage) <= storage && (storage > 0 ==> EvictionStorage(storage) < storage)
  {}
}
