/** Defaulting of RollingUpgrades (staging/nativenode/v1beta1/defaults.go), whose weekly periods may alias
    the shared table of weekdays. */
module RollingUpgradeDefaults {
  import opened Text
  import opened Dedup

  const WEEKDAYS := ["Monday", "Tuesday", "Wednesday", "Thursday", "Friday", "Saturday", "Sunday"]

  const HOUR: int := 3_600_000_000_000
  const MINUTE: int := 60_000_000_000

  datatype ComponentType = ComponentType(text: string)

  const NO_COMPONENT := ComponentType("")
  const DEFAULT_COMPONENTS := [ComponentType("Kubelet"), ComponentType("Rumtime")]

  /** The value of an upgrade; the two slices by their contents. */
  datatype View = View(name: string, machineSetName: string, autoUpgrade: Option<bool>, startTime: string,
                       duration: int, weekly: seq<string>, components: seq<ComponentType>, strategyType: string,
                       maxUnavailable: Option<int>, upgradeTimeout: Option<int>, ignoreFailures: Option<bool>)

  /* ---------- time.Duration.String ---------- */

  function PaddedDigits(v: nat, n: nat): string {
    if n == 0 then "" else PaddedDigits(v / 10, n - 1) + [DigitChar(v % 10)]
  }

  /** The last n decimal digits of v as a fraction, without trailing zeros, and without the point when none is left. */
  function FractionText(v: nat, n: nat): string {
    if n == 0 then ""
    else if v % 10 == 0 then FractionText(v / 10, n - 1)
    else "." + PaddedDigits(v, n)
  }

  /** A number of nanoseconds, in the largest unit below a second or in hours, minutes and seconds. */
  function NanosText(u: nat): (s: string)
    ensures s != ""
  {
    if u == 0 then "0s"
    else if u < 1_000 then NatText(u) + "ns"
    else if u < 1_000_000 then NatText(u / 1_000) + FractionText(u, 3) + "\U{B5}s"
    else if u < 1_000_000_000 then NatText(u / 1_000_000) + FractionText(u, 6) + "ms"
    else
      var seconds := u / 1_000_000_000;
      var minutes := seconds / 60;
      var text := NatText(seconds % 60) + FractionText(u, 9) + "s";
      if minutes == 0 then text
      else if minutes < 60 then NatText(minutes) + "m" + text
      else NatText(minutes / 60) + "h" + NatText(minutes % 60) + "m" + text
  }

  function DurationText(duration: int): string {
    if duration < 0 then "-" + NanosText(-duration) else NanosText(duration)
  }

  /* ---------- defaults ---------- */

  function OrElse<T>(x: Option<T>, default: T): Option<T> {
    if x.None? then Some(default) else x
  }

  /** Defaulting a list and deduplicating it. */
  function Listed<T(==,!new)>(s: seq<T>, defaults: seq<T>, empty: T): seq<T> {
    Firsts(if |s| == 0 then defaults else s, empty)
  }

  /** The fields that are no lists. */
  function ScalarDefaults(v: View): View {
    v.(autoUpgrade := OrElse(v.autoUpgrade, true),
       startTime := if v.startTime == "" then "24:00" else v.startTime,
       duration := if DurationText(v.duration) == "" then 2 * HOUR else v.duration,
       strategyType := if v.strategyType == "" then "randomUpdate" else v.strategyType,
       maxUnavailable := OrElse(v.maxUnavailable, 1),
       upgradeTimeout := OrElse(v.upgradeTimeout, 2 * MINUTE),
       ignoreFailures := OrElse(v.ignoreFailures, false))
  }

  function WithComponents(v: View): View {
    v.(components := Listed(v.components, DEFAULT_COMPONENTS, NO_COMPONENT))
  }

  function WithWeekly(v: View): View {
    v.(weekly := Listed(v.weekly, WEEKDAYS, ""))
  }

  /** One pass over the spec. */
  function SpecDefaults(v: View): View {
    WithWeekly(WithComponents(ScalarDefaults(v)))
  }

  /** SetObjectDefaults_RollingUpgrade: the name, then two passes over the spec. */
  function ObjectDefaults(v: View): View {
    SpecDefaults(SpecDefaults(v.(name := v.machineSetName)))
  }

  class RollingUpgrade {
    var name: string
    var machineSetName: string
    var autoUpgrade: Option<bool>
    var startTime: string
    var duration: int
    var weekly: array<string>
    var weeklyLen: nat
    var components: array<ComponentType>
    var componentsLen: nat
    var strategyType: string
    var maxUnavailable: Option<int>
    var upgradeTimeout: Option<int>
    var ignoreFailures: Option<bool>

    constructor (v: View)
      ensures Valid() && Current() == v && fresh(weekly) && fresh(components)
    {
      name, machineSetName, autoUpgrade, startTime, duration :=
        v.name, v.machineSetName, v.autoUpgrade, v.startTime, v.duration;
      weekly := new string[|v.weekly|](k requires 0 <= k < |v.weekly| => v.weekly[k]);
      weeklyLen := |v.weekly|;
      components := new ComponentType[|v.components|](k requires 0 <= k < |v.components| => v.components[k]);
      componentsLen := |v.components|;
      strategyType, maxUnavailable, upgradeTimeout, ignoreFailures :=
        v.strategyType, v.maxUnavailable, v.upgradeTimeout, v.ignoreFailures;
      new;
      assert weekly[..weeklyLen] == v.weekly && components[..componentsLen] == v.components;
    }

    predicate Valid()
      reads this
    {
      weeklyLen <= weekly.Length && componentsLen <= components.Length
    }

    function Current(): View
      requires Valid()
      reads this, weekly, components
    {
      View(name, machineSetName, autoUpgrade, startTime, duration, weekly[..weeklyLen], components[..componentsLen],
           strategyType, maxUnavailable, upgradeTimeout, ignoreFailures)
    }

    /** The weekly periods may become the shared table itself; compacting them in place then writes into it without
        changing it. */
    method DefaultWeekly(available: array<string>)
      requires Valid() && available[..] == WEEKDAYS
      modifies this`weekly, this`weeklyLen, weekly, available
      ensures Valid() && available[..] == WEEKDAYS && weekly in {old(weekly), available}
      ensures Current() == WithWeekly(old(Current()))
    {
      ghost var listed := components[..componentsLen];
      if weeklyLen == 0 {
        weekly, weeklyLen := available, available.Length;
        assert weekly[..weeklyLen] == WEEKDAYS;
      }
      ghost var was := weekly[..weeklyLen];
      weeklyLen := RemoveDuplicate(weekly, weeklyLen, "");
      if weekly == available {
        WeekdaysStay(was);
        assert available[..] == available[..weeklyLen] + available[weeklyLen..];
        assert WEEKDAYS == was + WEEKDAYS[|was|..];
      }
      assert components[..componentsLen] == listed;
    }

    method DefaultComponents()
      requires Valid()
      modifies this`components, this`componentsLen, components
      ensures Valid() && (components == old(components) || fresh(components))
      ensures Current() == WithComponents(old(Current()))
    {
      ghost var weeklies := weekly[..weeklyLen];
      if componentsLen == 0 {
        components := new ComponentType[2](k requires 0 <= k < 2 => DEFAULT_COMPONENTS[k]);
        componentsLen := 2;
        assert components[..componentsLen] == DEFAULT_COMPONENTS;
      }
      componentsLen := RemoveDuplicate(components, componentsLen, NO_COMPONENT);
      assert weekly[..weeklyLen] == weeklies;
    }

    method DefaultOptions()
      modifies this`autoUpgrade, this`startTime, this`duration
      ensures autoUpgrade == OrElse(old(autoUpgrade), true)
      ensures startTime == (if old(startTime) == "" then "24:00" else old(startTime))
      ensures duration == (if DurationText(old(duration)) == "" then 2 * HOUR else old(duration))
    {
      if autoUpgrade.None? {
        autoUpgrade := Some(true);
      }
      if startTime == "" {
        startTime := "24:00";
      }
      if DurationText(duration) == "" {
        assert false; // the source would set two hours here
      }
    }

    method DefaultStrategy()
      modifies this`strategyType, this`maxUnavailable, this`upgradeTimeout, this`ignoreFailures
      ensures strategyType == (if old(strategyType) == "" then "randomUpdate" else old(strategyType))
      ensures maxUnavailable == OrElse(old(maxUnavailable), 1)
      ensures upgradeTimeout == OrElse(old(upgradeTimeout), 2 * MINUTE)
      ensures ignoreFailures == OrElse(old(ignoreFailures), false)
    {
      if strategyType == "" {
        strategyType := "randomUpdate";
      }
      if maxUnavailable.None? {
        maxUnavailable := Some(1);
      }
      if upgradeTimeout.None? {
        upgradeTimeout := Some(2 * MINUTE);
      }
      if ignoreFailures.None? {
        ignoreFailures := Some(false);
      }
    }

    method DefaultScalars()
      requires Valid()
      modifies this`autoUpgrade, this`startTime, this`duration, this`strategyType, this`maxUnavailable,
               this`upgradeTimeout, this`ignoreFailures
      ensures Valid() && Current() == ScalarDefaults(old(Current()))
    {
      DefaultOptions();
      DefaultStrategy();
    }

    method SetDefaults_RollingUpgradeSpec(available: array<string>)
      requires Valid() && available[..] == WEEKDAYS
      modifies this, weekly, components, available
      ensures Valid() && available[..] == WEEKDAYS
      ensures weekly in {old(weekly), available} && (components == old(components) || fresh(components))
      ensures Current() == SpecDefaults(old(Current()))
    {
      DefaultScalars();
      DefaultComponents();
      DefaultWeekly(available);
    }

    /** The shared table is as it was at the end, aliased or not. */
    method SetObjectDefaults(available: array<string>)
      requires Valid() && available[..] == WEEKDAYS
      modifies this, weekly, components, available
      ensures Valid() && available[..] == WEEKDAYS
      ensures Current() == ObjectDefaults(old(Current()))
    {
      name := machineSetName;
      SetDefaults_RollingUpgradeSpec(available);
      SetDefaults_RollingUpgradeSpec(available);
    }
  }

  lemma WeekdaysAreDistinct()
    ensures Distinct(WEEKDAYS, "")
  {
    assert forall k | 0 <= k < 7 :: |WEEKDAYS[k]| >= 6 && WEEKDAYS[k] != "";
    assert forall k, l | 0 <= l < k < 7 :: WEEKDAYS[l][0] != WEEKDAYS[k][0] || WEEKDAYS[l][1] != WEEKDAYS[k][1];
  }

  lemma WeekdaysStay(s: seq<string>)
    requires s <= WEEKDAYS
    ensures Firsts(s, "") == s
  {
    WeekdaysAreDistinct();
    forall k | 0 <= k < |s| ensures IsFirst(s, "", k) {
      assert IsFirst(WEEKDAYS, "", k);
    }
    FirstsLaws(s, "");
  }

  lemma ComponentsAreDistinct()
    ensures Distinct(DEFAULT_COMPONENTS, NO_COMPONENT)
  {
    assert DEFAULT_COMPONENTS[0].text[0] == 'K' && DEFAULT_COMPONENTS[1].text[0] == 'R';
  }

  /** The written default of two hours never takes effect: the test for it never succeeds. */
  lemma DurationIsNeverDefaulted(v: View)
    ensures ObjectDefaults(v).duration == v.duration
  {}

  /* ---------- fixed points ---------- */

  predicate Settles<T(==,!new)>(s: seq<T>, empty: T) {
    s == [] || exists x | x in s :: x != empty
  }

  lemma {:induction false} OnlyEmptiesVanish<T(!new)>(s: seq<T>, empty: T, n: nat)
    requires !Settles(s, empty) && n <= |s|
    ensures FirstsUpTo(s, empty, n) == []
    decreases n
  {
    if n > 0 {
      OnlyEmptiesVanish(s, empty, n - 1);
      assert s[n - 1] in s;
    }
  }

  lemma ListSettles<T(!new)>(s: seq<T>, defaults: seq<T>, empty: T)
    requires defaults != [] && Distinct(defaults, empty)
    ensures var once := Listed(s, defaults, empty);
            && (Listed(once, defaults, empty) == once <==> Settles(s, empty))
            && Listed(Listed(once, defaults, empty), defaults, empty) == Listed(once, defaults, empty)
  {
    FirstsLaws(defaults, empty);
    FirstsLaws(s, empty);
    var once := Listed(s, defaults, empty);
    if s != [] {
      if Settles(s, empty) {
        var x :| x in s && x != empty;
        assert x in once;
      } else {
        OnlyEmptiesVanish(s, empty, |s|);
      }
    }
  }

  /** One pass is idempotent exactly when neither list holds only empty entries. */
  lemma OnePassIsIdempotentIff(v: View)
    ensures SpecDefaults(SpecDefaults(v)) == SpecDefaults(v) <==>
            Settles(v.weekly, "") && Settles(v.components, NO_COMPONENT)
  {
    WeekdaysAreDistinct();
    ComponentsAreDistinct();
    ListSettles(v.weekly, WEEKDAYS, "");
    ListSettles(v.components, DEFAULT_COMPONENTS, NO_COMPONENT);
  }

  /** Defaulting an upgrade twice is defaulting it once. */
  lemma ObjectDefaultsIsIdempotent(v: View)
    ensures ObjectDefaults(ObjectDefaults(v)) == ObjectDefaults(v)
  {
    WeekdaysAreDistinct();
    ComponentsAreDistinct();
    ListSettles(v.weekly, WEEKDAYS, "");
    ListSettles(v.components, DEFAULT_COMPONENTS, NO_COMPONENT);
  }
}
