/** What defaulting sets and what it keeps: the fields of a machine and of an upgrade after their generated passes
    (staging/nativenode/v1beta1/defaults.go). */
module DefaultedFields {
  import opened Text
  import opened Dedup
  import opened Defaults
  import R = RollingUpgradeDefaults

  /* ---------- disks ---------- */

  /** The same disk: its key is kept, with one it is encrypted, without one as the user set it, and it goes with the
      instance unless the user said otherwise. */
  ghost predicate DiskDefaulted(before: Disk, after: Disk) {
    && after.kmsKeyId == before.kmsKeyId
    && (before.kmsKeyId != "" ==> after.encrypt == "ENCRYPT")
    && (before.kmsKeyId == "" ==> after.encrypt == before.encrypt)
    && (before.deleteWithInstance.Some? ==> after.deleteWithInstance == before.deleteWithInstance)
    && (before.deleteWithInstance.None? ==> after.deleteWithInstance == Some(true))
  }

  ghost predicate DisksDefaulted(before: seq<Disk>, after: seq<Disk>) {
    |after| == |before| && forall k | 0 <= k < |before| :: DiskDefaulted(before[k], after[k])
  }

  lemma DisksSettle(disks: seq<Disk>)
    ensures DisksDefaulted(disks, DisksOf(disks)) && DisksOf(DisksOf(disks)) == DisksOf(disks)
  {}

  /* ---------- charges and access ---------- */

  /** Prepaid specs have terms: the user's where set, one month and a manual renewal where not; the terms of all others
      are left alone. */
  ghost predicate PrepaidDefaulted(chargeType: string, before: Option<Prepaid>, after: Option<Prepaid>) {
    if chargeType != "PrepaidCharge" then after == before
    else
      && after.Some?
      && (before.Some? && before.value.period != 0 ==> after.value.period == before.value.period)
      && (before.None? || before.value.period == 0 ==> after.value.period == 1)
      && (before.Some? && before.value.renewFlag != "" ==> after.value.renewFlag == before.value.renewFlag)
      && (before.None? || before.value.renewFlag == "" ==> after.value.renewFlag == "NotifyAndManualRenew")
  }

  /** Internet access, where there is any: what the user set is kept; else one megabit, an elastic address, and charges
      by the bandwidth package if there is one, by traffic if not. */
  ghost predicate InternetDefaulted(before: Option<Internet>, after: Option<Internet>) {
    && (before.None? <==> after.None?)
    && (before.Some? ==>
          var b, a := before.value, after.value;
          && a.bandwidthPackageID == b.bandwidthPackageID
          && (b.maxBandwidthOut != 0 ==> a.maxBandwidthOut == b.maxBandwidthOut)
          && (b.maxBandwidthOut == 0 ==> a.maxBandwidthOut == 1)
          && (b.addressType != "" ==> a.addressType == b.addressType)
          && (b.addressType == "" ==> a.addressType == "EIP")
          && (b.chargeType != "" ==> a.chargeType == b.chargeType)
          && (b.chargeType == "" && b.bandwidthPackageID != "" ==> a.chargeType == "BandwidthPackage")
          && (b.chargeType == "" && b.bandwidthPackageID == "" ==> a.chargeType == "TrafficPostpaidByHour"))
  }

  /** Nameservers: the user's, each once and without empty ones; where that leaves none, the two defaults. */
  ghost predicate NameserversDefaulted(before: seq<string>, after: seq<string>) {
    if forall x | x in before :: x == "" then after == ["183.60.83.19", "183.60.82.98"]
    else
      Distinct(after, "") && forall x :: x in after <==> x in before && x != ""
  }

  ghost predicate SpecDefaulted(before: CXMSpec, after: CXMSpec) {
    && NameserversDefaulted(before.nameservers, after.nameservers)
    && after.kernelArgs == Lasts(before.kernelArgs) && after.kubeletArgs == Lasts(before.kubeletArgs)
    && after.chargeType == (if before.chargeType == "" then "PostpaidByHour" else before.chargeType)
    && PrepaidDefaulted(after.chargeType, before.prepaid, after.prepaid)
    && after.keyIDs == Firsts(before.keyIDs, "") && after.securityGroupIDs == Firsts(before.securityGroupIDs, "")
    && DisksDefaulted(before.dataDisks, after.dataDisks) && InternetDefaulted(before.internet, after.internet)
    && after.rest == before.rest
  }

  lemma NameserversAfterThree(s: seq<string>)
    ensures NameserversDefaulted(s, NameserversOf(NameserversOf(NameserversOf(s))))
  {
    DefaultNameserversAreDistinct();
    FirstsLaws(DEFAULT_NAMESERVERS, "");
    FirstsLaws(s, "");
    NameserversSettle(s);
    var once := NameserversOf(s);
    if AllEmpty(s) {
      if s != [] {
        R.OnlyEmptiesVanish(s, "", |s|);
        assert once == [];
      }
    } else {
      assert s != [];
    }
  }

  lemma RestAfterThree(s: CXMSpec)
    ensures Defaulted(Defaulted(Defaulted(s))) ==
            Defaulted(s).(nameservers := NameserversOf(NameserversOf(NameserversOf(s.nameservers))))
  {
    RestSettles(s);
    RestSettles(Defaulted(s));
  }

  /** What three passes make of a spec, field by field. */
  lemma ThreePassesDefault(s: CXMSpec)
    ensures SpecDefaulted(s, Defaulted(Defaulted(Defaulted(s))))
  {
    RestAfterThree(s);
    NameserversAfterThree(s.nameservers);
    DisksSettle(s.dataDisks);
  }

  /* ---------- machines ---------- */

  ghost predicate AnnotationKept(before: Option<map<string, string>>, after: Option<map<string, string>>,
                                 except: string) {
    forall key | key != except ::
      (before.Some? && key in before.value <==> after.Some? && key in after.value) &&
      (before.Some? && key in before.value ==> after.value[key] == before.value[key])
  }

  ghost predicate Annotated(annotations: Option<map<string, string>>, key: string, value: string) {
    annotations.Some? && key in annotations.value && annotations.value[key] == value
  }

  /** A defaulted native machine: its spec is defaulted, a name prefix, a type and a root directory are set where the
      user set none, spot machines may be deleted by force unless the user said something about that, and prepaid and
      underwritten ones are never scaled down. */
  lemma NativeIsDefaulted(v: MachineView)
    requires v.raw.Some? && v.raw.value.Encoded? && IsNative(v)
    ensures var r := ObjectDefaults(v);
            && r.Some? && r.value.raw.Some? && r.value.raw.value.Encoded?
            && SpecDefaulted(v.raw.value.spec, r.value.raw.value.spec)
            && r.value.generateName == (if v.generateName == "" then "mc-" else v.generateName)
            && r.value.providerType == (if v.providerType == "" then "Native" else v.providerType)
  {
    ObjectDefaultsOfEncoded(v);
    ThreePassesDefault(v.raw.value.spec);
    PassesKeepNames(v);
  }

  lemma PassesKeepNames(v: MachineView)
    requires v.raw.Some? && v.raw.value.Encoded? && IsNative(v)
    ensures var r := ObjectDefaults(v);
            && r.Some? && r.value.generateName == (if v.generateName == "" then "mc-" else v.generateName)
            && r.value.providerType == (if v.providerType == "" then "Native" else v.providerType)
  {
    var u := MachineStart(v);
    SpecPassOf(u);
    SpecPassOf(SpecPass(u).value);
    ProviderPassOf(SpecPass(SpecPass(u).value).value);
  }

  function MachineStart(v: MachineView): MachineView {
    var annotations := if v.annotations.None? then map[] else v.annotations.value;
    v.(generateName := if v.generateName == "" then "mc-" else v.generateName,
       annotations := Some(if v.providerType == NATIVE_CVM && FORCE_DELETE !in annotations
                           then annotations[FORCE_DELETE := "true"] else annotations))
  }

  lemma ProviderPassKeeps(v: MachineView)
    requires ProviderPass(v).Some?
    ensures var r := ProviderPass(v).value;
            && r.generateName == v.generateName && r.runtimeRootDir == v.runtimeRootDir
            && r.annotations == v.annotations && r.specAnnotations == v.specAnnotations
            && NeverScaledDown(r.raw) == NeverScaledDown(v.raw) && IsReadable(r.raw) == IsReadable(v.raw)
  {}

  predicate IsReadable(raw: Option<Raw>) {
    raw.None? || raw.value.Encoded?
  }

  lemma SpecPassKeeps(v: MachineView)
    requires SpecPass(v).Some?
    ensures var r := SpecPass(v).value;
            && r.generateName == v.generateName && r.annotations == v.annotations
            && r.runtimeRootDir == (if v.runtimeRootDir == "" then DEFAULT_ROOT_DIR else v.runtimeRootDir)
            && r.specAnnotations ==
               (if NeverScaledDown(v.raw) then Put(v.specAnnotations, SCALE_DOWN_DISABLED, "true")
                else v.specAnnotations)
            && NeverScaledDown(r.raw) == NeverScaledDown(v.raw) && IsReadable(r.raw) == IsReadable(v.raw)
  {
    var u := v.(runtimeRootDir := if v.runtimeRootDir == "" then DEFAULT_ROOT_DIR else v.runtimeRootDir);
    var w := if NeverScaledDown(u.raw) then u.(specAnnotations := Put(u.specAnnotations, SCALE_DOWN_DISABLED, "true"))
      else u;
    if IsReadable(v.raw) {
      assert SpecPass(v) == ProviderPass(w);
      ProviderPassKeeps(w);
    }
  }

  /** The three passes leave the annotations the first one starts with, and add the one of prepaid specs. */
  lemma PassesKeep(v: MachineView)
    requires ObjectDefaults(v).Some?
    ensures var r, u := ObjectDefaults(v).value, MachineStart(v);
            && r.generateName == u.generateName && r.annotations == u.annotations
            && r.runtimeRootDir == (if v.runtimeRootDir == "" then DEFAULT_ROOT_DIR else v.runtimeRootDir)
            && r.specAnnotations ==
               (if NeverScaledDown(v.raw) then Put(v.specAnnotations, SCALE_DOWN_DISABLED, "true")
                else v.specAnnotations)
  {
    var u := MachineStart(v);
    assert MachinePass(v) == SpecPass(u);
    var once := SpecPass(u).value;
    SpecPassKeeps(u);
    var twice := SpecPass(once).value;
    SpecPassKeeps(once);
    ProviderPassKeeps(twice);
    PutTwice(v.specAnnotations, SCALE_DOWN_DISABLED, "true");
  }

  lemma PutTwice(m: Option<map<string, string>>, key: string, value: string)
    ensures Put(Put(m, key, value), key, value) == Put(m, key, value)
  {
    var once := Put(m, key, value).value;
    assert once[key := value] == once;
  }

  /** The fields of every machine that does not make defaulting panic, native or not, readable or not. */
  lemma MachineIsDefaulted(v: MachineView)
    requires ObjectDefaults(v).Some?
    ensures var r := ObjectDefaults(v).value;
            && r.generateName == (if v.generateName == "" then "mc-" else v.generateName)
            && r.runtimeRootDir == (if v.runtimeRootDir == "" then "/var/lib/containerd" else v.runtimeRootDir)
            && r.annotations.Some? && AnnotationKept(v.annotations, r.annotations, FORCE_DELETE)
            && AnnotationKept(v.specAnnotations, r.specAnnotations, SCALE_DOWN_DISABLED)
  {
    PassesKeep(v);
  }

  /** Specs of other kinds of machines, and specs that do not decode, are left as they are, and so is a type the user
      gave. */
  lemma OtherSpecsAreKept(v: MachineView)
    requires ObjectDefaults(v).Some?
    ensures var r := ObjectDefaults(v).value;
            && (v.providerType != "" ==> r.providerType == v.providerType)
            && (v.providerType !in {"", "Native", "NativeCVM"} ==> r.raw == v.raw)
            && (v.raw.Some? && v.raw.value.Malformed? ==> r.raw == v.raw)
            && (v.raw.None? <==> r.raw.None?)
  {}

  /** Machines that can be spot ones may be deleted by force, unless the user said something about that. */
  lemma ForceDeleteIsDefaulted(v: MachineView)
    requires ObjectDefaults(v).Some?
    ensures var r, key := ObjectDefaults(v).value, "node.tke.cloud.tencent.com/force-delete";
            if v.annotations.Some? &&
              key in v.annotations.value then Annotated(r.annotations, key, v.annotations.value[key])
            else if v.providerType == "NativeCVM" then Annotated(r.annotations, key, "true")
            else r.annotations.Some? && key !in r.annotations.value
  {
    PassesKeep(v);
  }

  /** The annotation against scaling down is added exactly for readable prepaid or underwritten specs, whatever the
      machine's type. */
  lemma ScaleDownIsDisabled(v: MachineView)
    requires ObjectDefaults(v).Some? && v.raw.Some? && v.raw.value.Encoded?
    ensures var r, key := ObjectDefaults(v).value, "cluster-autoscaler.kubernetes.io/scale-down-disabled";
            if v.raw.value.spec.chargeType in {"PrepaidCharge", "Underwrite"} then Annotated(r.specAnnotations, key,
                                                                                             "true")
            else r.specAnnotations == v.specAnnotations
  {
    PassesKeep(v);
  }

  /* ---------- upgrades ---------- */

  /** The entries the user gave, each once and without empty ones; where that leaves none, the defaults. */
  ghost predicate ListDefaulted<T(!new)>(before: seq<T>, after: seq<T>, defaults: seq<T>, empty: T) {
    if forall x | x in before :: x == empty then after == defaults
    else
      Distinct(after, empty) && forall x :: x in after <==> x in before && x != empty
  }

  lemma ListedTwice<T(!new)>(s: seq<T>, defaults: seq<T>, empty: T)
    requires defaults != [] && Distinct(defaults, empty)
    ensures ListDefaulted(s, R.Listed(R.Listed(s, defaults, empty), defaults, empty), defaults, empty)
  {
    FirstsLaws(defaults, empty);
    FirstsLaws(s, empty);
    R.ListSettles(s, defaults, empty);
    if forall x | x in s :: x == empty {
      if s != [] {
        R.OnlyEmptiesVanish(s, empty, |s|);
      }
    }
  }

  /** A defaulted upgrade has the name of its machine set, and in every other field what the user set or, where that is
      nothing, the default. */
  lemma UpgradeIsDefaulted(v: R.View)
    ensures var r := R.ObjectDefaults(v);
            && r.name == v.machineSetName && r.machineSetName == v.machineSetName && r.duration == v.duration
            && (v.autoUpgrade.Some? ==> r.autoUpgrade == v.autoUpgrade)
            && (v.autoUpgrade.None? ==> r.autoUpgrade == Some(true))
            && (v.startTime != "" ==> r.startTime == v.startTime) && (v.startTime == "" ==> r.startTime == "24:00")
            && (v.strategyType != "" ==> r.strategyType == v.strategyType)
            && (v.strategyType == "" ==> r.strategyType == "randomUpdate")
  {}

  lemma UpgradeLimitsAreDefaulted(v: R.View)
    ensures var r := R.ObjectDefaults(v);
            && (v.maxUnavailable.Some? ==> r.maxUnavailable == v.maxUnavailable)
            && (v.maxUnavailable.None? ==> r.maxUnavailable == Some(1))
            && (v.upgradeTimeout.Some? ==> r.upgradeTimeout == v.upgradeTimeout)
            && (v.upgradeTimeout.None? ==> r.upgradeTimeout == Some(120_000_000_000))
            && (v.ignoreFailures.Some? ==> r.ignoreFailures == v.ignoreFailures)
            && (v.ignoreFailures.None? ==> r.ignoreFailures == Some(false))
  {}

  /** Its weekly periods and components are the user's, without repetitions and empty ones, or all seven days and both
      components. */
  lemma UpgradeListsAreDefaulted(v: R.View)
    ensures var r := R.ObjectDefaults(v);
            && ListDefaulted(v.weekly, r.weekly,
                             ["Monday", "Tuesday", "Wednesday", "Thursday", "Friday", "Saturday", "Sunday"], "")
            && ListDefaulted(v.components, r.components, [R.ComponentType("Kubelet"), R.ComponentType("Rumtime")],
                             R.ComponentType(""))
  {
    R.WeekdaysAreDistinct();
    R.ComponentsAreDistinct();
    ListedTwice(v.weekly, R.WEEKDAYS, "");
    ListedTwice(v.components, R.DEFAULT_COMPONENTS, R.NO_COMPONENT);
  }
}
