/** Defaulting of Machines and RollingUpgrades through pointers
    (staging/nativenode/v1beta1/defaults.go and zz_generated.defaults.go). */
module Defaults {
  import opened Text
  import opened Dedup

  const DEFAULT_NAMESERVERS := ["183.60.83.19", "183.60.82.98"]
  const DEFAULT_ROOT_DIR := "/var/lib/containerd"
  const FORCE_DELETE := "node.tke.cloud.tencent.com/force-delete"
  const SCALE_DOWN_DISABLED := "cluster-autoscaler.kubernetes.io/scale-down-disabled"

  const NATIVE := "Native"
  const NATIVE_CVM := "NativeCVM"
  const PREPAID := "PrepaidCharge"
  const UNDERWRITE := "Underwrite"
  const POSTPAID := "PostpaidByHour"

  /* ---------- the provider spec ---------- */

  datatype Prepaid = Prepaid(period: int, renewFlag: string)

  datatype Disk = Disk(deleteWithInstance: Option<bool>, kmsKeyId: string, encrypt: string)

  datatype Internet = Internet(maxBandwidthOut: int, chargeType: string, bandwidthPackageID: string,
                               addressType: string)

  /** The defaulted fields of the CXM provider spec; rest stands for all others. */
  datatype CXMSpec = CXMSpec(nameservers: seq<string>, kernelArgs: seq<string>, kubeletArgs: seq<string>,
                             chargeType: string, prepaid: Option<Prepaid>, keyIDs: seq<string>,
                             securityGroupIDs: seq<string>, dataDisks: seq<Disk>, internet: Option<Internet>,
                             rest: string)

  /** The encoded spec: what decodes, under an exact codec, and what does not. */
  datatype Raw = Malformed(bytes: string) | Encoded(spec: CXMSpec)

  function NameserversOf(s: seq<string>): seq<string> {
    Firsts(if |s| == 0 then DEFAULT_NAMESERVERS else s, "")
  }

  function ChargeTypeOf(chargeType: string): string {
    if chargeType == "" then POSTPAID else chargeType
  }

  function PrepaidOf(chargeType: string, prepaid: Option<Prepaid>): Option<Prepaid> {
    if chargeType != PREPAID then prepaid
    else
      var p := if prepaid.None? then Prepaid(0, "") else prepaid.value;
      Some(Prepaid(if p.period == 0 then 1 else p.period,
                   if p.renewFlag == "" then "NotifyAndManualRenew" else p.renewFlag))
  }

  function DiskOf(d: Disk): Disk {
    Disk(if d.deleteWithInstance.None? then Some(true) else d.deleteWithInstance, d.kmsKeyId,
         if d.kmsKeyId != "" then "ENCRYPT" else d.encrypt)
  }

  function DisksOf(disks: seq<Disk>): (r: seq<Disk>)
    ensures |r| == |disks| && forall k | 0 <= k < |disks| :: r[k] == DiskOf(disks[k])
  {
    seq(|disks|, k requires 0 <= k < |disks| => DiskOf(disks[k]))
  }

  function InternetOf(i: Internet): Internet {
    Internet(if i.maxBandwidthOut == 0 then 1 else i.maxBandwidthOut,
             if i.chargeType != "" then i.chargeType
             else if i.bandwidthPackageID != "" then "BandwidthPackage" else "TrafficPostpaidByHour",
             i.bandwidthPackageID,
             if i.addressType == "" then "EIP" else i.addressType)
  }

  /** One pass over the provider spec. */
  function Defaulted(s: CXMSpec): CXMSpec {
    CXMSpec(NameserversOf(s.nameservers), Lasts(s.kernelArgs), Lasts(s.kubeletArgs), ChargeTypeOf(s.chargeType),
            PrepaidOf(ChargeTypeOf(s.chargeType), s.prepaid), Firsts(s.keyIDs, ""), Firsts(s.securityGroupIDs, ""),
            DisksOf(s.dataDisks), if s.internet.None? then None else Some(InternetOf(s.internet.value)), s.rest)
  }

  function DefaultedRaw(raw: Raw): Raw {
    match raw
    case Malformed(_) => raw
    case Encoded(s) => Encoded(Defaulted(s))
  }

  class RawExtension {
    var raw: Raw

    constructor (raw: Raw)
      ensures this.raw == raw
    {
      this.raw := raw;
    }
  }

  method Deduplicate(s: seq<string>) returns (r: seq<string>)
    ensures r == Firsts(s, "")
  {
    var a := new string[|s|](k requires 0 <= k < |s| => s[k]);
    assert a[..] == s && a[..a.Length] == s;
    var n := RemoveDuplicate(a, a.Length, "");
    r := a[..n];
  }

  method DeduplicatePairs(s: seq<string>) returns (r: seq<string>)
    ensures r == Lasts(s)
  {
    var a := new string[|s|](k requires 0 <= k < |s| => s[k]);
    assert a[..] == s;
    r := RemoveDuplicateKVPairs(a);
  }

  /** Decode, default field by field, encode into the same extension. */
  method SetDefaults_CXMMachineProviderSpec(value: RawExtension)
    modifies value
    ensures value.raw == DefaultedRaw(old(value.raw))
  {
    if value.raw.Malformed? {
      return;
    }
    var obj := value.raw.spec;
    if |obj.nameservers| == 0 {
      obj := obj.(nameservers := obj.nameservers + DEFAULT_NAMESERVERS);
      assert obj.nameservers == DEFAULT_NAMESERVERS;
    }
    var nameservers := Deduplicate(obj.nameservers);
    var kernelArgs := DeduplicatePairs(obj.kernelArgs);
    var kubeletArgs := DeduplicatePairs(obj.kubeletArgs);
    obj := obj.(nameservers := nameservers, kernelArgs := kernelArgs, kubeletArgs := kubeletArgs);
    if obj.chargeType == "" {
      obj := obj.(chargeType := POSTPAID);
    }
    if obj.chargeType == PREPAID {
      var p := if obj.prepaid.None? then Prepaid(0, "") else obj.prepaid.value;
      if p.renewFlag == "" {
        p := p.(renewFlag := "NotifyAndManualRenew");
      }
      if p.period == 0 {
        p := p.(period := 1);
      }
      obj := obj.(prepaid := Some(p));
    }
    var keyIDs := Deduplicate(obj.keyIDs);
    var securityGroupIDs := Deduplicate(obj.securityGroupIDs);
    var disks := DefaultDisks(obj.dataDisks);
    obj := obj.(keyIDs := keyIDs, securityGroupIDs := securityGroupIDs, dataDisks := disks);
    if obj.internet.Some? {
      var internet := DefaultInternet(obj.internet.value);
      obj := obj.(internet := Some(internet));
    }
    value.raw := Encoded(obj);
  }

  method DefaultDisks(dataDisks: seq<Disk>) returns (newDataDisks: seq<Disk>)
    ensures newDataDisks == DisksOf(dataDisks)
  {
    newDataDisks := [];
    for k := 0 to |dataDisks|
      invariant |newDataDisks| == k && forall l | 0 <= l < k :: newDataDisks[l] == DiskOf(dataDisks[l])
    {
      var disk := dataDisks[k];
      if disk.deleteWithInstance.None? {
        disk := disk.(deleteWithInstance := Some(true));
      }
      if disk.kmsKeyId != "" {
        disk := disk.(encrypt := "ENCRYPT");
      }
      newDataDisks := newDataDisks + [disk];
    }
  }

  method DefaultInternet(i: Internet) returns (r: Internet)
    ensures r == InternetOf(i)
  {
    r := i;
    if r.maxBandwidthOut == 0 {
      r := r.(maxBandwidthOut := 1);
    }
    if r.bandwidthPackageID != "" && r.chargeType == "" {
      r := r.(chargeType := "BandwidthPackage");
    }
    if r.chargeType == "" {
      r := r.(chargeType := "TrafficPostpaidByHour");
    }
    if r.addressType == "" {
      r := r.(addressType := "EIP");
    }
  }

  /* ---------- machines ---------- */

  /** A machine's defaulted fields; raw is None when there is no extension at all. */
  datatype MachineView = MachineView(generateName: string, annotations: Option<map<string, string>>,
                                     specAnnotations: Option<map<string, string>>, runtimeRootDir: string,
                                     providerType: string, raw: Option<Raw>)

  function Put(m: Option<map<string, string>>, key: string, value: string): Option<map<string, string>> {
    Some((if m.None? then map[] else m.value)[key := value])
  }

  /** SetDefaults_ProviderSpec; None where the source writes through a nil extension and panics. */
  function ProviderPass(v: MachineView): Option<MachineView> {
    var v := v.(providerType := if v.providerType == "" then NATIVE else v.providerType);
    if v.providerType != NATIVE && v.providerType != NATIVE_CVM then Some(v)
    else if v.raw.None? then None
    else Some(v.(raw := Some(DefaultedRaw(v.raw.value))))
  }

  predicate NeverScaledDown(raw: Option<Raw>) {
    raw.Some? && raw.value.Encoded? && (raw.value.spec.chargeType == PREPAID || raw.value.spec.chargeType == UNDERWRITE)
  }

  /** SetDefaults_MachineSpec; an undecodable spec ends it early. */
  function SpecPass(v: MachineView): Option<MachineView> {
    var v := v.(runtimeRootDir := if v.runtimeRootDir == "" then DEFAULT_ROOT_DIR else v.runtimeRootDir);
    if v.raw.Some? && v.raw.value.Malformed? then Some(v)
    else
      ProviderPass(if NeverScaledDown(v.raw)
                   then v.(specAnnotations := Put(v.specAnnotations, SCALE_DOWN_DISABLED, "true")) else v)
  }

  /** SetDefaults_Machine. */
  function MachinePass(v: MachineView): Option<MachineView> {
    var annotations := if v.annotations.None? then map[] else v.annotations.value;
    var annotations := if v.providerType == NATIVE_CVM && FORCE_DELETE !in annotations
                       then annotations[FORCE_DELETE := "true"] else annotations;
    SpecPass(v.(generateName := if v.generateName == "" then "mc-" else v.generateName,
                annotations := Some(annotations)))
  }

  function Then(v: Option<MachineView>, pass: MachineView -> Option<MachineView>): Option<MachineView> {
    if v.None? then None else pass(v.value)
  }

  /** SetObjectDefaults_Machine: three provider-spec passes. */
  function ObjectDefaults(v: MachineView): Option<MachineView> {
    Then(Then(MachinePass(v), SpecPass), ProviderPass)
  }

  class Machine {
    var generateName: string
    var annotations: Option<map<string, string>>
    var specAnnotations: Option<map<string, string>>
    var runtimeRootDir: string
    var providerType: string
    const value: RawExtension?

    constructor (v: MachineView)
      ensures View() == v && (value == null || fresh(value))
    {
      generateName, annotations, specAnnotations := v.generateName, v.annotations, v.specAnnotations;
      runtimeRootDir, providerType := v.runtimeRootDir, v.providerType;
      if v.raw.Some? {
        value := new RawExtension(v.raw.value);
      } else {
        value := null;
      }
    }

    function View(): MachineView
      reads this, value
    {
      MachineView(generateName, annotations, specAnnotations, runtimeRootDir, providerType,
                  if value == null then None else Some(value.raw))
    }

    method SetDefaults_ProviderSpec() returns (panics: bool)
      modifies this, value
      ensures panics == ProviderPass(old(View())).None?
      ensures !panics ==> View() == ProviderPass(old(View())).value
    {
      if providerType == "" {
        providerType := NATIVE;
      }
      if providerType == NATIVE || providerType == NATIVE_CVM {
        if value == null {
          return true;
        }
        SetDefaults_CXMMachineProviderSpec(value);
      }
      return false;
    }

    method SetDefaults_MachineSpec() returns (panics: bool)
      modifies this, value
      ensures panics == SpecPass(old(View())).None?
      ensures !panics ==> View() == SpecPass(old(View())).value
    {
      if runtimeRootDir == "" {
        runtimeRootDir := DEFAULT_ROOT_DIR;
      }
      if value != null && value.raw.Malformed? {
        return false;
      }
      var chargeType := if value == null then "" else value.raw.spec.chargeType;
      if chargeType == PREPAID || chargeType == UNDERWRITE {
        if specAnnotations.None? {
          specAnnotations := Some(map[]);
        }
        specAnnotations := Some(specAnnotations.value[SCALE_DOWN_DISABLED := "true"]);
      }
      panics := SetDefaults_ProviderSpec();
    }

    method SetDefaults_Machine() returns (panics: bool)
      modifies this, value
      ensures panics == MachinePass(old(View())).None?
      ensures !panics ==> View() == MachinePass(old(View())).value
    {
      if generateName == "" {
        generateName := "mc-";
      }
      if annotations.None? {
        annotations := Some(map[]);
      }
      if providerType == NATIVE_CVM {
        if FORCE_DELETE !in annotations.value {
          annotations := Some(annotations.value[FORCE_DELETE := "true"]);
        }
      }
      panics := SetDefaults_MachineSpec();
    }

    method SetObjectDefaults() returns (panics: bool)
      modifies this, value
      ensures panics == ObjectDefaults(old(View())).None?
      ensures !panics ==> View() == ObjectDefaults(old(View())).value
    {
      panics := SetDefaults_Machine();
      if panics { return; }
      panics := SetDefaults_MachineSpec();
      if panics { return; }
      panics := SetDefaults_ProviderSpec();
    }
  }

  /* ---------- fixed points of the provider spec ---------- */

  predicate AllEmpty(s: seq<string>) {
    forall x | x in s :: x == ""
  }

  lemma DefaultNameserversAreDistinct()
    ensures Distinct(DEFAULT_NAMESERVERS, "")
  {
    assert DEFAULT_NAMESERVERS[0][8] != DEFAULT_NAMESERVERS[1][8];
  }

  /** One pass over the nameservers is a fixed point unless it empties a list that was not empty. */
  lemma NameserversSettle(s: seq<string>)
    ensures var once := NameserversOf(s);
            && (NameserversOf(once) == once <==> s == [] || !AllEmpty(s))
            && NameserversOf(NameserversOf(once)) == NameserversOf(once)
  {
    DefaultNameserversAreDistinct();
    FirstsLaws(DEFAULT_NAMESERVERS, "");
    FirstsLaws(s, "");
    var once := NameserversOf(s);
    if s != [] {
      if AllEmpty(s) {
        assert forall k | 0 <= k < |once| :: once[k] in once;
      } else {
        var x :| x in s && x != "";
        assert x in once;
      }
    }
  }

  lemma RestSettles(s: CXMSpec)
    ensures var once, twice := Defaulted(s), Defaulted(Defaulted(s));
            twice == once.(nameservers := NameserversOf(once.nameservers))
  {
    LastsLaws(s.kernelArgs);
    LastsLaws(s.kubeletArgs);
    FirstsLaws(s.keyIDs, "");
    FirstsLaws(s.securityGroupIDs, "");
    var once := Defaulted(s);
    assert DisksOf(once.dataDisks) == once.dataDisks;
  }

  /** One provider-spec pass is idempotent exactly when the nameserver list is empty or holds something. */
  lemma OnePassIsIdempotentIff(s: CXMSpec)
    ensures Defaulted(Defaulted(s)) == Defaulted(s) <==> s.nameservers == [] || !AllEmpty(s.nameservers)
  {
    RestSettles(s);
    NameserversSettle(s.nameservers);
  }

  /** Two passes always reach a fixed point. */
  lemma TwoPassesSettle(s: CXMSpec)
    ensures Defaulted(Defaulted(Defaulted(s))) == Defaulted(Defaulted(s))
  {
    RestSettles(s);
    RestSettles(Defaulted(s));
    NameserversSettle(s.nameservers);
  }

  /* ---------- fixed points of the machine ---------- */

  /** The source panics exactly on native machines, or machines of no type, without an extension. */
  lemma PanicsIff(v: MachineView)
    ensures ObjectDefaults(v).None? <==> v.raw.None? && v.providerType in {"", NATIVE, NATIVE_CVM}
  {}

  predicate IsNative(v: MachineView) {
    v.providerType in {"", NATIVE, NATIVE_CVM}
  }

  /** What every pass establishes: a type, a root directory, and the annotation of prepaid specs. */
  ghost predicate SpecSettled(v: MachineView) {
    && v.runtimeRootDir != "" && v.providerType != ""
    && (NeverScaledDown(v.raw) ==>
          v.specAnnotations.Some? && SCALE_DOWN_DISABLED in v.specAnnotations.value &&
          v.specAnnotations.value[SCALE_DOWN_DISABLED] == "true")
  }

  lemma ProviderPassOf(v: MachineView)
    requires v.raw.Some? && v.raw.value.Encoded? && IsNative(v)
    ensures ProviderPass(v) ==
            Some(v.(providerType := if v.providerType == "" then NATIVE else v.providerType,
                    raw := Some(Encoded(Defaulted(v.raw.value.spec)))))
    ensures NeverScaledDown(ProviderPass(v).value.raw) == NeverScaledDown(v.raw)
  {}

  lemma SpecPassOf(v: MachineView)
    requires v.raw.Some? && v.raw.value.Encoded? && IsNative(v)
    ensures SpecPass(v).Some? && SpecSettled(SpecPass(v).value)
    ensures var w := SpecPass(v).value;
            && w.raw == Some(Encoded(Defaulted(v.raw.value.spec))) && NeverScaledDown(w.raw) == NeverScaledDown(v.raw)
            && w.providerType == (if v.providerType == "" then NATIVE else v.providerType)
            && w.generateName == v.generateName && w.annotations == v.annotations
  {
    var u := v.(runtimeRootDir := if v.runtimeRootDir == "" then DEFAULT_ROOT_DIR else v.runtimeRootDir);
    ProviderPassOf(u);
    ProviderPassOf(u.(specAnnotations := Put(u.specAnnotations, SCALE_DOWN_DISABLED, "true")));
  }

  /** What the three passes make of a native machine that has an encoded spec. */
  lemma ObjectDefaultsOfEncoded(v: MachineView)
    requires v.raw.Some? && v.raw.value.Encoded? && IsNative(v)
    ensures var s := v.raw.value.spec; var r := ObjectDefaults(v);
            && r.Some? && r.value.raw == Some(Encoded(Defaulted(Defaulted(Defaulted(s)))))
            && SpecSettled(r.value) && r.value.generateName != "" && r.value.annotations.Some? && IsNative(r.value)
            && (r.value.providerType == NATIVE_CVM ==> FORCE_DELETE in r.value.annotations.value)
  {
    var annotations := if v.annotations.None? then map[] else v.annotations.value;
    var annotated := if v.providerType == NATIVE_CVM && FORCE_DELETE !in annotations
                     then annotations[FORCE_DELETE := "true"] else annotations;
    var u := v.(generateName := if v.generateName == "" then "mc-" else v.generateName, annotations := Some(annotated));
    SpecPassOf(u);
    SpecPassOf(SpecPass(u).value);
    ProviderPassOf(SpecPass(SpecPass(u).value).value);
  }

  lemma SettledMachine(v: MachineView)
    requires v.generateName != "" && v.annotations.Some? && SpecSettled(v)
    requires v.providerType == NATIVE_CVM ==> FORCE_DELETE in v.annotations.value
    requires IsNative(v) ==> v.raw.Some? && DefaultedRaw(v.raw.value) == v.raw.value
    ensures ObjectDefaults(v) == Some(v)
  {
    if NeverScaledDown(v.raw) {
      assert v.specAnnotations.value[SCALE_DOWN_DISABLED := "true"] == v.specAnnotations.value;
    }
  }

  /** Defaulting a machine twice is defaulting it once, whatever its type, spec and annotations. */
  lemma ObjectDefaultsIsIdempotent(v: MachineView)
    requires ObjectDefaults(v).Some?
    ensures ObjectDefaults(ObjectDefaults(v).value) == ObjectDefaults(v)
  {
    var w := ObjectDefaults(v).value;
    if v.raw.Some? && v.raw.value.Encoded? && IsNative(v) {
      ObjectDefaultsOfEncoded(v);
      TwoPassesSettle(v.raw.value.spec);
    }
    SettledMachine(w);
  }
}
