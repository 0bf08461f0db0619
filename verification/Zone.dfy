/** The zone provider of pkg/providers/zone/zone.go with its shipped region table. */
module Zone {
  import opened Text
  import opened ZoneCodec

  /** One region: the dash-separated parts of its name, and the base of its window of zone IDs. */
  datatype Group = Group(parts: seq<string>, base: int)

  const GROUPS: seq<Group> := [
    Group(["ap", "guangzhou"], 100000),
    Group(["ap", "shenzhen", "fsi"], 110000),
    Group(["ap", "guangzhou", "open"], 120000),
    Group(["na", "siliconvalley"], 150000),
    Group(["ap", "chengdu"], 160000),
    Group(["eu", "frankfurt"], 170000),
    Group(["ap", "seoul"], 180000),
    Group(["ap", "chongqing"], 190000),
    Group(["ap", "shanghai"], 200000),
    Group(["ap", "mumbai"], 210000),
    Group(["na", "ashburn"], 220000),
    Group(["ap", "bangkok"], 230000),
    Group(["ap", "tokyo"], 250000),
    Group(["ap", "hongkong"], 300000),
    Group(["ap", "jinan", "ec"], 310000),
    Group(["ap", "hangzhou", "ec"], 320000),
    Group(["ap", "nanjing"], 330000),
    Group(["ap", "fuzhou", "ec"], 340000),
    Group(["ap", "wuhan", "ec"], 350000),
    Group(["ap", "tianjin"], 360000),
    Group(["ap", "shenzhen"], 370000),
    Group(["ap", "taipei"], 390000),
    Group(["na", "toronto"], 400000),
    Group(["ap", "changsha", "ec"], 450000),
    Group(["ap", "beijing", "fsi"], 460000),
    Group(["ap", "shijiazhuang", "ec"], 530000),
    Group(["ap", "qingyuan"], 540000),
    Group(["ap", "hefei", "ec"], 550000),
    Group(["ap", "shenyang", "ec"], 560000),
    Group(["ap", "xian", "ec"], 570000),
    Group(["ap", "xibei", "ec"], 580000),
    Group(["ap", "shanghai", "fsi"], 700000),
    Group(["ap", "zhengzhou", "ec"], 710000),
    Group(["ap", "jakarta"], 720000),
    Group(["sa", "saopaulo"], 740000),
    Group(["ap", "shanghai", "adc"], 780000),
    Group(["ap", "beijing"], 800000),
    Group(["ap", "guangzhou", "wxzf"], 820000),
    Group(["ap", "shanghai", "wxzf"], 830000),
    Group(["ap", "singapore"], 900000)
  ]

  /** The map literal of the provider: region name to base. */
  function Table(groups: seq<Group>): map<string, int>
    requires forall g | g in groups :: |g.parts| >= 1
  {
    if groups == [] then map[]
    else
      var last := groups[|groups| - 1];
      Table(groups[..|groups| - 1])[JoinDash(last.parts) := last.base]
  }

  /* ---------- the provider ---------- */

  class DefaultProvider {
    const zoneGroups: map<string, int>

    constructor ()
      ensures zoneGroups == Table(GROUPS) && ValidTable(zoneGroups)
    {
      ShippedTableIsValid();
      zoneGroups := Table(GROUPS);
    }

    /** A scan of the map in an order nobody controls. */
    method ZoneFromID(id: string) returns (r: Result<string>)
      requires Disjoint(zoneGroups)
      ensures r == ZoneOf(zoneGroups, id)
    {
      var parsed := Atoi(id);
      if parsed.None? {
        return Err("failed to convert id");
      }
      var n := parsed.value;
      var remaining := zoneGroups.Keys;
      while remaining != {}
        invariant remaining <= zoneGroups.Keys
        invariant forall region | InWindow(zoneGroups, region, n) :: region in remaining
        decreases |remaining|
      {
        var region :| region in remaining;
        if zoneGroups[region] < n && n < zoneGroups[region] + 1000 {
          assert InWindow(zoneGroups, region, n);
          return Ok(region + "-" + Itoa(n - zoneGroups[region]));
        }
        remaining := remaining - {region};
      }
      return Err("failed to find zone for id");
    }

    /** The slice of parts is rewritten in place: its head becomes the region name. */
    method IDFromZone(zone: string) returns (r: Result<string>)
      ensures r == IDOf(zoneGroups, zone)
    {
      var parts := Split(zone, '-');
      if |parts| < 3 {
        return Err("invalid zone");
      }
      var zoneSlice := new string[|parts|](i requires 0 <= i < |parts| => parts[i]);
      if zoneSlice.Length == 4 {
        zoneSlice[0] := zoneSlice[0] + "-" + zoneSlice[1] + "-" + zoneSlice[2];
        zoneSlice[2] := zoneSlice[3];
      } else {
        zoneSlice[0] := zoneSlice[0] + "-" + zoneSlice[1];
      }
      assert (zoneSlice[0], zoneSlice[2]) == RegionAndNumber(parts);
      var idNum := Atoi(zoneSlice[2]);
      if idNum.None? {
        return Err("invalid zone");
      }
      if zoneSlice[0] in zoneGroups {
        return Ok(Itoa(Add64(zoneGroups[zoneSlice[0]], idNum.value)));
      }
      return Err("failed to find zone");
    }
  }

  /* ---------- the shipped table is a valid one ---------- */

  lemma PartsAreDashFree()
    ensures
      DashFree("adc") && DashFree("ap") && DashFree("ashburn") && DashFree("bangkok") && DashFree("beijing") &&
      DashFree("changsha") && DashFree("chengdu") && DashFree("chongqing") && DashFree("ec") &&
      DashFree("eu") && DashFree("frankfurt") && DashFree("fsi") && DashFree("fuzhou") &&
      DashFree("guangzhou") && DashFree("hangzhou") && DashFree("hefei") && DashFree("hongkong") &&
      DashFree("jakarta") && DashFree("jinan") && DashFree("mumbai") && DashFree("na") &&
      DashFree("nanjing") && DashFree("open") && DashFree("qingyuan") && DashFree("sa") &&
      DashFree("saopaulo") && DashFree("seoul") && DashFree("shanghai") && DashFree("shenyang") &&
      DashFree("shenzhen") && DashFree("shijiazhuang") && DashFree("siliconvalley") && DashFree("singapore") &&
      DashFree("taipei") && DashFree("tianjin") && DashFree("tokyo") && DashFree("toronto") &&
      DashFree("wuhan") && DashFree("wxzf") && DashFree("xian") && DashFree("xibei") && DashFree("zhengzhou")
  {}

  lemma GroupShape(k: nat)
    requires k < |GROUPS|
    ensures 2 <= |GROUPS[k].parts| <= 3
    ensures forall p | p in GROUPS[k].parts :: DashFree(p)
  {
    PartsAreDashFree();
  }

  lemma NextBase(k: nat)
    requires k + 1 < |GROUPS|
    ensures 0 < GROUPS[k].base && GROUPS[k].base + 10000 <= GROUPS[k + 1].base < 1_000_000
  {}

  lemma {:induction false} BasesAscend(k: nat, l: nat)
    requires k < l < |GROUPS|
    ensures 0 < GROUPS[k].base && GROUPS[k].base + 10000 <= GROUPS[l].base < 1_000_000
    decreases l
  {
    NextBase(l - 1);
    if k < l - 1 {
      BasesAscend(k, l - 1);
    }
  }

  /** Every key of the map stems from one row of the literal. */
  lemma {:induction false} RowOf(groups: seq<Group>, region: string) returns (k: nat)
    requires forall g | g in groups :: |g.parts| >= 1
    requires region in Table(groups)
    ensures k < |groups| && JoinDash(groups[k].parts) == region && groups[k].base == Table(groups)[region]
  {
    var last := |groups| - 1;
    if JoinDash(groups[last].parts) == region {
      k := last;
    } else {
      k := RowOf(groups[..last], region);
    }
  }

  /** Rows with region names and bases far enough apart. */
  ghost predicate WellFormed(groups: seq<Group>) {
    && (forall k | 0 <= k < |groups| ::
          2 <= |groups[k].parts| <= 3 && (forall p | p in groups[k].parts :: DashFree(p)) &&
            0 < groups[k].base < 1_000_000)
    && (forall k, l | 0 <= k < l < |groups| :: groups[k].base + 10000 <= groups[l].base)
  }

  lemma WellFormedRowsMakeValidTable(groups: seq<Group>)
    requires WellFormed(groups)
    ensures ValidTable(Table(groups))
  {
    var t := Table(groups);
    assert forall g | g in groups :: |g.parts| >= 1;
    forall r, q | r in t && q in t && r != q ensures t[r] + 1000 <= t[q] || t[q] + 1000 <= t[r] {
      var k := RowOf(groups, r);
      var l := RowOf(groups, q);
      assert k < l || l < k;
    }
    forall r | r in t ensures RegionName(r) && 0 < t[r] < 1_000_000 {
      var k := RowOf(groups, r);
    }
  }

  lemma ShippedRowsAreWellFormed()
    ensures WellFormed(GROUPS)
  {
    forall k | 0 <= k < |GROUPS|
      ensures 2 <= |GROUPS[k].parts| <= 3 && (forall p | p in GROUPS[k].parts :: DashFree(p)) &&
              0 < GROUPS[k].base < 1_000_000
    {
      GroupShape(k);
      if k == 0 { BasesAscend(0, 1); } else { BasesAscend(0, k); }
    }
    forall k, l | 0 <= k < l < |GROUPS| ensures GROUPS[k].base + 10000 <= GROUPS[l].base {
      BasesAscend(k, l);
    }
  }

  /** The forty shipped regions have two or three dash-free parts and pairwise disjoint windows. */
  lemma ShippedTableIsValid()
    ensures ValidTable(Table(GROUPS))
  {
    ShippedRowsAreWellFormed();
    WellFormedRowsMakeValidTable(GROUPS);
  }
}
