/** From subnet selector terms to the subnet a launch uses (pkg/providers/vpc/subnet.go,
    pkg/controllers/nodeclass/status/subnet.go and pkg/providers/machine/machine.go). */
module SubnetSelection {
  import opened Text
  import Objects
  import opened SliceSort
  import Zone
  import ZoneCodec
  import InstanceTypes
  import MachineLaunch

  datatype CloudSubnet = CloudSubnet(id: string, vpcID: string, zone: string, freeIPs: nat, tags: map<string, string>)

  datatype Term = Term(id: string, tags: map<string, string>)

  datatype Filter = Filter(name: string, values: seq<string>)

  const BATCH_SIZE: nat := 5

  /* ---------- what terms and queries mean ---------- */

  predicate TagMatches(tags: map<string, string>, key: string, value: string) {
    key in tags && (value == "*" || tags[key] == value)
  }

  /** The ID when the term has one, else all of its tags. */
  predicate TermMatches(t: Term, s: CloudSubnet) {
    if t.id != "" then s.id == t.id else forall key | key in t.tags :: TagMatches(s.tags, key, t.tags[key])
  }

  /** The cloud's filters: any of the values matches; tag:k looks at the tag k. */
  predicate FilterMatches(f: Filter, s: CloudSubnet) {
    if f.name == "vpc-id" then s.vpcID in f.values
    else if f.name == "subnet-id" then s.id in f.values
    else if f.name == "tag-key" then exists key | key in f.values :: key in s.tags
    else "tag:" <= f.name && f.name[4..] in s.tags && s.tags[f.name[4..]] in f.values
  }

  /** The filters of one query are all required. */
  predicate QueryMatches(query: seq<Filter>, s: CloudSubnet) {
    forall f | f in query :: FilterMatches(f, s)
  }

  predicate AnyMatches(queries: seq<seq<Filter>>, s: CloudSubnet) {
    exists q | q in queries :: QueryMatches(q, s)
  }

  /* ---------- translating terms ---------- */

  function TagFilter(key: string, value: string): Filter {
    if value == "*" then Filter("tag-key", [key]) else Filter("tag:" + key, [value])
  }

  lemma TagFilterMatches(key: string, value: string, s: CloudSubnet)
    ensures FilterMatches(TagFilter(key, value), s) <==> TagMatches(s.tags, key, value)
  {
    if value != "*" {
      var name := "tag:" + key;
      assert name[4..] == key && name[0] == 't' && name[3] == ':';
      assert "tag:" <= name;
      assert "tag-key"[3] == '-' && "vpc-id"[0] == 'v' && "subnet-id"[0] == 's';
    }
  }

  /** The filters of one tag term, in whatever order the map yields its tags. */
  method TagFilters(tags: map<string, string>) returns (filters: seq<Filter>)
    ensures forall s :: QueryMatches(filters, s) <==> TermMatches(Term("", tags), s)
  {
    filters := [];
    var remaining := tags.Keys;
    while remaining != {}
      invariant remaining <= tags.Keys
      invariant forall f :: f in filters <==>
                exists key | key in tags.Keys - remaining :: f == TagFilter(key, tags[key])
      decreases |remaining|
    {
      var key :| key in remaining;
      if tags[key] == "*" {
        filters := filters + [Filter("tag-key", [key])];
      } else {
        filters := filters + [Filter("tag:" + key, [tags[key]])];
      }
      remaining := remaining - {key};
    }
    assert tags.Keys - remaining == tags.Keys;
    forall s ensures QueryMatches(filters, s) <==> TermMatches(Term("", tags), s) {
      TagQueryMatches(filters, tags, s);
    }
  }

  lemma TagQueryMatches(filters: seq<Filter>, tags: map<string, string>, s: CloudSubnet)
    requires forall f :: f in filters <==> exists key | key in tags :: f == TagFilter(key, tags[key])
    ensures QueryMatches(filters, s) <==> TermMatches(Term("", tags), s)
  {
    forall key | key in tags ensures TagFilter(key, tags[key]) in filters {}
    forall key | key in tags
      ensures FilterMatches(TagFilter(key, tags[key]), s) <==> TagMatches(s.tags, key, tags[key])
    {
      TagFilterMatches(key, tags[key], s);
    }
  }

  function IDs(terms: seq<Term>): seq<string> {
    if terms == [] then []
    else
      var last := terms[|terms| - 1];
      IDs(terms[..|terms| - 1]) + if last.id != "" then [last.id] else []
  }

  lemma {:induction false} IDsHold(terms: seq<Term>, id: string)
    ensures id in IDs(terms) <==> id != "" && exists t | t in terms :: t.id == id
    decreases |terms|
  {
    if terms != [] {
      IDsHold(terms[..|terms| - 1], id);
      assert terms == terms[..|terms| - 1] + [terms[|terms| - 1]];
    }
  }

  function Concat(batches: seq<seq<string>>): seq<string> {
    if batches == [] then [] else Concat(batches[..|batches| - 1]) + batches[|batches| - 1]
  }

  lemma {:induction false} ConcatHolds(batches: seq<seq<string>>, id: string)
    ensures id in Concat(batches) <==> exists k | 0 <= k < |batches| :: id in batches[k]
    decreases |batches|
  {
    if batches != [] {
      ConcatHolds(batches[..|batches| - 1], id);
    }
  }

  ghost predicate AreBatches(ids: seq<string>, batches: seq<seq<string>>) {
    && Concat(batches) == ids
    && forall k | 0 <= k < |batches| :: 0 < |batches[k]| <= BATCH_SIZE
  }

  /** Consecutive batches of at most five IDs. */
  method Batches(ids: seq<string>) returns (batches: seq<seq<string>>)
    ensures AreBatches(ids, batches)
  {
    batches := [];
    var i := 0;
    while i < |ids|
      invariant 0 <= i
      invariant AreBatches(ids[..if i < |ids| then i else |ids|], batches)
      decreases |ids| - i
    {
      var end := i + BATCH_SIZE;
      if end > |ids| {
        end := |ids|;
      }
      ghost var before := batches;
      batches := batches + [ids[i..end]];
      assert batches[..|before|] == before;
      assert ids[..i] + ids[i..end] == ids[..end];
      i := i + BATCH_SIZE;
    }
    assert ids[..|ids|] == ids;
  }

  function IDQuery(batch: seq<string>): seq<Filter> {
    [Filter("subnet-id", batch)]
  }

  lemma IDQueryMatches(batch: seq<string>, s: CloudSubnet)
    ensures QueryMatches(IDQuery(batch), s) <==> s.id in batch
  {
    assert "subnet-id"[0] != "vpc-id"[0];
    assert IDQuery(batch)[0] in IDQuery(batch);
  }

  /** One query per tag term, then one per batch of IDs: together they mean what the terms mean. */
  method GetSubnetFilterSets(terms: seq<Term>) returns (res: seq<seq<Filter>>, ghost batches: seq<seq<string>>)
    ensures forall s :: AnyMatches(res, s) <==> exists t | t in terms :: TermMatches(t, s)
    ensures AreBatches(IDs(terms), batches) && |res| >= |batches|
    ensures forall k | 0 <= k < |batches| :: res[|res| - |batches| + k] == IDQuery(batches[k])
  {
    res := [];
    var ids: seq<string> := [];
    for k := 0 to |terms|
      invariant ids == IDs(terms[..k])
      invariant forall s :: AnyMatches(res, s) <==>
                exists l | 0 <= l < k :: terms[l].id == "" && TermMatches(terms[l], s)
    {
      assert terms[..k + 1][..k] == terms[..k];
      if terms[k].id != "" {
        ids := ids + [terms[k].id];
      } else {
        var filters := TagFilters(terms[k].tags);
        ghost var before := res;
        res := res + [filters];
        forall s ensures AnyMatches(res, s) <==> AnyMatches(before, s) || TermMatches(terms[k], s) {
          AnyOfAppended(before, filters, s);
          assert TermMatches(Term("", terms[k].tags), s) == TermMatches(terms[k], s);
        }
      }
    }
    assert terms[..|terms|] == terms;
    ghost var tagQueries := res;
    var idBatches := Batches(ids);
    batches := idBatches;
    for k := 0 to |idBatches|
      invariant |res| == |tagQueries| + k && res[..|tagQueries|] == tagQueries
      invariant forall l | 0 <= l < k :: res[|tagQueries| + l] == IDQuery(idBatches[l])
    {
      res := res + [[Filter("subnet-id", idBatches[k])]];
    }
    forall s ensures AnyMatches(res, s) <==> exists t | t in terms :: TermMatches(t, s) {
      QueriesMeanTerms(terms, tagQueries, idBatches, res, s);
    }
  }

  lemma AnyOfAppended(queries: seq<seq<Filter>>, q: seq<Filter>, s: CloudSubnet)
    ensures AnyMatches(queries + [q], s) <==> AnyMatches(queries, s) || QueryMatches(q, s)
  {
    assert q in queries + [q];
    assert forall x | x in queries :: x in queries + [q];
  }

  lemma {:induction false} QueriesMeanTerms(terms: seq<Term>, tagQueries: seq<seq<Filter>>, batches: seq<seq<string>>,
                         res: seq<seq<Filter>>, s: CloudSubnet)
    requires AreBatches(IDs(terms), batches)
    requires AnyMatches(tagQueries, s) <==> exists l | 0 <= l < |terms| :: terms[l].id == "" && TermMatches(terms[l], s)
    requires |res| == |tagQueries| + |batches| && res[..|tagQueries|] == tagQueries
    requires forall l | 0 <= l < |batches| :: res[|tagQueries| + l] == IDQuery(batches[l])
    ensures AnyMatches(res, s) <==> exists t | t in terms :: TermMatches(t, s)
  {
    IDsHold(terms, s.id);
    ConcatHolds(batches, s.id);
    forall l | 0 <= l < |batches| ensures QueryMatches(res[|tagQueries| + l], s) <==> s.id in batches[l] {
      IDQueryMatches(batches[l], s);
    }
    assert AnyMatches(res, s) <==> AnyMatches(tagQueries, s) || s.id in IDs(terms) by {
      if AnyMatches(tagQueries, s) {
        var q :| q in tagQueries && QueryMatches(q, s);
        assert q in res;
      }
      if s.id in IDs(terms) {
        var l :| 0 <= l < |batches| && s.id in batches[l];
        assert res[|tagQueries| + l] in res;
      }
      if AnyMatches(res, s) {
        var k :| 0 <= k < |res| && QueryMatches(res[k], s);
        if k < |tagQueries| {
          assert res[k] == tagQueries[k] && tagQueries[k] in tagQueries;
        } else {
          assert res[|tagQueries| + (k - |tagQueries|)] == IDQuery(batches[k - |tagQueries|]);
        }
      }
    }
    if AnyMatches(tagQueries, s) {
      var l :| 0 <= l < |terms| && terms[l].id == "" && TermMatches(terms[l], s);
      assert terms[l] in terms;
    }
  }

  /* ---------- asking the cloud ---------- */

  /** The cloud's answer to one request: the subnets that match every filter. */
  function Describe(cloud: seq<CloudSubnet>, vpcID: string, query: seq<Filter>): seq<CloudSubnet> {
    Objects.Filter(s => QueryMatches([Filter("vpc-id", [vpcID])] + query, s), cloud)
  }

  lemma DescribeHolds(cloud: seq<CloudSubnet>, vpcID: string, query: seq<Filter>, s: CloudSubnet)
    ensures s in Describe(cloud, vpcID, query) <==> s in cloud && s.vpcID == vpcID && QueryMatches(query, s)
  {
    var vpc := Filter("vpc-id", [vpcID]);
    assert vpc in [vpc] + query && forall f | f in query :: f in [vpc] + query;
  }

  ghost predicate UniqueIDs(cloud: seq<CloudSubnet>) {
    forall s, t | s in cloud && t in cloud && s.id == t.id :: s == t
  }

  /** A subnet of the VPC that some term matches. */
  predicate IsChosen(cloud: seq<CloudSubnet>, vpcID: string, terms: seq<Term>, s: CloudSubnet) {
    s in cloud && s.vpcID == vpcID && exists t | t in terms :: TermMatches(t, s)
  }

  /** Every chosen subnet, once, and nothing else. */
  ghost predicate Selected(cloud: seq<CloudSubnet>, vpcID: string, terms: seq<Term>, subnets: seq<CloudSubnet>) {
    && (forall s :: s in subnets <==> IsChosen(cloud, vpcID, terms, s))
    && (forall k, l | 0 <= k < l < |subnets| :: subnets[k].id != subnets[l].id)
  }

  /** The answers are merged by ID; the values of the map come in any order. */
  method ListSubnets(cloud: seq<CloudSubnet>, vpcID: string, terms: seq<Term>) returns (subnets: seq<CloudSubnet>)
    requires UniqueIDs(cloud)
    ensures Selected(cloud, vpcID, terms, subnets)
  {
    var filterSets, _ := GetSubnetFilterSets(terms);
    var merged: map<string, CloudSubnet> := map[];
    for k := 0 to |filterSets|
      invariant forall id | id in merged :: merged[id].id == id && merged[id] in cloud
      invariant forall s :: s in merged.Values <==>
                  s in cloud && s.vpcID == vpcID && exists l | 0 <= l < k :: QueryMatches(filterSets[l], s)
    {
      var answer := Describe(cloud, vpcID, filterSets[k]);
      merged := Merge(cloud, merged, answer);
      forall s ensures s in answer <==> s in cloud && s.vpcID == vpcID && QueryMatches(filterSets[k], s) {
        DescribeHolds(cloud, vpcID, filterSets[k], s);
      }
    }
    subnets := ValuesOf(merged);
    forall s ensures s in subnets <==> s in cloud && s.vpcID == vpcID && AnyMatches(filterSets, s) {
      assert AnyMatches(filterSets, s) <==> exists l | 0 <= l < |filterSets| :: QueryMatches(filterSets[l], s);
    }
  }

  method Merge(ghost cloud: seq<CloudSubnet>, into: map<string, CloudSubnet>, answer: seq<CloudSubnet>)
    returns (merged: map<string, CloudSubnet>)
    requires UniqueIDs(cloud) && (forall s | s in answer :: s in cloud)
    requires forall id | id in into :: into[id].id == id && into[id] in cloud
    ensures forall id | id in merged :: merged[id].id == id && merged[id] in cloud
    ensures forall s :: s in merged.Values <==> s in into.Values || s in answer
  {
    merged := into;
    for k := 0 to |answer|
      invariant forall id | id in merged :: merged[id].id == id && merged[id] in cloud
      invariant forall s :: s in merged.Values <==> s in into.Values || s in answer[..k]
    {
      ghost var before := merged;
      var subnet := answer[k];
      assert subnet in answer;
      merged := merged[subnet.id := subnet];
      assert answer[..k + 1] == answer[..k] + [subnet];
      forall s ensures s in merged.Values <==> s in before.Values || s == subnet {
        assert merged[subnet.id] == subnet;
        if s in before.Values {
          var id :| id in before && before[id] == s;
          assert id in merged && merged[id] == s;
        }
      }
    }
    assert answer[..|answer|] == answer;
  }

  /** lo.Values: the values of a map in any order. */
  method ValuesOf(m: map<string, CloudSubnet>) returns (values: seq<CloudSubnet>)
    requires forall id | id in m :: m[id].id == id
    ensures forall s :: s in values <==> s in m.Values
    ensures forall k, l | 0 <= k < l < |values| :: values[k].id != values[l].id
  {
    values := [];
    var remaining := m.Keys;
    while remaining != {}
      invariant remaining <= m.Keys
      invariant forall s :: s in values <==> exists id | id in m && id !in remaining :: m[id] == s
      invariant forall k, l | 0 <= k < l < |values| :: values[k].id != values[l].id
      decreases |remaining|
    {
      var id :| id in remaining;
      assert forall k | 0 <= k < |values| :: values[k] in values;
      values := values + [m[id]];
      remaining := remaining - {id};
    }
  }

  /* ---------- the order that decides a launch ---------- */

  /** Most free addresses first, ties by ID. */
  function MoreFree(): (CloudSubnet, CloudSubnet) -> bool {
    (a: CloudSubnet, b: CloudSubnet) => if a.freeIPs != b.freeIPs then a.freeIPs > b.freeIPs else StrLess(a.id, b.id)
  }

  lemma MoreFreeIsOrder()
    ensures StrictWeakOrder(MoreFree())
  {
    var less := MoreFree();
    forall x, y ensures less(x, y) ==> !less(y, x) {
      StrOrderIsTotal(x.id, y.id);
    }
    forall x, y, z | !less(x, y) && !less(y, z) ensures !less(x, z) {
      StrOrderIsTotal(x.id, y.id);
      StrOrderIsTotal(y.id, z.id);
      StrOrderIsTransitive(z.id, y.id, x.id);
    }
  }

  function StatusOf(zoneGroups: map<string, int>, s: CloudSubnet): MachineLaunch.Subnet {
    MachineLaunch.Subnet(s.id, s.zone, InstanceTypes.ZoneIDOrEmpty(zoneGroups, s.zone))
  }

  /** A status entry names the subnet, its zone, and the zone's ID where it has one. */
  lemma StatusNames(zoneGroups: map<string, int>, s: CloudSubnet)
    ensures var entry := StatusOf(zoneGroups, s);
            && entry.id == s.id && entry.zone == s.zone
            && entry.zoneID == match ZoneCodec.IDOf(zoneGroups, s.zone) case Ok(id) => id case Err(_) => ""
  {}

  function StatusesOf(zoneGroups: map<string, int>, subnets: seq<CloudSubnet>): (r: seq<MachineLaunch.Subnet>)
    ensures |r| == |subnets| && forall k | 0 <= k < |subnets| :: r[k] == StatusOf(zoneGroups, subnets[k])
  {
    seq(|subnets|, k requires 0 <= k < |subnets| => StatusOf(zoneGroups, subnets[k]))
  }

  /** sort.Slice on the listed subnets. */
  method SortByFreeIPs(subnets: seq<CloudSubnet>) returns (sorted: seq<CloudSubnet>)
    ensures SortedFrom(MoreFree(), subnets, sorted)
  {
    var a := new CloudSubnet[|subnets|](k requires 0 <= k < |subnets| => subnets[k]);
    assert a[..] == subnets;
    MoreFreeIsOrder();
    SliceSort.Slice(a, MoreFree());
    sorted := a[..];
  }

  method Statuses(zoneProvider: Zone.DefaultProvider, sorted: seq<CloudSubnet>)
    returns (status: seq<MachineLaunch.Subnet>)
    ensures status == StatusesOf(zoneProvider.zoneGroups, sorted)
  {
    status := [];
    for k := 0 to |sorted|
      invariant |status| == k && forall l | 0 <= l < k :: status[l] == StatusOf(zoneProvider.zoneGroups, sorted[l])
    {
      var zoneID := zoneProvider.IDFromZone(sorted[k].zone);
      status := status + [MachineLaunch.Subnet(sorted[k].id, sorted[k].zone, if zoneID.Ok? then zoneID.value else "")];
    }
  }

  /** The status holds the selected subnets, most free addresses first, with their zone IDs. */
  ghost predicate IsStatus(zoneGroups: map<string, int>, cloud: seq<CloudSubnet>, vpcID: string, terms: seq<Term>,
                           status: seq<MachineLaunch.Subnet>)
  {
    exists listed, sorted :: Selected(cloud, vpcID, terms, listed) && SortedFrom(MoreFree(), listed, sorted) &&
                             status == StatusesOf(zoneGroups, sorted)
  }

  /** The status reconciler sorts the list in place and writes it down. */
  method Reconcile(zoneProvider: Zone.DefaultProvider, cloud: seq<CloudSubnet>, vpcID: string, terms: seq<Term>)
    returns (status: seq<MachineLaunch.Subnet>)
    requires UniqueIDs(cloud)
    ensures IsStatus(zoneProvider.zoneGroups, cloud, vpcID, terms, status)
  {
    var subnets := ListSubnets(cloud, vpcID, terms);
    var sorted := SortByFreeIPs(subnets);
    status := Statuses(zoneProvider, sorted);
  }

  ghost predicate IsFirstOfZone(sorted: seq<CloudSubnet>, zone: string, k: nat) {
    k < |sorted| && sorted[k].zone == zone && forall l | 0 <= l < k :: sorted[l].zone != zone
  }

  lemma FirstOfZone(sorted: seq<CloudSubnet>, zone: string) returns (k: nat)
    requires exists s | s in sorted :: s.zone == zone
    ensures IsFirstOfZone(sorted, zone, k)
  {
    k := 0;
    while sorted[k].zone != zone
      invariant k < |sorted| && forall l | 0 <= l < k :: sorted[l].zone != zone
      decreases |sorted| - k
    {
      k := k + 1;
    }
  }

  lemma {:induction false} SubnetInIsFirst(subnets: seq<MachineLaunch.Subnet>, zone: string, k: nat)
    requires k < |subnets| && subnets[k].zone == zone && forall l | 0 <= l < k :: subnets[l].zone != zone
    ensures MachineLaunch.SubnetIn(subnets, zone) == subnets[k].id
    decreases k
  {
    if k > 0 {
      assert forall l | 0 <= l < k - 1 :: subnets[1..][l] == subnets[l + 1];
      SubnetInIsFirst(subnets[1..], zone, k - 1);
    }
  }

  lemma SameMembers(s: seq<CloudSubnet>, t: seq<CloudSubnet>)
    requires multiset(s) == multiset(t)
    ensures forall x :: x in s <==> x in t
  {
    forall x ensures x in s <==> x in t {
      assert x in s <==> x in multiset(s);
      assert x in t <==> x in multiset(t);
    }
  }

  /** The first of a zone in the sorted list beats every other subnet of the zone. */
  lemma FirstIsFreest(listed: seq<CloudSubnet>, sorted: seq<CloudSubnet>, zone: string, k: nat, s: CloudSubnet)
    requires SortedFrom(MoreFree(), listed, sorted) && IsFirstOfZone(sorted, zone, k) && s in sorted && s.zone == zone
    ensures s.freeIPs < sorted[k].freeIPs || (s.freeIPs == sorted[k].freeIPs && !StrLess(s.id, sorted[k].id))
  {
    var l :| 0 <= l < |sorted| && sorted[l] == s;
    if l == k {
      StrOrderIsTotal(s.id, s.id);
    } else {
      assert !MoreFree()(s, sorted[k]);
    }
  }

  /** The subnet a launch takes in a zone is a subnet of the VPC in that zone that some term matches; of all those it
      has the most free addresses, and the smallest ID among equals. */
  lemma LaunchTakesFreestSubnet(zoneGroups: map<string, int>, cloud: seq<CloudSubnet>, vpcID: string, terms: seq<Term>,
                                status: seq<MachineLaunch.Subnet>, zone: string) returns (best: CloudSubnet)
    requires IsStatus(zoneGroups, cloud, vpcID, terms, status)
    requires exists s :: IsChosen(cloud, vpcID, terms, s) && s.zone == zone
    ensures IsChosen(cloud, vpcID, terms, best) && best.zone == zone && MachineLaunch.SubnetIn(status, zone) == best.id
    ensures forall s | IsChosen(cloud, vpcID, terms, s) && s.zone == zone ::
              s.freeIPs < best.freeIPs || (s.freeIPs == best.freeIPs && !StrLess(s.id, best.id))
  {
    var listed, sorted :| Selected(cloud, vpcID, terms, listed) && SortedFrom(MoreFree(), listed, sorted) &&
                          status == StatusesOf(zoneGroups, sorted);
    SameMembers(listed, sorted);
    var k := FirstOfZone(sorted, zone);
    SubnetInIsFirst(status, zone, k);
    best := sorted[k];
    assert best in sorted;
    forall s | IsChosen(cloud, vpcID, terms, s) && s.zone == zone
      ensures s.freeIPs < best.freeIPs || (s.freeIPs == best.freeIPs && !StrLess(s.id, best.id))
    {
      FirstIsFreest(listed, sorted, zone, k, s);
    }
  }

  lemma CountOfDistinct(s: seq<CloudSubnet>, x: CloudSubnet)
    requires forall k, l | 0 <= k < l < |s| :: s[k].id != s[l].id
    ensures multiset(s)[x] == if x in s then 1 else 0
  {
    if x in s {
      var k :| 0 <= k < |s| && s[k] == x;
      assert s == s[..k] + [x] + s[k + 1..];
      assert x !in s[..k] && x !in s[k + 1..];
      assert x !in multiset(s[..k]) && x !in multiset(s[k + 1..]);
      assert multiset(s) == multiset(s[..k]) + multiset{x} + multiset(s[k + 1..]);
    } else {
      assert x !in multiset(s);
    }
  }

  /** Two selections hold the same subnets, once each. */
  lemma SelectionsAgree(cloud: seq<CloudSubnet>, vpcID: string, terms: seq<Term>, s: seq<CloudSubnet>,
                        t: seq<CloudSubnet>)
    requires Selected(cloud, vpcID, terms, s) && Selected(cloud, vpcID, terms, t)
    ensures multiset(s) == multiset(t)
  {
    forall x: CloudSubnet ensures multiset(s)[x] == multiset(t)[x] {
      CountOfDistinct(s, x);
      CountOfDistinct(t, x);
    }
  }

  /** There is only one status: neither the order of the map's values nor that of its tags shows. */
  lemma StatusIsUnique(zoneGroups: map<string, int>, cloud: seq<CloudSubnet>, vpcID: string, terms: seq<Term>,
                       status: seq<MachineLaunch.Subnet>, other: seq<MachineLaunch.Subnet>)
    requires UniqueIDs(cloud)
    requires IsStatus(zoneGroups, cloud, vpcID, terms, status) && IsStatus(zoneGroups, cloud, vpcID, terms, other)
    ensures status == other
  {
    var s, sorted :| Selected(cloud, vpcID, terms, s) && SortedFrom(MoreFree(), s, sorted) &&
                     status == StatusesOf(zoneGroups, sorted);
    var t, otherSorted :| Selected(cloud, vpcID, terms, t) && SortedFrom(MoreFree(), t, otherSorted) &&
                          other == StatusesOf(zoneGroups, otherSorted);
    SelectionsAgree(cloud, vpcID, terms, s, t);
    SameMembers(s, sorted);
    forall x, y | x in sorted && y in sorted && !MoreFree()(x, y) && !MoreFree()(y, x) ensures x == y {
      StrOrderIsTotal(x.id, y.id);
    }
    SortedIsUnique(MoreFree(), sorted, otherSorted);
  }
}
