/** The Kubernetes objects the controllers share, and the label and annotation keys they agree on. */
module Objects {
  import opened Text

  const GROUP := "karpenter.k8s.tke"

  const NODE_CLAIM_KIND := "NodeClaim"
  const LABEL_NODE_POOL := "karpenter.sh/nodepool"
  const LABEL_CAPACITY_TYPE := "karpenter.sh/capacity-type"
  const LABEL_NODE_CLASS := GROUP + "/tkemachinenodeclass"
  const LABEL_NODE_CLAIM := GROUP + "/nodeclaim"
  const LABEL_INITIALIZED := GROUP + "/provider-id-initialized"

  datatype OwnerReference = OwnerReference(kind: string, name: string)

  /** The part of the encoded CXM provider spec the controllers look at. */
  datatype ProviderSpec = ProviderSpec(
    instanceType: string,
    chargeType: string,
    keyIDs: seq<string>,
    securityGroupIDs: seq<string>,
    kubeletArgs: seq<string>)

  /** Absent texts and identifiers are empty strings, as lo.FromPtr reads them;
      spec is None when the raw provider spec cannot be decoded. */
  datatype Machine = Machine(
    name: string,
    labels: map<string, string>,
    annotations: map<string, string>,
    owners: seq<OwnerReference>,
    created: nat,
    phase: string,
    providerID: string,
    zone: string,
    subnetID: string,
    machineType: string,
    spec: Option<ProviderSpec>,
    failureReason: string,
    failureMessage: string)

  /** Reading a Go map: a missing key gives the empty string. */
  function Lookup(m: map<string, string>, key: string): string {
    if key in m then m[key] else ""
  }

  function CapacityTypeOf(m: Machine): string {
    Lookup(m.labels, LABEL_CAPACITY_TYPE)
  }

  predicate OwnedByNodeClaim(m: Machine) {
    exists k | 0 <= k < |m.owners| :: m.owners[k].kind == NODE_CLAIM_KIND
  }

  /** lo.Filter. */
  function Filter<T(!new)>(keep: T -> bool, s: seq<T>): (r: seq<T>)
    ensures |r| <= |s| && forall x :: x in r <==> x in s && keep(x)
  {
    if s == [] then []
    else
      var last := s[|s| - 1];
      Filter(keep, s[..|s| - 1]) + (if keep(last) then [last] else [])
  }

  lemma FilterOfOne<T(!new)>(keep: T -> bool, x: T)
    ensures Filter(keep, [x]) == if keep(x) then [x] else []
  {
    assert [x][..0] == [];
  }

  lemma FilterOfTwo<T(!new)>(keep: T -> bool, x: T, y: T)
    ensures Filter(keep, [x, y]) == (if keep(x) then [x] else []) + (if keep(y) then [y] else [])
  {
    assert [x, y][..1] == [x];
    FilterOfOne(keep, x);
  }
}
