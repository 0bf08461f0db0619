/** The annotation keys under which a Machine records its instance type (pkg/apis/v1beta1/labels.go). */
module AnnotationKeys {
  import opened Text
  import opened Objects
  import opened InstanceTypes

  datatype Group = Capacity | KubeReserved | SystemReserved | EvictionThreshold

  datatype Key = Res(group: Group, name: ResourceName) | UnitPrice | ManagedBy | CloudTags

  function GroupText(group: Group): string {
    match group
    case Capacity => "capacity."
    case KubeReserved => "kube-reserved."
    case SystemReserved => "system-reserved."
    case EvictionThreshold => "eviction-threshold."
  }

  function Prefix(k: Key): string {
    match k
    case Res(group, _) => GroupText(group) + GROUP
    case UnitPrice => GROUP
    case ManagedBy => GROUP
    case CloudTags => "node.tke.cloud.tencent.com"
  }

  function Suffix(k: Key): string {
    match k
    case Res(_, name) => NameText(name)
    case UnitPrice => "unit-price"
    case ManagedBy => "managed-by"
    case CloudTags => "machine-cloud-tags"
  }

  function NameText(name: ResourceName): string {
    match name
    case CPU => "cpu"
    case MEMORY => "memory"
    case PODS => "pods"
    case STORAGE => "ephemeral-storage"
    case ENI_IP => "eni-ip"
    case DIRECT_ENI => "direct-eni"
    case ENI => "eni"
    case SUB_ENI => "sub-eni"
    case EIP => "eip"
    case GPU => "gpu-count"
  }

  function KeyText(k: Key): string {
    Prefix(k) + "/" + Suffix(k)
  }

  lemma KeyTexts(name: ResourceName)
    ensures KeyText(Res(Capacity, name)) == "capacity.karpenter.k8s.tke/" + NameText(name)
    ensures KeyText(Res(KubeReserved, name)) == "kube-reserved.karpenter.k8s.tke/" + NameText(name)
    ensures KeyText(Res(SystemReserved, name)) == "system-reserved.karpenter.k8s.tke/" + NameText(name)
    ensures KeyText(Res(EvictionThreshold, name)) == "eviction-threshold.karpenter.k8s.tke/" + NameText(name)
  {
    assert "capacity." + GROUP + "/" == "capacity.karpenter.k8s.tke/";
    assert "kube-reserved." + GROUP + "/" == "kube-reserved.karpenter.k8s.tke/";
    assert "system-reserved." + GROUP + "/" == "system-reserved.karpenter.k8s.tke/";
    assert "eviction-threshold." + GROUP + "/" == "eviction-threshold.karpenter.k8s.tke/";
  }

  lemma GroupsHaveNoSlash(group: Group)
    ensures Lacks(GroupText(group), '/') && Lacks(GROUP, '/')
  {}

  lemma PrefixHasNoSlash(k: Key)
    ensures Lacks(Prefix(k), '/')
  {
    if k.Res? {
      GroupsHaveNoSlash(k.group);
      assert forall i | 0 <= i < |GROUP| :: Prefix(k)[|GroupText(k.group)| + i] == GROUP[i];
    }
  }

  lemma NameTextIsInjective(a: ResourceName, b: ResourceName)
    requires NameText(a) == NameText(b)
    ensures a == b
  {
    var s, t := NameText(a), NameText(b);
    assert |s| == |t| && s[0] == t[0] && s[1] == t[1] && s[2] == t[2];
  }

  lemma KeyTextSplits(k: Key)
    ensures SplitPair(KeyText(k), '/') == Some((Prefix(k), Suffix(k)))
  {
    PrefixHasNoSlash(k);
    SplitPairOf(Prefix(k), Suffix(k), '/');
  }

  /** The first two letters of a prefix and the first of a suffix tell keys apart, up to the resource. */
  lemma LettersTell(a: Key, b: Key)
    requires Prefix(a) == Prefix(b) && Suffix(a) == Suffix(b)
    ensures a.Res? == b.Res? && (a.Res? ==> a.group == b.group) && (!a.Res? ==> a == b)
  {
    assert Prefix(a)[0] == Prefix(b)[0] && Prefix(a)[1] == Prefix(b)[1] && Suffix(a)[0] == Suffix(b)[0];
  }

  /** Different keys have different texts. */
  lemma KeyTextIsInjective(a: Key, b: Key)
    requires KeyText(a) == KeyText(b)
    ensures a == b
  {
    KeyTextSplits(a);
    KeyTextSplits(b);
    LettersTell(a, b);
    if a.Res? {
      NameTextIsInjective(a.name, b.name);
    }
  }

  /** A quantity is printed when the annotations are written; everything else is already text. */
  datatype Value = Quantity(amount: int) | Plain(text: string)

  /** Quantities are printed as plain integers: the canonical text of resource.Quantity is assumed exact. */
  function ValueText(v: Value): string {
    match v
    case Quantity(amount) => Itoa(amount)
    case Plain(text) => text
  }

  /** The annotations as the Machine object carries them. */
  function Render(m: map<Key, Value>): (r: map<string, string>)
    ensures forall k :: KeyText(k) in r <==> k in m
    ensures forall k | k in m :: r[KeyText(k)] == ValueText(m[k])
    ensures forall text | text in r :: exists k :: k in m && text == KeyText(k)
  {
    assert forall a, b | KeyText(a) == KeyText(b) :: a == b by {
      forall a, b | KeyText(a) == KeyText(b) ensures a == b {
        KeyTextIsInjective(a, b);
      }
    }
    map k | k in m :: KeyText(k) := ValueText(m[k])
  }
}
