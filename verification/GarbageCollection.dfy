/** The garbage collector's pass over the machines (pkg/controllers/nodeclaim/garbagecollection/controller.go)
    with the two ways it deletes (pkg/providers/machine/machine.go). */
module GarbageCollection {
  import opened Text
  import opened Objects
  import AnnotationKeys
  import ReadBack

  const SECOND: nat := 1_000_000_000

  /** What converting a machine tells the collector. The NodeClaim it is converted to has no name. */
  datatype Retrieved = Retrieved(managedBy: string, ownedMachine: string, providerID: string, created: nat,
                                 deleting: bool)

  function Retrieve(c: ReadBack.ReadClaim): Retrieved {
    Retrieved(if c.managedBy.Some? then c.managedBy.value else "", c.ownedMachine, c.providerID, c.created, c.deleting)
  }

  function RetrievedOf(m: Machine): Retrieved {
    Retrieved(match ReadBack.ManagerOf(m) case Some(id) => id case None => "", m.name, m.providerID, m.created,
              m.phase == "Deleting")
  }

  function Converted(c: Result<ReadBack.ReadClaim>): Option<Retrieved> {
    match c case Ok(c) => Some(Retrieve(c)) case Err(_) => None
  }

  /** The conversion, as far as the collector looks at its outcome; None where it fails. */
  function Conversion(zoneGroups: map<string, int>): Machine -> Option<Retrieved> {
    m => Converted(ReadBack.MachineToNodeClaim(zoneGroups, m))
  }

  /** A conversion that succeeds keeps what the collector decides by. */
  ghost predicate Keeps(convert: Machine -> Option<Retrieved>) {
    forall m: Machine :: convert(m).Some? ==> convert(m).value == RetrievedOf(m)
  }

  lemma ClaimKeeps(zoneGroups: map<string, int>, m: Machine, t: ReadBack.Resolved)
    requires m.spec.Some?
    ensures Retrieve(ReadBack.ClaimFrom(zoneGroups, m, t)) == RetrievedOf(m)
  {}

  lemma OneConversionKeeps(zoneGroups: map<string, int>, m: Machine, c: Result<ReadBack.ReadClaim>)
    requires c == ReadBack.MachineToNodeClaim(zoneGroups, m) && c.Ok?
    ensures Converted(c) == Some(RetrievedOf(m))
  {
    var t := ReadBack.ResolveMachineToInstanceType(m);
    assert t.Ok? && c == Ok(ReadBack.ClaimFrom(zoneGroups, m, t.value));
    ClaimKeeps(zoneGroups, m, t.value);
  }

  lemma ConversionKeeps(zoneGroups: map<string, int>)
    ensures Keeps(Conversion(zoneGroups))
  {
    forall m: Machine | Conversion(zoneGroups)(m).Some? ensures Conversion(zoneGroups)(m).value == RetrievedOf(m) {
      OneConversionKeeps(zoneGroups, m, ReadBack.MachineToNodeClaim(zoneGroups, m));
    }
  }

  /** Old enough, and recorded by no claim. */
  predicate IsDue(r: Retrieved, recorded: set<string>, now: nat) {
    r.managedBy != "" && !r.deleting && r.ownedMachine !in recorded && now > r.created + 30 * SECOND
  }

  /** What the collector is for: the managed, claim-owned, live machines older than 30 s that no claim records. */
  predicate IsGarbage(m: Machine, recorded: set<string>, now: nat) {
    OwnedByNodeClaim(m) && IsDue(RetrievedOf(m), recorded, now)
  }

  /** Machines by name. Provider IDs are unique, and owners have names, as the API server demands. */
  ghost predicate Sound(machines: map<string, Machine>) {
    && (forall n | n in machines :: machines[n].name == n)
    && (forall n, k | n in machines && k in machines && machines[n].providerID == machines[k].providerID
                      && machines[n].providerID != "" :: n == k)
    && (forall n, i | n in machines && 0 <= i < |machines[n].owners| :: machines[n].owners[i].name != "")
  }

  /** n is the machine of an entry among the first k that is due. */
  ghost predicate Collected(retrieved: seq<Retrieved>, k: nat, recorded: set<string>, now: nat, n: string)
    requires k <= |retrieved|
  {
    exists l | 0 <= l < k :: IsDue(retrieved[l], recorded, now) && retrieved[l].ownedMachine == n
  }

  ghost predicate AreCollected(retrieved: seq<Retrieved>, k: nat, recorded: set<string>, now: nat, gone: set<string>)
    requires k <= |retrieved|
  {
    forall n :: n in gone <==> Collected(retrieved, k, recorded, now, n)
  }

  lemma CollectDue(retrieved: seq<Retrieved>, k: nat, recorded: set<string>, now: nat, gone: set<string>)
    requires k < |retrieved| && AreCollected(retrieved, k, recorded, now, gone) && IsDue(retrieved[k], recorded, now)
    ensures AreCollected(retrieved, k + 1, recorded, now, gone + {retrieved[k].ownedMachine})
  {
    forall n ensures Collected(retrieved, k + 1, recorded, now, n) <==>
                     Collected(retrieved, k, recorded, now, n) || n == retrieved[k].ownedMachine {}
  }

  lemma SkipNotDue(retrieved: seq<Retrieved>, k: nat, recorded: set<string>, now: nat, gone: set<string>)
    requires k < |retrieved| && AreCollected(retrieved, k, recorded, now, gone) && !IsDue(retrieved[k], recorded, now)
    ensures AreCollected(retrieved, k + 1, recorded, now, gone)
  {
    forall n ensures Collected(retrieved, k + 1, recorded, now, n) <==> Collected(retrieved, k, recorded, now, n) {}
  }

  lemma RemoveBoth(all: map<string, Machine>, gone: set<string>, n: string)
    ensures all - gone - {n} == all - (gone + {n})
  {}

  /** What the provider's Delete can do for a claim with this name and ID: nothing, or take out one machine with the
      ID or, without an ID, one with an owner of that name. */
  ghost predicate MayDelete(before: map<string, Machine>, after: map<string, Machine>, claim: string,
                            providerID: string)
  {
    after == before || exists n | n in before :: after == before - {n} && IsTarget(before[n], claim, providerID)
  }

  predicate IsTarget(m: Machine, claim: string, providerID: string) {
    if providerID != "" then m.providerID == providerID else OwnerReference(NODE_CLAIM_KIND, claim) in m.owners
  }

  predicate OwnedBefore(m: Machine, i: nat)
    requires i <= |m.owners|
  {
    exists j | 0 <= j < i :: m.owners[j].kind == NODE_CLAIM_KIND
  }

  ghost predicate ListedBefore(convert: Machine -> Option<Retrieved>, items: seq<Machine>, k: nat, r: Retrieved)
    requires k <= |items|
  {
    exists l | 0 <= l < k :: OwnedByNodeClaim(items[l]) && Some(r) == convert(items[l])
  }

  class Collector {
    var machines: map<string, Machine>
    var successfulCount: nat

    constructor (machines: map<string, Machine>)
      ensures this.machines == machines && successfulCount == 0
    {
      this.machines, successfulCount := machines, 0;
    }

    /** A scan of the list for the first machine with this ID. */
    method Get(providerID: string) returns (found: Option<Machine>)
      ensures found.Some? ==>
              exists n | n in machines :: found.value == machines[n] && machines[n].providerID == providerID
      ensures found.None? ==> forall n | n in machines :: machines[n].providerID != providerID
    {
      var remaining := machines.Keys;
      while remaining != {}
        invariant remaining <= machines.Keys
        invariant forall n | n in machines && n !in remaining :: machines[n].providerID != providerID
        decreases |remaining|
      {
        var n :| n in remaining;
        if machines[n].providerID == providerID {
          return Some(machines[n]);
        }
        remaining := remaining - {n};
      }
      return None;
    }

    /** A scan for a machine with an owner claim of this name. */
    method FindOwned(claim: string) returns (found: Option<string>)
      ensures found.Some? ==>
              found.value in machines && OwnerReference(NODE_CLAIM_KIND, claim) in machines[found.value].owners
      ensures found.None? ==> forall n | n in machines :: OwnerReference(NODE_CLAIM_KIND, claim) !in machines[n].owners
    {
      var remaining := machines.Keys;
      while remaining != {}
        invariant remaining <= machines.Keys
        invariant forall n | n in machines && n !in remaining ::
                  OwnerReference(NODE_CLAIM_KIND, claim) !in machines[n].owners
        decreases |remaining|
      {
        var n :| n in remaining;
        var owners := machines[n].owners;
        for i := 0 to |owners|
          invariant forall j | 0 <= j < i :: owners[j] != OwnerReference(NODE_CLAIM_KIND, claim)
        {
          if owners[i] == OwnerReference(NODE_CLAIM_KIND, claim) {
            return Some(n);
          }
        }
        remaining := remaining - {n};
      }
      return None;
    }

    /** The provider's Delete for a claim with this name and ID; found is false where it reports that the claim
        has no machine. */
    method Delete(claim: string, providerID: string) returns (found: bool)
      requires Sound(machines)
      modifies this`machines
      ensures MayDelete(old(machines), machines, claim, providerID)
      ensures providerID != "" ==>
                (found <==> machines != old(machines)) &&
                (found <==> exists n | n in old(machines) :: old(machines)[n].providerID == providerID)
      ensures providerID == "" ==>
                (found <==> old(machines) != map[]) &&
                (machines != old(machines) <==> exists n | n in old(machines) :: IsTarget(old(machines)[n], claim, ""))
    {
      if providerID != "" {
        var m := Get(providerID);
        if m.None? {
          return false;
        }
        ghost var n :| n in machines && m.value == machines[n];
        assert m.value.name == n;
        machines := machines - {m.value.name};
        assert n !in machines;
        return true;
      }
      if machines == map[] {
        return false;
      }
      var n := FindOwned(claim);
      if n.Some? {
        machines := machines - {n.value};
      }
      return true;
    }

    /** First through the provider, then by the recorded name; a machine already gone is no error. */
    method GarbageCollect(r: Retrieved, ghost all: map<string, Machine>)
      requires Sound(all) && r.ownedMachine in all && all[r.ownedMachine].providerID == r.providerID
      requires machines.Keys <= all.Keys && forall n | n in machines :: machines[n] == all[n]
      modifies this`machines
      ensures machines == old(machines) - {r.ownedMachine}
    {
      SubsetIsSound(all, machines);
      ghost var before := machines;
      var found := Delete("", r.providerID);
      OnlyItsOwn(all, before, machines, r);
      if !found {
        return;
      }
      machines := machines - {r.ownedMachine};
    }

    /** The claims whose machines are listed, one entry for every owning claim; None when one does not convert. */
    method List(convert: Machine -> Option<Retrieved>, items: seq<Machine>) returns (retrieved: Option<seq<Retrieved>>)
      ensures retrieved.None? <==> exists m | m in items && OwnedByNodeClaim(m) :: convert(m).None?
      ensures retrieved.Some? ==>
                forall r :: r in retrieved.value <==>
                  exists m | m in items && OwnedByNodeClaim(m) :: Some(r) == convert(m)
    {
      var out: seq<Retrieved> := [];
      for k := 0 to |items|
        invariant forall l | 0 <= l < k && OwnedByNodeClaim(items[l]) :: convert(items[l]).Some?
        invariant forall r :: r in out <==> ListedBefore(convert, items, k, r)
      {
        var m := items[k];
        var before := out;
        for i := 0 to |m.owners|
          invariant forall r :: r in out <==> r in before || (OwnedBefore(m, i) && Some(r) == convert(m))
          invariant OwnedBefore(m, i) ==> convert(m).Some?
        {
          if m.owners[i].kind == NODE_CLAIM_KIND {
            var c := convert(m);
            if c.None? {
              assert m in items && OwnedByNodeClaim(m);
              return None;
            }
            out := out + [c.value];
          }
        }
      }
      retrieved := Some(out);
    }

    /** One pass on one snapshot. With every machine convertible it deletes exactly the garbage; otherwise nothing. */
    method Reconcile(convert: Machine -> Option<Retrieved>, items: seq<Machine>, recorded: set<string>, now: nat)
      returns (ok: bool)
      requires Sound(machines) && Keeps(convert)
      requires forall m :: m in items <==> m.name in machines && machines[m.name] == m
      modifies this
      ensures ok <==> forall m | m in items && OwnedByNodeClaim(m) :: convert(m).Some?
      ensures ok ==> machines == Survivors(old(machines), recorded, now) && successfulCount == old(successfulCount) + 1
      ensures !ok ==> machines == old(machines) && successfulCount == old(successfulCount)
    {
      var retrieved := List(convert, items);
      if retrieved.None? {
        return false;
      }
      ghost var all := machines;
      ghost var gone: set<string> := {};
      for k := 0 to |retrieved.value|
        invariant machines == all - gone && successfulCount == old(successfulCount)
        invariant AreCollected(retrieved.value, k, recorded, now, gone)
      {
        var r := retrieved.value[k];
        if IsDue(r, recorded, now) {
          assert r in retrieved.value;
          ghost var m :| m in items && OwnedByNodeClaim(m) && Some(r) == convert(m);
          GarbageCollect(r, all);
          RemoveBoth(all, gone, r.ownedMachine);
          CollectDue(retrieved.value, k, recorded, now, gone);
          gone := gone + {r.ownedMachine};
        } else {
          SkipNotDue(retrieved.value, k, recorded, now, gone);
        }
      }
      GoneIsGarbage(convert, all, items, retrieved.value, recorded, now, gone);
      successfulCount := successfulCount + 1;
      return true;
    }
  }

  /** What a pass should leave. */
  function Survivors(machines: map<string, Machine>, recorded: set<string>, now: nat): map<string, Machine> {
    map n | n in machines && !IsGarbage(machines[n], recorded, now) :: machines[n]
  }

  /** A machine is gone exactly when it is owned by a claim, marked as managed, not being deleted, recorded by no claim,
      and older than 30 s. */
  lemma GoneIff(machines: map<string, Machine>, recorded: set<string>, now: nat, n: string)
    requires Sound(machines) && n in machines
    ensures var m := machines[n];
            n !in Survivors(machines, recorded, now) <==>
            && (exists k | 0 <= k < |m.owners| :: m.owners[k].kind == "NodeClaim")
            && Lookup(m.annotations, "karpenter.k8s.tke/managed-by") != "" && m.phase != "Deleting"
            && n !in recorded && now > m.created + 30_000_000_000
  {
    assert AnnotationKeys.KeyText(AnnotationKeys.ManagedBy) == "karpenter.k8s.tke/managed-by";
  }

  lemma SubsetIsSound(all: map<string, Machine>, some: map<string, Machine>)
    requires Sound(all) && some.Keys <= all.Keys && forall n | n in some :: some[n] == all[n]
    ensures Sound(some)
  {}

  /** The provider's Delete, called with no claim name, can only have hit the retrieved machine itself. */
  lemma OnlyItsOwn(all: map<string, Machine>, before: map<string, Machine>, after: map<string, Machine>, r: Retrieved)
    requires Sound(all) && r.ownedMachine in all && all[r.ownedMachine].providerID == r.providerID
    requires before.Keys <= all.Keys && forall n | n in before :: before[n] == all[n]
    requires MayDelete(before, after, "", r.providerID)
    ensures after == before || after == before - {r.ownedMachine}
    ensures r.providerID == "" ==> after == before
  {
    if after != before {
      var n :| n in before && after == before - {n} && IsTarget(before[n], "", r.providerID);
      assert all[n] == before[n];
    }
  }

  lemma GoneIsGarbage(convert: Machine -> Option<Retrieved>, all: map<string, Machine>, items: seq<Machine>,
                      retrieved: seq<Retrieved>, recorded: set<string>, now: nat, gone: set<string>)
    requires Sound(all) && Keeps(convert)
    requires forall m | m in items && OwnedByNodeClaim(m) :: convert(m).Some?
    requires forall m :: m in items <==> m.name in all && all[m.name] == m
    requires forall r :: r in retrieved <==> exists m | m in items && OwnedByNodeClaim(m) :: Some(r) == convert(m)
    requires AreCollected(retrieved, |retrieved|, recorded, now, gone)
    ensures all - gone == Survivors(all, recorded, now)
  {
    forall n | n in all ensures n in gone <==> IsGarbage(all[n], recorded, now) {
      var m := all[n];
      assert m in items;
      if IsGarbage(m, recorded, now) {
        assert Some(RetrievedOf(m)) == convert(m);
        assert RetrievedOf(m) in retrieved;
        var l :| 0 <= l < |retrieved| && retrieved[l] == RetrievedOf(m);
        assert Collected(retrieved, |retrieved|, recorded, now, n);
      }
      if n in gone {
        var l :| 0 <= l < |retrieved| && IsDue(retrieved[l], recorded, now) && retrieved[l].ownedMachine == n;
        assert retrieved[l] in retrieved;
        var other :| other in items && OwnedByNodeClaim(other) && Some(retrieved[l]) == convert(other);
        assert other == m;
      }
    }
  }

  /** Whether an earlier pass took place shows in what a later one leaves exactly when a claim has come, in between, to
      record a machine the earlier pass deleted. */
  lemma EarlierPassIsMootIff(machines: map<string, Machine>, recorded: set<string>, now: nat,
                             recordedLater: set<string>, later: nat)
    requires Sound(machines) && now <= later
    ensures Survivors(Survivors(machines, recorded, now), recordedLater, later) ==
            Survivors(machines, recordedLater, later) <==>
            forall n | n in machines && IsGarbage(machines[n], recorded, now) :: n !in recordedLater
  {
    var twice := Survivors(Survivors(machines, recorded, now), recordedLater, later);
    var once := Survivors(machines, recordedLater, later);
    forall n | n in machines && IsGarbage(machines[n], recorded, now)
      ensures n !in twice && (n in once <==> n in recordedLater)
    {
      assert RetrievedOf(machines[n]).ownedMachine == n;
    }
  }
}
