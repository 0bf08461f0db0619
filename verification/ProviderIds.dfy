/** The two provider-ID reconcilers (pkg/controllers/nodeclaim/providerid): one fills in a claim's ID, with a
    placeholder if need be, the other replaces it by the machine's real ID and labels the machine. Each reconcile
    is one atomic step. */
module ProviderIds {
  import opened Objects

  function Placeholder(machine: string): string {
    "placeholder-" + machine
  }

  /* ---------- what one reconcile does ---------- */

  /** The claim a machine belongs to: its first owner of that kind, empty when there is none. */
  function OwnerOf(owners: seq<OwnerReference>): string {
    if owners == [] then ""
    else if owners[0].kind == NODE_CLAIM_KIND then owners[0].name
    else OwnerOf(owners[1..])
  }

  /** The owner that counts is the first claim among the owners. */
  lemma {:induction false} OwnerIsFirstClaim(owners: seq<OwnerReference>, k: nat)
    requires k < |owners| && owners[k].kind == "NodeClaim" && forall l | 0 <= l < k :: owners[l].kind != "NodeClaim"
    ensures OwnerOf(owners) == owners[k].name
    decreases k
  {
    if k > 0 {
      assert forall l | 0 <= l < k :: owners[1..][l] == owners[l + 1];
      OwnerIsFirstClaim(owners[1..], k - 1);
    }
  }

  function Initialize(m: Machine): Machine {
    m.(labels := m.labels[LABEL_INITIALIZED := "true"])
  }

  /** The condition on which the machine reconciler's events are let through. */
  predicate PassesFilter(m: Machine) {
    m.providerID != "" && m.owners != [] && Lookup(m.labels, LABEL_INITIALIZED) == "" &&
      Lookup(m.labels, LABEL_NODE_CLAIM) != ""
  }

  /** The existing claims with their provider IDs, and the machines by name. */
  datatype Objs = Objs(claims: map<string, string>, machines: map<string, Machine>)

  function ReconciledMachine(o: Objs, name: string): Objs
    requires name in o.machines
  {
    var claim := OwnerOf(o.machines[name].owners);
    if claim == "" || claim !in o.claims then o
    else Objs(o.claims[claim := o.machines[name].providerID], o.machines[name := Initialize(o.machines[name])])
  }

  predicate LabelledFor(m: Machine, claim: string) {
    LABEL_NODE_CLAIM in m.labels && m.labels[LABEL_NODE_CLAIM] == claim
  }

  /** The claim's ID from the machine the list happens to put first. */
  ghost predicate ReconciledClaim(o: Objs, claim: string, o': Objs)
    requires claim in o.claims
  {
    if o.claims[claim] != "" || (forall n | n in o.machines :: !LabelledFor(o.machines[n], claim)) then o' == o
    else
      exists n | n in o.machines && LabelledFor(o.machines[n], claim) ::
        o' == o.(claims := o.claims[claim := if o.machines[n].providerID == "" then Placeholder(n)
                                    else o.machines[n].providerID])
  }

  /** The objects in the API server, and the two controllers working on them. */
  class Store {
    var claims: map<string, string>
    var machines: map<string, Machine>

    constructor (o: Objs)
      ensures View() == o
    {
      claims, machines := o.claims, o.machines;
    }

    function View(): Objs
      reads this
    {
      Objs(claims, machines)
    }

    /** Every lookup of the claim and both patches, as one step. */
    method ReconcileMachine(name: string)
      requires name in machines
      modifies this
      ensures View() == ReconciledMachine(old(View()), name)
    {
      var m := machines[name];
      var nodeClaimName := "";
      for k := 0 to |m.owners|
        invariant nodeClaimName == "" && OwnerOf(m.owners) == OwnerOf(m.owners[k..])
      {
        if m.owners[k].kind == NODE_CLAIM_KIND {
          nodeClaimName := m.owners[k].name;
          break;
        }
      }
      if nodeClaimName == "" {
        return;
      }
      if nodeClaimName !in claims {
        return;
      }
      claims := claims[nodeClaimName := m.providerID];
      machines := machines[name := m.(labels := m.labels[LABEL_INITIALIZED := "true"])];
    }

    method ReconcileClaim(claim: string)
      requires claim in claims
      modifies this
      ensures ReconciledClaim(old(View()), claim, View())
    {
      if claims[claim] != "" {
        return;
      }
      var labelled := set n | n in machines && LabelledFor(machines[n], claim);
      if labelled == {} {
        assert forall n | n in machines :: !LabelledFor(machines[n], claim) by {
          assert forall n | n in machines && LabelledFor(machines[n], claim) :: n in labelled;
        }
        return;
      }
      var first :| first in labelled;
      if machines[first].providerID == "" {
        claims := claims[claim := Placeholder(first)];
      } else {
        claims := claims[claim := machines[first].providerID];
      }
    }
  }

  /* ---------- the protocol ---------- */

  /** The objects, with what ever happened: which machine was made for which claim, and which IDs were assigned. */
  datatype World = World(o: Objs, used: set<string>, made: map<string, string>, ids: map<string, string>)

  datatype Event =
    | AddClaim(claim: string)
    | DropClaim(claim: string)
    | AddMachine(claim: string, m: Machine)
    | DropMachine(name: string)
    | AssignID(name: string, id: string)
    | ReconcileMachine(name: string)
    | ReconcileClaim(claim: string)

  /** Claim names are not reused, a claim gets at most one machine, which Create labels and makes it own, and a
      machine gets its ID once. The machine reconciler runs on machines that once passed its filter; by then it may
      have run already. */
  ghost predicate Step(w: World, w': World, e: Event) {
    match e
    case AddClaim(c) =>
      c !in w.used && c != "" && w' == w.(o := w.o.(claims := w.o.claims[c := ""]), used := w.used + {c})
    case DropClaim(c) =>
      w' == w.(o := w.o.(claims := w.o.claims - {c}))
    case AddMachine(c, m) =>
      && c in w.used && c !in w.made && m.name !in w.made.Values
      && m.providerID == "" && m.owners == [OwnerReference(NODE_CLAIM_KIND, c)]
      && LabelledFor(m, c) && LABEL_INITIALIZED !in m.labels
      && w' == w.(o := w.o.(machines := w.o.machines[m.name := m]), made := w.made[c := m.name])
    case DropMachine(n) =>
      w' == w.(o := w.o.(machines := w.o.machines - {n}))
    case AssignID(n, id) =>
      && n in w.o.machines && w.o.machines[n].providerID == "" && id != ""
      && w' == w.(o := w.o.(machines := w.o.machines[n := w.o.machines[n].(providerID := id)]), ids := w.ids[n := id])
    case ReconcileMachine(n) =>
      && n in w.o.machines && w.o.machines[n].providerID != ""
      && w' == w.(o := ReconciledMachine(w.o, n))
    case ReconcileClaim(c) =>
      && c in w.o.claims && w'.used == w.used && w'.made == w.made && w'.ids == w.ids
      && ReconciledClaim(w.o, c, w'.o)
  }

  const START := World(Objs(map[], map[]), {}, map[], map[])

  ghost predicate IsRun(worlds: seq<World>, events: seq<Event>) {
    && |worlds| == |events| + 1 && worlds[0] == START
    && forall k | 0 <= k < |events| :: Step(worlds[k], worlds[k + 1], events[k])
  }

  /* ---------- the invariant ---------- */

  /** Machine n is the one made for claim c, and says so. */
  ghost predicate Belongs(w: World, n: string, c: string)
    requires n in w.o.machines
  {
    var m := w.o.machines[n];
    c != "" && c in w.made && w.made[c] == n && m.owners == [OwnerReference(NODE_CLAIM_KIND, c)] && LabelledFor(m, c)
  }

  ghost predicate HoldsRealID(w: World, c: string) {
    c in w.o.claims && c in w.made && w.made[c] in w.ids && w.o.claims[c] == w.ids[w.made[c]]
  }

  /** A claim's ID is empty, its own machine's placeholder, or its own machine's real ID. */
  ghost predicate ClaimIsSound(w: World, c: string)
    requires c in w.o.claims
  {
    || w.o.claims[c] == ""
    || (c in w.made && w.o.claims[c] == "placeholder-" + w.made[c])
    || HoldsRealID(w, c)
  }

  ghost predicate MachineIsSound(w: World, n: string)
    requires n in w.o.machines
  {
    var m := w.o.machines[n];
    && (exists c :: Belongs(w, n, c))
    && (if m.providerID == "" then n !in w.ids else n in w.ids && w.ids[n] == m.providerID)
    && (LABEL_INITIALIZED in m.labels ==>
          m.providerID != "" && forall c | Belongs(w, n, c) && c in w.o.claims :: HoldsRealID(w, c))
  }

  ghost predicate Inv(w: World) {
    && w.o.claims.Keys <= w.used && w.made.Keys <= w.used && "" !in w.used
    && (forall c, d | c in w.made && d in w.made && w.made[c] == w.made[d] :: c == d)
    && (forall n | n in w.ids :: w.ids[n] != "" && n in w.made.Values)
    && (forall c | c in w.o.claims :: ClaimIsSound(w, c))
    && (forall n | n in w.o.machines :: MachineIsSound(w, n))
  }

  lemma LabelsDiffer()
    ensures LABEL_INITIALIZED != LABEL_NODE_CLAIM
  {
    assert |LABEL_INITIALIZED| != |LABEL_NODE_CLAIM|;
  }

  lemma OwnerOfMade(w: World, n: string, c: string)
    requires Inv(w) && n in w.o.machines && Belongs(w, n, c)
    ensures OwnerOf(w.o.machines[n].owners) == c
    ensures forall d :: Belongs(w, n, d) <==> d == c
    ensures forall d :: LabelledFor(w.o.machines[n], d) <==> d == c
  {}

  lemma ReconcileMachineKeepsInv(w: World, w': World, n: string)
    requires Inv(w) && Step(w, w', ReconcileMachine(n))
    ensures Inv(w')
  {
    LabelsDiffer();
    assert MachineIsSound(w, n);
    var c :| Belongs(w, n, c);
    OwnerOfMade(w, n, c);
    if c in w.o.claims {
      assert HoldsRealID(w', c);
      forall d | d in w'.o.claims ensures ClaimIsSound(w', d) {
        assert ClaimIsSound(w, d);
      }
      forall k | k in w'.o.machines ensures MachineIsSound(w', k) {
        MachineStaysSound(w, w', n, c, k);
      }
    }
  }

  lemma MachineStaysSound(w: World, w': World, n: string, c: string, k: string)
    requires Inv(w) && Step(w, w', ReconcileMachine(n)) && Belongs(w, n, c) && c in w.o.claims && HoldsRealID(w', c)
    requires w'.o.claims == w.o.claims[c := w.o.machines[n].providerID]
    requires w'.o.machines == w.o.machines[n := Initialize(w.o.machines[n])]
    requires k in w'.o.machines
    ensures MachineIsSound(w', k)
  {
    LabelsDiffer();
    if k == n {
      assert MachineIsSound(w, n);
      assert Belongs(w', n, c) && forall d :: Belongs(w', n, d) <==> Belongs(w, n, d);
      OwnerOfMade(w, n, c);
    } else {
      UntouchedStaysSound(w, w', k);
    }
  }

  /** A machine no step touched stays sound when its claim's real ID, if held, is still held. */
  lemma UntouchedStaysSound(w: World, w': World, k: string)
    requires Inv(w) && k in w.o.machines && k in w'.o.machines && w'.o.machines[k] == w.o.machines[k]
    requires forall c :: c in w'.made && w'.made[c] == k <==> c in w.made && w.made[c] == k
    requires (k in w'.ids <==> k in w.ids) && (k in w.ids ==> w'.ids[k] == w.ids[k])
    requires forall c | c in w.made && w.made[c] == k && c in w'.o.claims ::
               c in w.o.claims && (HoldsRealID(w, c) ==> HoldsRealID(w', c))
    ensures MachineIsSound(w', k)
  {
    assert MachineIsSound(w, k);
    var c :| Belongs(w, k, c);
    OwnerOfMade(w, k, c);
    assert Belongs(w', k, c) && forall d :: Belongs(w', k, d) <==> d == c;
  }

  /** What the claim reconciler writes comes from the claim's own machine. */
  lemma FilledFromOwnMachine(w: World, w': World, c: string) returns (n: string)
    requires Inv(w) && Step(w, w', ReconcileClaim(c)) && w'.o != w.o
    ensures n in w.o.machines && Belongs(w, n, c) && w.o.claims[c] == ""
    ensures var id := w.o.machines[n].providerID;
            w' == w.(o := w.o.(claims := w.o.claims[c := if id == "" then Placeholder(n) else id]))
  {
    n :| n in w.o.machines && LabelledFor(w.o.machines[n], c) &&
         w'.o == w.o.(claims := w.o.claims[c := if w.o.machines[n].providerID == "" then Placeholder(n)
                                                else w.o.machines[n].providerID]);
    assert MachineIsSound(w, n);
    var d :| Belongs(w, n, d);
    OwnerOfMade(w, n, d);
  }

  lemma ReconcileClaimKeepsInv(w: World, w': World, c: string)
    requires Inv(w) && Step(w, w', ReconcileClaim(c))
    ensures Inv(w')
  {
    if w'.o == w.o {
      assert w' == w;
    } else {
      var n := FilledFromOwnMachine(w, w', c);
      assert MachineIsSound(w, n);
      assert ClaimIsSound(w', c);
      forall e | e in w'.o.claims && e != c ensures ClaimIsSound(w', e) {
        assert ClaimIsSound(w, e);
      }
      forall k | k in w'.o.machines ensures MachineIsSound(w', k) {
        UntouchedStaysSound(w, w', k);
      }
    }
  }

  lemma AssignKeepsRealIDs(w: World, w': World, n: string, id: string, c: string)
    requires Inv(w) && Step(w, w', AssignID(n, id))
    ensures HoldsRealID(w, c) ==> HoldsRealID(w', c)
  {
    assert MachineIsSound(w, n);
  }

  lemma AssignedStaysSound(w: World, w': World, n: string, id: string)
    requires Inv(w) && Step(w, w', AssignID(n, id))
    ensures MachineIsSound(w', n) && n in w.made.Values
  {
    assert MachineIsSound(w, n);
    var c :| Belongs(w, n, c);
    assert Belongs(w', n, c);
  }

  lemma AssignKeepsInv(w: World, w': World, n: string, id: string)
    requires Inv(w) && Step(w, w', AssignID(n, id))
    ensures Inv(w')
  {
    AssignedStaysSound(w, w', n, id);
    forall c ensures HoldsRealID(w, c) ==> HoldsRealID(w', c) {
      AssignKeepsRealIDs(w, w', n, id, c);
    }
    forall c | c in w'.o.claims ensures ClaimIsSound(w', c) {
      assert ClaimIsSound(w, c);
    }
    forall k | k in w'.o.machines && k != n ensures MachineIsSound(w', k) {
      UntouchedStaysSound(w, w', k);
    }
  }

  lemma AddMachineKeepsInv(w: World, w': World, c: string, m: Machine)
    requires Inv(w) && Step(w, w', AddMachine(c, m))
    ensures Inv(w')
  {
    assert forall d | d in w.made :: w'.made[d] == w.made[d];
    forall d | d in w'.o.claims ensures ClaimIsSound(w', d) {
      assert ClaimIsSound(w, d);
    }
    forall n | n in w'.ids ensures n in w'.made.Values {
      var d :| d in w.made && w.made[d] == n;
      assert w'.made[d] == n;
    }
    assert Belongs(w', m.name, c);
    forall k | k in w'.o.machines ensures MachineIsSound(w', k) {
      if k != m.name {
        UntouchedStaysSound(w, w', k);
      }
    }
  }

  lemma OtherStepsKeepInv(w: World, w': World, e: Event)
    requires Inv(w) && Step(w, w', e) && (e.AddClaim? || e.DropClaim? || e.DropMachine?)
    ensures Inv(w')
  {
    forall c | c in w'.o.claims ensures ClaimIsSound(w', c) {
      assert c in w.o.claims ==> ClaimIsSound(w, c);
    }
    forall k | k in w'.o.machines ensures MachineIsSound(w', k) {
      UntouchedStaysSound(w, w', k);
    }
  }

  lemma StepKeepsInv(w: World, w': World, e: Event)
    requires Inv(w) && Step(w, w', e)
    ensures Inv(w')
  {
    match e {
      case ReconcileMachine(n) => ReconcileMachineKeepsInv(w, w', n);
      case ReconcileClaim(c) => ReconcileClaimKeepsInv(w, w', c);
      case AssignID(n, id) => AssignKeepsInv(w, w', n, id);
      case AddMachine(c, m) => AddMachineKeepsInv(w, w', c, m);
      case _ => OtherStepsKeepInv(w, w', e);
    }
  }

  /** In every world of every run a claim's ID is empty, its machine's placeholder or its machine's real ID, and a
      machine labelled as initialised has an ID that its claim, while it exists, holds. */
  lemma {:induction false} ProtocolIsSound(worlds: seq<World>, events: seq<Event>, k: nat)
    requires IsRun(worlds, events) && k < |worlds|
    ensures Inv(worlds[k])
    decreases k
  {
    if k > 0 {
      ProtocolIsSound(worlds, events, k - 1);
      StepKeepsInv(worlds[k - 1], worlds[k], events[k - 1]);
    }
  }

  lemma StepKeepsRealID(w: World, w': World, e: Event, c: string)
    requires Inv(w) && Step(w, w', e) && HoldsRealID(w, c) && c in w'.o.claims
    ensures HoldsRealID(w', c) && w'.o.claims[c] == w.o.claims[c]
  {
    match e {
      case ReconcileMachine(n) =>
        assert MachineIsSound(w, n);
        var d :| Belongs(w, n, d);
        OwnerOfMade(w, n, d);
      case AssignID(n, id) =>
        assert MachineIsSound(w, n);
      case _ =>
    }
  }

  /** Once a claim holds its machine's real ID it holds that ID for as long as it exists. */
  lemma {:induction false} RealIDNeverChanges(worlds: seq<World>, events: seq<Event>, i: nat, j: nat, c: string)
    requires IsRun(worlds, events) && i <= j < |worlds|
    requires HoldsRealID(worlds[i], c) && c in worlds[j].o.claims
    ensures worlds[j].o.claims[c] == worlds[i].o.claims[c] && HoldsRealID(worlds[j], c)
    decreases j
  {
    if i < j {
      ProtocolIsSound(worlds, events, j - 1);
      ProtocolIsSound(worlds, events, i);
      ClaimsDoNotReturn(worlds, events, i, j, c);
      RealIDNeverChanges(worlds, events, i, j - 1, c);
      StepKeepsRealID(worlds[j - 1], worlds[j], events[j - 1], c);
    }
  }

  lemma {:induction false} UsedGrows(worlds: seq<World>, events: seq<Event>, i: nat, j: nat)
    requires IsRun(worlds, events) && i <= j < |worlds|
    ensures worlds[i].used <= worlds[j].used
    decreases j
  {
    if i < j {
      UsedGrows(worlds, events, i, j - 1);
      assert Step(worlds[j - 1], worlds[j], events[j - 1]);
    }
  }

  /** A claim that exists at two times existed all the while: names are not reused. */
  lemma ClaimsDoNotReturn(worlds: seq<World>, events: seq<Event>, i: nat, j: nat, c: string)
    requires IsRun(worlds, events) && i < j < |worlds|
    requires c in worlds[i].o.claims && c in worlds[j].o.claims
    ensures c in worlds[j - 1].o.claims
  {
    ProtocolIsSound(worlds, events, i);
    UsedGrows(worlds, events, i, j - 1);
    assert Step(worlds[j - 1], worlds[j], events[j - 1]);
  }

  /* ---------- convergence ---------- */

  /** With the machine's ID assigned, the machine reconciler alone settles both objects, whether or not the claim
      reconciler ran before it or runs after it. */
  lemma ReconcilersConverge(w: World, n: string, c: string, o1: Objs, o2: Objs)
    requires Inv(w) && n in w.o.machines && w.o.machines[n].providerID != "" && Belongs(w, n, c) && c in w.o.claims
    requires ReconciledClaim(w.o, c, o1)
    requires ReconciledClaim(ReconciledMachine(w.o, n), c, o2)
    ensures n in o1.machines && ReconciledMachine(o1, n) == o2
    ensures o2.claims[c] == w.o.machines[n].providerID && o2.machines[n] == Initialize(w.o.machines[n])
  {
    OwnerOfMade(w, n, c);
  }

  /** A machine passes the filter when it was given an ID and is not labelled as initialised; the reconciler may then
      run on it, and afterwards it passes no more, unless its claim is gone. */
  lemma PassingIsReconciled(w: World, n: string, c: string)
    requires Inv(w) && n in w.o.machines && Belongs(w, n, c)
    ensures var m, w' := w.o.machines[n], w.(o := ReconciledMachine(w.o, n));
            && (PassesFilter(m) <==> n in w.ids && Lookup(m.labels, LABEL_INITIALIZED) == "")
            && (PassesFilter(m) ==>
                  Step(w, w', ReconcileMachine(n)) && (PassesFilter(w'.o.machines[n]) <==> c !in w.o.claims))
  {
    assert MachineIsSound(w, n);
    OwnerOfMade(w, n, c);
    assert Lookup(w.o.machines[n].labels, LABEL_NODE_CLAIM) == c;
  }

  /** The filter lets everything through that is left to do: once no machine passes it, every existing claim whose
      machine has an ID holds that ID. */
  lemma QuietMeansSettled(w: World, n: string, c: string)
    requires Inv(w) && forall k | k in w.o.machines :: !PassesFilter(w.o.machines[k])
    requires n in w.o.machines && w.o.machines[n].providerID != "" && Belongs(w, n, c) && c in w.o.claims
    ensures HoldsRealID(w, c) && w.o.claims[c] == w.o.machines[n].providerID
  {
    assert MachineIsSound(w, n);
    assert Lookup(w.o.machines[n].labels, LABEL_NODE_CLAIM) == c;
    assert LABEL_INITIALIZED in w.o.machines[n].labels;
  }

  /** The filter is needed: a machine without an ID would be labelled as initialised with its claim left without one. */
  lemma UnfilteredReconcileBreaks(w: World, n: string, c: string)
    requires Inv(w) && n in w.o.machines && Belongs(w, n, c) && c in w.o.claims
    ensures var o := ReconciledMachine(w.o, n);
            LABEL_INITIALIZED in o.machines[n].labels &&
            (o.claims[c] != "" <==> w.o.machines[n].providerID != "")
  {
    OwnerOfMade(w, n, c);
  }
}
