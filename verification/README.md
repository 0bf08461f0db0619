# Karpenter provider for TKE: a verified model

This project models the stateful and arithmetic core of the provider in Dafny and proves what its parts promise
each other. `dafny verify dfyconfig.toml` checks all of it.

## What is modelled

**The failure feedback loop.** The instance type provider keeps one expiring cache with two kinds of entries: blocks
(30 minutes) and failure counters (one hour, renewed by each add). A pass of the failure controller sorts failed
machines into tolerated shortages and unknown failures, raises counters in between, and blocks the second kind; `List`
then leaves blocked triples out, and a launch can only take what `List` offers. `Blacklist` is the cache,
`InstanceTypes` the provider, `FailureController` the controller, `FeedbackLoop` the closed loop over every run of
launches, passes, clock ticks and arbitrary changes to the machines, `FailureHistory` what failed machines do to the
cache over whole runs, and `OpenLoop` the cases in which the loop stays open. Main results: the eight string lookups
are wildcard matching over the unexpired blocks of the history, with the exact condition on the names; a counter is
the longest gap chain of adds; a type whose failures form a long chain is blocked; escalation misses nobody; a pass
blocks exactly what its unknown failures cover, which after a user spot quota is every type; counters stay bounded; and
what a pass or a refusal blocked is not created again for thirty minutes, if and only if no quota item is on sale in a
zone the provider writes under another name.

**The launch pipeline and its inverse.** `LaunchChoice` filters, truncates and sorts; `MachineLaunch` writes the
choice into a Machine; `CloudProvider` puts a launch together; `ReadBack` converts a Machine back into a NodeClaim;
`LaunchRoundTrip` joins both ends. `CheapestLaunch` traces prices from the quota items to the machine,
`LaunchedMachine` says what the other controllers find on it, and `InstanceSizes` what the sizes of a listed type
amount to. `ZoneCodec` and `Zone` hold the zone codec both directions rest on. Main results: what a launch takes is
the unique cheapest choice, and no suitable quota item on sale that the spot filter keeps is cheaper; all parts of the
Machine stem from one offering; the failure pass and the provider-ID protocol recognise it; and reading it back gives
the capacity, allocatable and identifying labels of the listed type.

**Deduplication and defaulting in place.** `Dedup`, `Defaults`, `RollingUpgradeDefaults` and `KubeletArgs` work on
arrays and objects. One defaulting pass is idempotent exactly under a stated condition; the generated multi-pass
functions always are; the shared table of weekdays survives being compacted through its alias. `DefaultedFields` says,
field by field, what the user set and keeps and what is filled in.

**Reservations.** `Reservation` shows that brackets, kdump, overhead and eviction leave room on every machine, with
the exact bound on the configured overhead fraction.

**Ownership.** `ProviderIds` is the protocol of the two provider-ID reconcilers over every run, `GarbageCollection`
one collector pass on a snapshot.

**Subnets.** `SubnetSelection` goes from selector terms through cloud queries to the subnet a launch uses.

Objects the source mutates are classes whose methods are tied to functions of the old state; the theorems are lemmas
about those functions and about step relations built from them. `FeedbackLoop.LaunchOnce` and `FeedbackLoop.PassOnce`
show that creating through the cloud provider and reconciling the failures take the steps of the loop; the operator
hands both providers the same region table (`pkg/operator/operator.go:86-91`).
`SliceSort` stands in for Go's `sort.Slice`: any ordered permutation may come out. `Text` has the strings and decimal
numbers.

## Where the code is not what it says

- `pkg/providers/machine/machine.go:376-378` writes reserved ephemeral storage under the memory key, over the
  reserved memory. `ReadBack.AllocatableReadsBackIff`: allocatable reads back exactly when no ephemeral storage is
  reserved, which holds for everything `List` builds.
- `pkg/providers/instancetype/kdump.go:32` ends the third level at the largest 32-bit integer, below its own start:
  from 128 GiB on no kdump memory is reserved (`Reservation.ShippedKdumps`).
- The memory reservations fit every machine exactly when the overhead fraction is below 167/256; the option is only
  checked for negative values (`Reservation.MemoryFitsIff`).
- `staging/nativenode/v1beta1/defaults.go:275-279` means to default the upgrade duration to two hours but tests a
  text that is never empty (`RollingUpgradeDefaults.DurationIsNeverDefaulted`). The comment at line 296 says 25%, the
  code sets 1; the model follows the code.
- A spec pass over a native machine without any raw spec dereferences nil (`Defaults.PanicsIff`).
- Zone names with leading zeros are accepted but come back without them; for such zones a block never reaches the
  quota item it was meant for (`OpenLoop.LoopOpensIff`).
- The best type survives the spot filter only if no available on-demand offering, usable or not, undercuts it
  (`LaunchChoice.BestSurvivesIff`, `LaunchChoice.UnusableOfferingRemovesTheBest`).
- With two clock readings in one pass a machine can fall between the two failure filters
  (`FailureController.TwoReadingsMissIff`, with an input in `FailureController.SlowPassMissesAMachine`); everything else
  about passes assumes one reading.
- Instance names that extend each other by a capacity type share cache keys, so that a block of one hits the other
  (`Blacklist.NamesCollideIff`, `Blacklist.DashedNamesCollide`).

## Model

| member | source | states |
|---|---|---|
| Blacklist.LookupsAreWildcardMatching | pkg/providers/instancetype/instancetype.go:222-284 | after any timed history of blocks and adds, the eight lookups answer yes exactly when an unexpired block's pattern matches component by component, `*` matching anything, for every name that shares no key with a blocked name |
| Blacklist.AnswersAsPatternIff | pkg/providers/instancetype/instancetype.go:222-284 | blocks of a name answer lookups of another as patterns, for all known capacity types and zones, if and only if the blocked name extends, and is extended by, neither that name nor `*` |
| Blacklist.LiveBlocks | pkg/providers/instancetype/instancetype.go:222-230 | a key is live exactly when the history holds a block of this very pattern at most 30 minutes old |
| Blacklist.KeyTailIsInjective | pkg/providers/instancetype/instancetype.go:223-246 | dash-joined keys decode uniquely for known capacity types and names of which neither extends the other |
| Blacklist.NamesCollideIff | pkg/providers/instancetype/instancetype.go:223-246 | two different names can share a key if and only if the longer is the shorter one, a dash and a known capacity type, or goes on from there with a dash |
| Blacklist.DashFreeNamesAreSeparate | pkg/providers/instancetype/instancetype.go:223-246 | names without dashes never collide |
| Blacklist.KeysDiffer | pkg/providers/instancetype/instancetype.go:223-246 | block keys never meet counter keys |
| Blacklist.DashedNamesCollide | pkg/providers/instancetype/instancetype.go:222-253 | whenever one name extends another, some block of either hits a triple of the other that its pattern does not match |
| Blacklist.FailureCountIsGapChain | pkg/providers/instancetype/instancetype.go:232-248 | after any timed history the count read is the length of the longest suffix of that key's adds with gaps, and distance to now, of at most one hour |
| Blacklist.KeysCountOwnAdds | pkg/providers/instancetype/instancetype.go:232-248 | with every counted name separate from it, the adds under a triple's key are that triple's own |
| Blacklist.StoredChain | pkg/providers/instancetype/instancetype.go:240-248 | what the cache stores for a triple is the chain of its key so far, expiring one hour after the last add |
| InstanceTypes.Provider.BlockInstanceType | pkg/providers/instancetype/instancetype.go:222-230 | the new cache is the old one with this block renewed for 30 minutes; no entry can have the wrong type |
| InstanceTypes.Provider.GetInsufficientFailureCount | pkg/providers/instancetype/instancetype.go:232-238 | the live count, 0 when there is none, and the type assertion cannot fail |
| InstanceTypes.Provider.AddInsufficientFailure | pkg/providers/instancetype/instancetype.go:240-248 | counts on from the live count and renews it for an hour, leaving every other entry alone |
| InstanceTypes.Provider.CreateOfferings | pkg/providers/instancetype/instancetype.go:388-403 | one offering for the item; that it has the item's price, zone and zone ID, available exactly when on sale and in stock, is stated by `ListedOfferingIsUnblocked` and `UnblockedItemIsListed` |
| InstanceTypes.Provider.AddOnDemand | pkg/providers/instancetype/instancetype.go:191-198 | under every name the offerings of its unblocked items in order; the last item of each type is kept |
| InstanceTypes.Provider.AddSpot | pkg/providers/instancetype/instancetype.go:200-208 | spot offerings follow the on-demand ones; the first unblocked spot item of a type is kept where there is no on-demand one |
| InstanceTypes.Provider.BuildAll | pkg/providers/instancetype/instancetype.go:214-218 | one instance type per map entry, in any order, with exactly its offerings |
| InstanceTypes.Provider.List | pkg/providers/instancetype/instancetype.go:191-220 | exactly one type per name, carrying exactly the unblocked offerings of that name |
| InstanceTypes.OfferedIff | pkg/providers/instancetype/instancetype.go:191-208 | an offering is listed if and only if an unblocked quota item of that type stands behind it |
| InstanceTypes.ListedOfferingIsUnblocked | pkg/providers/instancetype/instancetype.go:191-220 | every offering of every listed type stems from a quota item, of its capacity type's list, whose triple is not blocked at that moment, and has that item's unit price, zone, zone ID and availability |
| InstanceTypes.UnblockedItemIsListed | pkg/providers/instancetype/instancetype.go:191-208 | every quoted item that is not blocked is offered by the listed type of its name, at its own price |
| InstanceTypes.OfferedInOrder | pkg/providers/instancetype/instancetype.go:193-204 | the offerings of a type are its unblocked items in the order the cloud quotes them, one each |
| InstanceTypes.ListedInOrder | pkg/providers/instancetype/instancetype.go:193-208 | a listed type offers its on-demand items first, then its spot ones |
| InstanceTypes.LastByTypeIs | pkg/providers/instancetype/instancetype.go:193-198 | a name with on-demand items is sized by the last of them |
| InstanceTypes.ByTypeIs | pkg/providers/instancetype/instancetype.go:200-208 | any other name is sized by its first unblocked spot item, and names with neither are not listed |
| InstanceTypes.ListedTypeLeavesRoom | pkg/providers/instancetype/types.go:86-117 | a listed type of at least one core and one GB keeps CPU and memory for pods, and storage if it has any |
| InstanceSizes.PodsOfListed | pkg/providers/instancetype/types.go:86-205 | pods are the cluster limit less three outside VPC-CNI; else the static addresses of the first limits for the type in its zone, at least 61; else 110 |
| InstanceSizes.DevicesOfListed | pkg/providers/instancetype/types.go:149-238 | the network devices are those of these limits, and there are none without |
| InstanceSizes.AddressesAndGPUsOfListed | pkg/providers/instancetype/types.go:159-174 | public addresses where the zone has limits, and the GPUs of the item where it has any |
| InstanceSizes.EIPFormula | pkg/providers/instancetype/types.go:207-229 | one public address for every six cores, at least one and at most nine |
| InstanceSizes.OverheadOfListed | pkg/providers/instancetype/types.go:110-114 | CPU and memory are reserved for Kubernetes, nothing for the system, 100 MiB and a tenth of the storage before eviction |
| InstanceSizes.NewerMemoryByPods | pkg/providers/instancetype/types.go:246-279 | newer clusters reserve 20 MiB a pod over 256 MiB, or what older ones reserve if that is less |
| InstanceSizes.IdentityOfListed | pkg/providers/instancetype/types.go:105-147 | name, family, sizes and offerings are the item's; the architecture is amd64 where the item has none |
| InstanceSizes.AllocatableIs | pkg/providers/instancetype/types.go:105-117 | capacity is what is left for pods and all three kinds of overhead together, for every resource |
| Reservation.EvalLevels | pkg/providers/instancetype/level.go:38-44 | the loop computes the truncated sum of the brackets |
| Reservation.EvalKdumps | pkg/providers/instancetype/kdump.go:42-51 | the loop returns the first positive reservation |
| Reservation.ShippedKdumps | pkg/providers/instancetype/kdump.go:29-51 | the shipped levels amount to 256 MiB below 64 GiB, 512 MiB below 128 GiB and nothing above or under 1800 MiB: the third level is dead |
| Reservation.LegacyMemoryTotal | pkg/providers/instancetype/types.go:251-257 | the memory brackets are cumulative: rates 25, 20, 10, 6 and 2 percent over consecutive ranges |
| Reservation.CPUTotals | pkg/providers/instancetype/types.go:262-277 | closed forms of the two CPU tables |
| Reservation.CPUFits | pkg/providers/instancetype/types.go:261-280 | from one core on the CPU reserved is positive and below capacity, and the newer table never reserves more |
| Reservation.NewerReservesNoMoreMemory | pkg/providers/instancetype/types.go:246-279 | newer clusters never reserve more memory, whatever the pod count |
| Reservation.ReservedShare | pkg/providers/instancetype/types.go:251-259 | reserved memory plus eviction is at most 89/256 of what kdump leaves, for every size from 1 GB |
| Reservation.MemoryFitsBelow | pkg/providers/instancetype/types.go:178-290 | below an overhead of 167/256 reserved memory plus eviction stays below capacity, for every size, version and pod count |
| Reservation.OneGBIsTight | pkg/providers/instancetype/types.go:178-290 | from 167/256 on a 1 GB machine is over-reserved |
| Reservation.MemoryFitsIff | pkg/providers/instancetype/types.go:178-290 | the reservations fit every machine exactly when the overhead fraction is below 167/256 |
| Reservation.StorageFits | pkg/providers/instancetype/types.go:287-290 | the storage threshold is at most the storage, and less unless there is none |
| ZoneCodec.IDRoundTrip | pkg/providers/zone/zone.go:82-119 | for every valid table and every understood ID, zone and back gives the ID in decimal form, through a canonical zone name |
| ZoneCodec.ZoneRoundTrip | pkg/providers/zone/zone.go:82-119 | zone to ID and back succeeds with the same name if and only if the name is canonical: a table region, a dash, and 1 to 999 in plain decimals |
| ZoneCodec.LeadingZeroComesBackCanonical | pkg/providers/zone/zone.go:96-119 | every canonical name has a twin with a leading zero that is accepted but comes back as the canonical one |
| ZoneCodec.IDOfJoined | pkg/providers/zone/zone.go:96-119 | which names have an ID, and which: a region of the table in the first three of four parts, or the first two of any other number from three on, then a number; parts beyond are ignored |
| Zone.DefaultProvider.ZoneFromID | pkg/providers/zone/zone.go:82-94 | whatever order the map is scanned in, the result is the zone of the one window that holds the ID, or the error |
| Zone.DefaultProvider.IDFromZone | pkg/providers/zone/zone.go:96-119 | rewriting the slice of parts in place gives region and number for two- and three-part regions, with each error case |
| Zone.ShippedTableIsValid | pkg/providers/zone/zone.go:35-80 | the forty shipped regions have two or three dash-free parts and pairwise disjoint windows |
| FailureController.Controller.IsFailureWithInsufficientResources | pkg/controllers/nodeclaim/failure/controller.go:168-199 | true exactly for shortage messages with a readable spec whose counters are within 3 per type and 50 per spot zone |
| FailureController.Controller.RefreshInstanceTypes | pkg/controllers/nodeclaim/failure/controller.go:88-127 | every counted machine raises its counters; a refresh is asked for at each counted machine up to the first success and at no other |
| FailureController.Controller.BlockInstanceTypes | pkg/controllers/nodeclaim/failure/controller.go:129-146 | every readable machine blocks its pattern in turn; what that covers is stated by `UserQuotaBlocksAllTypes` and `PassBlocksIff` |
| FailureController.Controller.SelectShortages | pkg/controllers/nodeclaim/failure/controller.go:64-67 | the first filter, on the counters before the pass |
| FailureController.Controller.SelectUnknowns | pkg/controllers/nodeclaim/failure/controller.go:70-73 | the second filter, on the counters after counting |
| FailureController.Controller.Reconcile | pkg/controllers/nodeclaim/failure/controller.go:57-86 | cache, failure list and requeue interval after one pass |
| FailureController.CountingConserves | pkg/controllers/nodeclaim/failure/controller.go:88-127 | counting raises each counter by exactly the number of times its key is hit, renews it, and touches nothing else |
| FailureController.RaisesIs | pkg/controllers/nodeclaim/failure/controller.go:88-110 | a machine whose class exists and whose spec decodes raises the counter of its own triple and, when spot, that of its zone; no machine raises any other |
| FailureController.BlockingKeepsCounters | pkg/controllers/nodeclaim/failure/controller.go:129-146 | blocking leaves every counter alone |
| FailureController.FiltersMissNothing | pkg/controllers/nodeclaim/failure/controller.go:64-76 | every eligible machine with a failure message is in the failure list, and in both halves exactly when a counter of its own crossed its limit within the pass |
| FailureController.FailureListIff | pkg/controllers/nodeclaim/failure/controller.go:64-76 | what a pass lists as failures is exactly the machines with a failure message that have no ID, are owned by a claim and are older than 30 s, whatever the counters read |
| FailureController.TwoReadingsMissIff | pkg/controllers/nodeclaim/failure/controller.go:64-76 | with two clock readings, in any pass, both filters miss an eligible failed machine if and only if it is a readable shortage with a counter over its limit at the first reading and, as the pass raises them, none at the second |
| FailureController.CountLaterFallsIff | pkg/controllers/nodeclaim/failure/controller.go:64-73 | within an hour an over-limit counter is no longer over exactly when the pass does not raise it and it expires before the second reading; any other stays within exactly when the pass does not raise it over |
| FailureController.SlowPassMissesAMachine | pkg/controllers/nodeclaim/failure/controller.go:64-76 | a concrete cache and machine for which it happens, one nanosecond apart |
| FailureController.EscalationIsComplete | pkg/controllers/nodeclaim/failure/controller.go:64-74 | when a pass ends, every eligible readable failure that is no shortage or is over a limit has its triple blocked for 30 minutes |
| FailureController.UserQuotaBlocksAllTypes | pkg/controllers/nodeclaim/failure/controller.go:129-146 | a failed machine without an ID, owned by a claim and older than 30 s, whose message names the user spot quota and which is not tolerated when the pass ends, has every instance type blocked at its capacity type and zone for 30 minutes |
| FailureController.PassBlocksIff | pkg/controllers/nodeclaim/failure/controller.go:57-146 | exactly what a pass blocks, for any cache: after it a triple is blocked if and only if it was before, or an unknown failure has its capacity type and zone, and its type or the user spot quota |
| FailureController.NoQuotaNoOtherName | pkg/controllers/nodeclaim/failure/controller.go:129-146 | without the user spot quota in any message, a pass from an empty cache blocks no name but those of its failures |
| FailureController.ShortageMessageIff | pkg/controllers/nodeclaim/failure/controller.go:168-173 | a shortage is an invalid configuration whose message says one of four things |
| FailureController.PassKeepsBound | pkg/controllers/nodeclaim/failure/controller.go:88-127 | a pass over at most n machines keeps a counter within its limit plus n |
| FailureController.CountersStayBounded | pkg/controllers/nodeclaim/failure/controller.go:185-198 | over every run, per-type counters stay within 3 + n and spot-zone counters within 50 + n |
| FailureHistory.RunIsReplay | pkg/controllers/nodeclaim/failure/controller.go:64-146 | the cache after any run of passes and blocks is the replay of the adds and blocks the failed machines of that run cause |
| FailureHistory.RunCountIsGapChain | pkg/controllers/nodeclaim/failure/controller.go:88-127 | in every run a counter is the longest gap chain of the failures counted under its key |
| FailureHistory.RunLookupsAreWildcardMatching | pkg/providers/instancetype/instancetype.go:250-284 | in every run the lookups are wildcard matching against the run's unexpired blocks |
| FailureHistory.EscalatedIffInLongChain | pkg/controllers/nodeclaim/failure/controller.go:64-74 | a pass takes an eligible readable shortage for an unknown failure if and only if, over the whole run, the failures counted for its type form a chain of four, or those of its spot zone one of fifty-one, with gaps of at most an hour |
| FailureHistory.LongChainsAreBlocked | pkg/controllers/nodeclaim/failure/controller.go:57-146 | end to end: such a chain leaves the machine's type, capacity type and zone blocked for 30 minutes |
| LaunchChoice.OrderInstanceTypesByPrice | pkg/providers/machine/machine.go:543-559 | sorts the array in place into an ordered permutation by cheapest compatible price, then name |
| Text.StrLessIff | pkg/providers/machine/machine.go:554-554 | the order of names is that of their first different characters, a prefix coming first |
| LaunchChoice.OrderIsUnique | pkg/providers/machine/machine.go:543-559 | types with different names have only one such order, however the list arrived |
| LaunchChoice.IsMixedCapacityLaunch | pkg/providers/machine/machine.go:487-510 | true exactly when both capacity types are allowed and usable offerings of both kinds exist |
| LaunchChoice.CheapestOnDemand | pkg/providers/machine/machine.go:523-531 | the least price of the available on-demand offerings, or the float maximum |
| LaunchChoice.CheapestHere | pkg/providers/machine/machine.go:525-531 | the inner loop lowers a price to that of the cheapest on-demand offering here, if that is below it |
| LaunchChoice.FilterInstanceTypes | pkg/providers/machine/machine.go:479-541 | the candidates of a launch: all types, or in a mixed launch those that undercut on-demand |
| LaunchChoice.SpotFilterIsSafe | pkg/providers/machine/machine.go:479-541 | in a mixed launch something is left, and every survivor has an available offering no dearer than any on-demand one |
| LaunchChoice.BestSurvivesIff | pkg/providers/machine/machine.go:523-541 | a usable type survives the filter exactly when no available on-demand offering undercuts its cheapest available one |
| LaunchChoice.BestSurvivesWhenAllSuit | pkg/providers/machine/machine.go:479-559 | when all available offerings suit the claim, the type the sort puts first is never removed |
| LaunchChoice.UnusableOfferingRemovesTheBest | pkg/providers/machine/machine.go:523-541 | an on-demand offering in a zone the claim excludes removes the best type |
| LaunchChoice.Choose | pkg/providers/machine/machine.go:111-126 | filter, truncate, sort, take the head: the cheapest candidate of the whole list, ties to the smaller name; fails exactly when nothing is left or minimum values are unmet |
| LaunchChoice.HeadOfTruncated | pkg/providers/machine/machine.go:117-126 | cutting the list to its cheapest 60 and sorting again does not change its head |
| LaunchChoice.FirstChoiceIsUnique | pkg/providers/machine/machine.go:111-126 | two first choices of a list of differently named types are the same type |
| CheapestLaunch.FirstChoiceIsCheapest | pkg/providers/machine/machine.go:543-559 | the first choice is no dearer than any usable offering of a type the spot filter keeps, and has the smallest name of those as cheap |
| CheapestLaunch.LaunchIsPriced | pkg/providers/machine/machine.go:111-168 | a launch takes a quota item that is on sale and unblocked, at that item's own unit price |
| CheapestLaunch.LaunchIsCheapest | pkg/providers/machine/machine.go:111-168 | no quota item that is on sale, unblocked, suitable and of a fitting type has a smaller unit price than the one launched, unless the spot filter removes its type; equally cheap types go by name |
| CheapestLaunch.LaunchStepIsPriced | pkg/providers/machine/machine.go:361-363 | in every launch step of the loop the machine's price annotation is the unit price of a quoted, unblocked item on sale, to the tenth digit |
| MachineLaunch.Provider.FindSubnet | pkg/providers/machine/machine.go:132-142 | the first subnet of the zone, or none |
| MachineLaunch.GetTargetAnnotations | pkg/providers/machine/machine.go:427-441 | the well-formed entries of the annotation, later ones over earlier ones |
| MachineLaunch.EntriesHold | pkg/providers/machine/machine.go:427-441 | a key has the value of the last well-formed entry for it, and keys without one have none |
| MachineLaunch.MetaAnnotationsWin | pkg/providers/machine/machine.go:416-422 | what the claim says about a machine annotation holds over what the provider records |
| MachineLaunch.CollectKubeletArgs | pkg/providers/machine/machine.go:281-346 | exactly one argument per kubelet annotation, in any order, then the provider's taint |
| MachineLaunch.KubeletArgIs | pkg/providers/machine/machine.go:281-285 | the argument is what follows the prefix, an equals sign, and the value |
| MachineLaunch.OtherKeysAreNoArgs | pkg/providers/machine/machine.go:281-285 | annotations without the prefix make no argument |
| MachineLaunch.Provider.Build | pkg/providers/machine/machine.go:144-422 | the machine is written as this type at this offering; its labels, owner, charges, price and record are stated by `LaunchedMachine`, `CheapestLaunch` and `ReadBack` |
| MachineLaunch.Provider.Create | pkg/providers/machine/machine.go:111-426 | a first choice of the list is decided on, with each way to fail told apart |
| MachineLaunch.PriceIsNearest | pkg/providers/machine/machine.go:363 | the price written is the nearest with ten digits |
| LaunchedMachine.LabelsAre | pkg/providers/machine/machine.go:146-170 | the eight labels of a launched machine, each with its value, and no other |
| LaunchedMachine.LaunchedIsClaimed | pkg/providers/machine/machine.go:146-189 | a launched machine is labelled with its claim and its class, owned by its claim alone, and has no ID, no initialisation label and no failure |
| LaunchedMachine.LaunchAddsMachine | pkg/providers/machine/machine.go:146-189 | launching the machine of a claim is the step by which the provider-ID protocol takes in a new machine |
| LaunchedMachine.LaunchedIsCountedIff | pkg/controllers/nodeclaim/failure/controller.go:88-105 | the failure pass counts a launched machine exactly when its class has a name and still exists |
| LaunchedMachine.SpotIsChargedAsSpot | pkg/providers/machine/machine.go:176-197 | charged as spot, and of the type that can be, exactly at a spot offering; the class's keys and the first five of its security groups |
| AnnotationKeys.KeyTextIsInjective | pkg/apis/v1beta1/labels.go:89-133 | no two annotation keys have the same text |
| AnnotationKeys.KeyTexts | pkg/apis/v1beta1/labels.go:89-129 | the text of each annotation key |
| AnnotationKeys.Render | pkg/providers/machine/machine.go:361-416 | the rendered annotations hold exactly the record's entries under their keys |
| CloudProvider.Provider.Create | pkg/cloudprovider/cloudprovider.go:90-114 | lists, resolves and launches; only a refused object changes the cache, by a block of what was to be launched |
| CloudProvider.NeverNilOffering | pkg/cloudprovider/cloudprovider.go:349-361 | behind the resolving filter the launch never meets a type without a usable offering, so it never dereferences nil |
| CloudProvider.LaunchIsCoherent | pkg/providers/machine/machine.go:126-182 | type, capacity label, zone, price and subnet of a launched machine all stem from one cheapest usable offering of the first choice |
| ReadBack.RecordHolds | pkg/providers/machine/machine.go:361-407 | the record holds, for each group and resource, exactly the amount a reader of that group is to find, and no other |
| ReadBack.WrittenCarries | pkg/providers/machine/machine.go:361-422 | user annotations that avoid the provider's keys leave the written record as it is |
| ReadBack.LabelsReadBack | pkg/providers/machine/machine.go:146-168 | the labels of a machine read back as the type's CPU and memory and the offering's capacity type |
| ReadBack.RecordReadsBack | pkg/cloudprovider/cloudprovider.go:363-416 | each group of annotations reads back as the amounts written for it |
| ReadBack.AllocatableReadsBackIff | pkg/providers/machine/machine.go:361-388 | allocatable reads back if and only if no ephemeral storage is reserved for Kubernetes |
| ReadBack.ConvertsIff | pkg/cloudprovider/cloudprovider.go:251-314 | a machine converts exactly when its spec decodes, every recorded amount is a quantity, CPU and memory are labelled with integers and recorded as capacity, and the price is a number |
| ReadBack.TypeReadsBack | pkg/cloudprovider/cloudprovider.go:224-266 | the claim's labels for instance type, family, architecture, operating system and pool are the launched type's name, family and architecture, linux, and the claim's own pool |
| ReadBack.UnitPriceIsWritten | pkg/providers/machine/machine.go:363 | the price annotation is the price of the offering, to the tenth digit |
| ReadBack.WrittenReadsBack | pkg/cloudprovider/cloudprovider.go:206-314 | a written machine converts, with the same non-zero capacity, manager and name; its labels are stated by `TypeReadsBack` and `IdentityReadsBack` |
| ReadBack.IdentityReadsBack | pkg/cloudprovider/cloudprovider.go:224-288 | capacity type, CPU, memory, zone and decimal zone ID come back as the chosen offering's |
| ReadBack.LaunchedReadsBack | pkg/cloudprovider/cloudprovider.go:206-314 | a machine launched from a listed type reads back with the same capacity, the same allocatable, the offering's own zone ID, and the type's name, family and architecture and the claim's pool as labels |
| ReadBack.ListedIsRecordable | pkg/providers/instancetype/types.go:86-117 | the types List builds meet the conditions of the round trip |
| LaunchRoundTrip.ListedIsSized | pkg/providers/instancetype/instancetype.go:193-218 | every listed type is the sizing of one quota item |
| LaunchRoundTrip.LaunchReadsBack | pkg/cloudprovider/cloudprovider.go:90-114 | whatever List offers and Create picks, the launched machine converts, and the claim reports the picked type's capacity, allocatable, name, family and architecture, the picked offering's zone ID and capacity type; the price on record is that of the quota item behind it |
| FeedbackLoop.LaunchIsUnblocked | pkg/cloudprovider/cloudprovider.go:90-114 | a machine is created from a quota item of its type that is on sale and not blocked at that moment |
| FeedbackLoop.ZoneIsKeptIff | pkg/providers/zone/zone.go:82-119 | the machine's zone is the quota item's own exactly when that zone is canonical |
| FeedbackLoop.StepKeepsBlocks | pkg/providers/instancetype/instancetype.go:222-230 | no step shortens a block |
| FeedbackLoop.RunKeepsBlocks | pkg/providers/instancetype/instancetype.go:222-230 | a block outlives every run until it expires |
| FeedbackLoop.RepeatIsRenamed | pkg/controllers/nodeclaim/failure/controller.go:129-146 | whenever, within 30 minutes from the pass or the refusal that blocked a machine, a launch creates one of its kind (same capacity type and zone, and same type unless it ran into the user spot quota), accepted or refused, the quota item behind it is on sale in a zone the provider writes under another name |
| FeedbackLoop.FeedbackLoopCloses | pkg/controllers/nodeclaim/failure/controller.go:129-146 | in every run that quotes no such item, nothing of the kind a pass or a refusal blocked is created again until more than 30 minutes have passed |
| FeedbackLoop.FailureIsNotRepeated | pkg/controllers/nodeclaim/failure/controller.go:57-86 | a failed machine that is not a tolerated shortage when a pass ends is not repeated for 30 minutes |
| FeedbackLoop.UserQuotaStopsAllTypes | pkg/controllers/nodeclaim/failure/controller.go:129-146 | after a failure on the user spot quota no launch of any type takes its capacity type and zone for 30 minutes |
| FeedbackLoop.LaunchOnce | pkg/cloudprovider/cloudprovider.go:90-114 | creating through the cloud provider is a launch step of the loop, given one region table for both of its parts |
| FeedbackLoop.PassOnce | pkg/controllers/nodeclaim/failure/controller.go:57-86 | reconciling the failures is a pass step of the loop |
| FeedbackLoop.LoopCacheIsRun | pkg/controllers/nodeclaim/failure/controller.go:57-146 | in every run from an empty cache, the cache is that of the passes and refused launches so far |
| OpenLoop.RenamedZonesEscape | pkg/providers/instancetype/instancetype.go:191-208 | a block under the machine's zone leaves the quota item on sale exactly when the item's zone is understood but not canonical |
| OpenLoop.RenamedZoneRepeats | pkg/providers/instancetype/instancetype.go:191-230 | for every item on sale in such a zone, and either capacity type, there is a run in which a pass blocks a failed machine's triple and the next launch creates it again at the same instant |
| OpenLoop.LoopOpensIff | pkg/controllers/nodeclaim/failure/controller.go:129-146 | with the cloud quoting from a given set of items, some run repeats a blocked triple within 30 minutes if and only if one of the items is on sale in a zone that is understood but not canonical |
| Dedup.RemoveDuplicate | staging/nativenode/v1beta1/defaults.go:312-322 | compacts the slice within itself to the first occurrences of its non-empty elements, in order, leaving the storage behind them as it was; also removeDuplicateComponent |
| Dedup.FirstsLaws | staging/nativenode/v1beta1/defaults.go:312-322 | the result has the same non-empty elements, each once, and is a fixed point |
| Dedup.RemoveDuplicateKVPairs | staging/nativenode/v1beta1/defaults.go:325-347 | exactly the last well-formed line of each key, in original order; the caller's slice is left reversed |
| Dedup.LastsLaws | staging/nativenode/v1beta1/defaults.go:325-347 | membership, distinct keys and idempotence of that result |
| Dedup.FinalLineSurvives | staging/nativenode/v1beta1/defaults.go:325-347 | a final well-formed line stays the last one and the only one of its key |
| KubeletArgs.RegisterTaintSurvives | pkg/providers/machine/machine.go:281-346 | whatever the user sets, after all defaulting the arguments end with the provider's taint and no other line sets that key |
| Defaults.SetDefaults_CXMMachineProviderSpec | staging/nativenode/v1beta1/defaults.go:147-249 | one pass over the encoded spec in place, an undecodable one stays; what the fields end as is stated by `DefaultedFields` |
| Defaults.Machine.SetDefaults_ProviderSpec | staging/nativenode/v1beta1/defaults.go:132-144 | the type is defaulted and native specs are passed over, or the nil write panics |
| Defaults.Machine.SetDefaults_MachineSpec | staging/nativenode/v1beta1/defaults.go:111-129 | root directory, scale-down annotation of prepaid and underwritten specs, early end on an undecodable spec |
| Defaults.Machine.SetDefaults_Machine | staging/nativenode/v1beta1/defaults.go:94-108 | name prefix and force-delete annotation, then the spec |
| Defaults.Machine.SetObjectDefaults | staging/nativenode/v1beta1/zz_generated.defaults.go:40-44 | the three passes, panicking where one of them does |
| Defaults.OnePassIsIdempotentIff | staging/nativenode/v1beta1/defaults.go:147-249 | one provider-spec pass is idempotent exactly when the nameserver list is empty or holds something |
| Defaults.TwoPassesSettle | staging/nativenode/v1beta1/defaults.go:147-249 | two passes always reach a fixed point |
| Defaults.PanicsIff | staging/nativenode/v1beta1/defaults.go:111-148 | defaulting panics exactly on native or untyped machines without a raw spec |
| Defaults.ObjectDefaultsIsIdempotent | staging/nativenode/v1beta1/zz_generated.defaults.go:40-44 | defaulting a machine twice is defaulting it once |
| DefaultedFields.NativeIsDefaulted | staging/nativenode/v1beta1/defaults.go:147-249 | after defaulting a native machine: disks keep number, order and key, with a key they end encrypted, without one as set; charge type, prepaid terms, Internet access and name servers are the user's where set and the source's where not; lists are compacted; the rest stays |
| DefaultedFields.MachineIsDefaulted | staging/nativenode/v1beta1/defaults.go:94-129 | name prefix and root directory are the user's where set; annotations other than the two the provider adds stay |
| DefaultedFields.OtherSpecsAreKept | staging/nativenode/v1beta1/defaults.go:132-144 | specs of other machine types and undecodable specs stay, and so does a given type |
| DefaultedFields.ForceDeleteIsDefaulted | staging/nativenode/v1beta1/defaults.go:102-106 | force deletion is set for spot-capable machines unless the user said something about it, and for no others |
| DefaultedFields.ScaleDownIsDisabled | staging/nativenode/v1beta1/defaults.go:122-127 | the annotation against scaling down is added exactly for readable prepaid or underwritten specs |
| RollingUpgradeDefaults.RollingUpgrade.DefaultWeekly | staging/nativenode/v1beta1/defaults.go:281-289 | the periods may become the shared table itself, and compacting them in place leaves that table as it is |
| RollingUpgradeDefaults.RollingUpgrade.SetDefaults_RollingUpgradeSpec | staging/nativenode/v1beta1/defaults.go:265-309 | one pass over the fields in place, the shared table unchanged |
| RollingUpgradeDefaults.RollingUpgrade.SetObjectDefaults | staging/nativenode/v1beta1/zz_generated.defaults.go:66-69 | name and two passes, the shared table unchanged, aliased or not |
| RollingUpgradeDefaults.DurationIsNeverDefaulted | staging/nativenode/v1beta1/defaults.go:275-279 | with the text Go prints for a duration, the duration is never changed |
| RollingUpgradeDefaults.OnePassIsIdempotentIff | staging/nativenode/v1beta1/defaults.go:265-309 | one pass is idempotent exactly when neither list consists of empty entries only |
| RollingUpgradeDefaults.ObjectDefaultsIsIdempotent | staging/nativenode/v1beta1/zz_generated.defaults.go:66-69 | defaulting an upgrade twice is defaulting it once |
| DefaultedFields.UpgradeIsDefaulted | staging/nativenode/v1beta1/defaults.go:256-291 | name, schedule and strategy of a defaulted upgrade: the user's where set, else the source's value |
| DefaultedFields.UpgradeLimitsAreDefaulted | staging/nativenode/v1beta1/defaults.go:294-309 | its limits: the user's where set, else one machine, two minutes, and no ignored failures |
| DefaultedFields.UpgradeListsAreDefaulted | staging/nativenode/v1beta1/defaults.go:281-289 | its days and components: the user's, each once, or where that leaves none all seven days and both components |
| ProviderIds.Store.ReconcileMachine | pkg/controllers/nodeclaim/providerid/controller_machine.go:48-86 | the first owning claim, if it exists, gets the machine's ID and the machine its label |
| ProviderIds.OwnerIsFirstClaim | pkg/controllers/nodeclaim/providerid/controller_machine.go:50-56 | the owner that counts is the first claim among the owners |
| ProviderIds.Store.ReconcileClaim | pkg/controllers/nodeclaim/providerid/controller_nodeclaim.go:50-91 | an empty ID is filled with the ID or the placeholder of some labelled machine |
| ProviderIds.StepKeepsInv | pkg/controllers/nodeclaim/providerid/controller_machine.go:48-98 | every step, of either reconciler or of anybody else, keeps the protocol's invariant |
| ProviderIds.ProtocolIsSound | pkg/controllers/nodeclaim/providerid/controller_machine.go:48-98 | in every run a claim's ID is empty, its own machine's placeholder or its real ID, and a machine labelled as initialised has an ID its existing claim holds |
| ProviderIds.RealIDNeverChanges | pkg/controllers/nodeclaim/providerid/controller_nodeclaim.go:50-99 | once a claim holds its machine's real ID it holds it for as long as it exists |
| ProviderIds.ReconcilersConverge | pkg/controllers/nodeclaim/providerid/controller_machine.go:48-86 | both orders of the two reconcilers end in the same objects |
| ProviderIds.PassingIsReconciled | pkg/controllers/nodeclaim/providerid/controller_machine.go:92-98 | a machine passes the filter exactly when it was given an ID and is not labelled as initialised; after the reconciler ran on it it passes no more, unless its claim is gone |
| ProviderIds.QuietMeansSettled | pkg/controllers/nodeclaim/providerid/controller_machine.go:92-98 | once no machine passes the event filter, every existing claim whose machine has an ID holds that ID |
| ProviderIds.UnfilteredReconcileBreaks | pkg/controllers/nodeclaim/providerid/controller_machine.go:92-98 | without the event filter a machine without an ID would be labelled with its claim left without one |
| GarbageCollection.Collector.Get | pkg/providers/machine/machine.go:75-89 | a machine with the ID, or none has it |
| GarbageCollection.Collector.FindOwned | pkg/providers/machine/machine.go:465-472 | a machine with an owner claim of that name, or none has one |
| GarbageCollection.Collector.Delete | pkg/providers/machine/machine.go:443-477 | at most one machine goes, one with the ID or without an ID one with that owner; when it reports not found |
| GarbageCollection.Collector.GarbageCollect | pkg/controllers/nodeclaim/garbagecollection/controller.go:94-111 | through either deletion path exactly the recorded machine is gone |
| GarbageCollection.Collector.List | pkg/providers/machine/machine.go:91-109 | exactly the claim-owned machines are retrieved, or one of them does not convert |
| GarbageCollection.Collector.Reconcile | pkg/controllers/nodeclaim/garbagecollection/controller.go:56-92 | a pass deletes exactly the managed, claim-owned, live machines older than 30 s that no claim records, or nothing when one does not convert |
| GarbageCollection.GoneIff | pkg/controllers/nodeclaim/garbagecollection/controller.go:66-86 | a machine is gone exactly when a claim owns it, it has a manager, is not being deleted, is recorded by no claim and is older than 30 s |
| GarbageCollection.ConversionKeeps | pkg/cloudprovider/cloudprovider.go:234-247 | a successful conversion keeps manager, name, ID, age and deletion mark of the machine |
| GarbageCollection.OnlyItsOwn | pkg/providers/machine/machine.go:443-477 | called for a converted claim, the provider's Delete can only hit that claim's own machine |
| GarbageCollection.GoneIsGarbage | pkg/controllers/nodeclaim/garbagecollection/controller.go:66-86 | what is collected from the retrieved list is exactly the garbage of the snapshot |
| GarbageCollection.EarlierPassIsMootIff | pkg/controllers/nodeclaim/garbagecollection/controller.go:56-92 | a later pass leaves the same machines with and without an earlier one if and only if no claim has, in between, come to record a machine the earlier pass deletes |
| SubnetSelection.TagFilters | pkg/providers/vpc/subnet.go:66-79 | the filters of a tag term mean that term, in whatever order the tags come |
| SubnetSelection.Batches | pkg/providers/vpc/subnet.go:84-98 | non-empty batches of at most five that concatenate to the IDs in order |
| SubnetSelection.GetSubnetFilterSets | pkg/providers/vpc/subnet.go:59-101 | a subnet matches one of the queries exactly when it matches one of the terms; the batches are the last queries |
| SubnetSelection.QueriesMeanTerms | pkg/providers/vpc/subnet.go:59-101 | tag queries and ID batches together mean the union of the terms |
| SubnetSelection.ListSubnets | pkg/providers/vpc/subnet.go:29-57 | each subnet of the VPC that some term matches, once, and nothing else |
| SubnetSelection.Reconcile | pkg/controllers/nodeclass/status/subnet.go:40-64 | the status lists exactly the selected subnets by free addresses, then ID, with their zone IDs |
| SubnetSelection.StatusNames | pkg/controllers/nodeclass/status/subnet.go:55-62 | an entry has the subnet, its zone, and the ID of the zone where it has one |
| SubnetSelection.LaunchTakesFreestSubnet | pkg/providers/machine/machine.go:134-142 | the subnet a launch takes from any status is in the VPC and the zone, matched by a term, and of all those has the most free addresses, ties to the smaller ID |
| SubnetSelection.StatusIsUnique | pkg/controllers/nodeclass/status/subnet.go:49-62 | there is only one status: no map order shows in it |

## Left out

- Kubernetes client calls, watches, requeues after errors, events, logging, metrics and worker parallelism: every reconcile is one atomic step on maps of objects.
- Cloud requests, paging and JSON: quota items, pod limits, cluster information and subnets are arbitrary inputs; `fits` and `minValuesMet` stand for Karpenter's resource and minimum-value checks.
- The provider cache of `List` and its refresh flag; the disks that decide the storage size of an instance type.
- Karpenter core's requirements, offerings, truncation and allocatable are given small definitions: compatibility by value sets, the first cheapest, the 60 cheapest by price and name, capacity minus overhead.
- Requirements of read-back instance types other than those with a single value; the class readiness checks of `Create`.
- `float64` is modelled by reals, `resource.Quantity` text by plain integers and the annotated price by the number of its tenth digits, to the nearest and then to even; 64-bit overflow of memory sizes from 2^33 GB on.
- Kubelet, system and eviction overrides of `NewInstanceType`: both callers pass nil.
- Deletions in the failure pass: they are `Cluster` steps of the loop, which change the machines in any way.
- Blacklist.LookupsAreWildcardMatching: for the capacity types spot, on-demand, `*` and empty, and names that are separate from the blocked ones, which like `*` must be separate from them too; `Blacklist.AnswersAsPatternIff` shows that this is exactly what it takes.
- FailureController.CountersStayBounded: for instance types other than `*`, whose machines raise one counter twice; names that begin with `*-` get the bound of the spot-zone counters they may share a key with.
- FailureController.PassBlocksIff: like `NoQuotaNoOtherName` and `RaisesIs`, for names that share no cache key with those of the failures or with `*`; `Blacklist.NamesCollideIff` says which do.
- CheapestLaunch.LaunchIsCheapest: for unit prices below the largest float; which types the spot filter removes is stated by `LaunchChoice.BestSurvivesIff`.
- CheapestLaunch.LaunchStepIsPriced: for claims whose machine annotations leave the provider's keys alone; `MachineLaunch.MetaAnnotationsWin` says what becomes of the others.
- FeedbackLoop.FeedbackLoopCloses: for runs that quote no item on sale in an understood zone that is not canonical, because `OpenLoop.LoopOpensIff` shows it false as soon as one is quoted.
- OpenLoop.LoopOpensIff: for instance names that do not extend `*`, whose blocks could meet those of other patterns.
- ProviderIds.ProtocolIsSound: with one machine per claim, claim names and machine names that are not reused, and machine IDs written once; patches interleaved inside a reconcile are not modelled.
- GarbageCollection.Collector.Reconcile: on one snapshot with successful deletions, unique provider IDs and owners with names; the order and the errors of parallel deletions are not modelled.
- `filterExoticInstanceTypes`, which returns its input.
- Disks, internet access, kernel arguments, hosts, name servers, lifecycle scripts and GPU settings written by the machine provider's Create.
- MachineSet and list forms of defaulting, which repeat the machine passes; a raw spec that holds a JSON null.
- The slice aliasing between an upgrade's components and other objects; only the shared weekday table is shared in the model.
- Security group and SSH key selection, which copy the subnet translation; termination, readiness, options and the superseded provider-ID controller.
