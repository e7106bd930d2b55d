# Cache-way allocation: model and proofs

The DRA driver hands out ways of a shared L3 cache. A way is a bit of a capacity
mask; a claim gets a contiguous run of bits of one cache domain, written into a
resctrl group of its own. The driver's promise is isolation: no two live claims
share a way, under any interleaving of calls, any file failure, and after a crash.
This project models the driver and proves what that promise amounts to, including
the exact conditions where the code falls short of it.

Verify everything with `dafny verify dfyconfig.toml`.

## How it is built

| file | what it holds |
|---|---|
| `words.dfy`, `windows.dfy`, `slots.dfy` | 64-bit masks as sets of ways, first fit and fragmentation on those sets, allocation over all domains |
| `gotext.dfy`, `schemata.dfy`, `names.dfy` | Go's number and string functions, the schemata text, group, partition and device names |
| `wordvalues.dfy`, `numerals.dfy`, `texts.dfy` | the same stated on characters: binary digits of a mask, numerals by positional value, where parts stand in a text |
| `meaning.dfy`, `writing.dfy` | what the texts the driver reads and writes mean in these terms |
| `wayallocator.dfy` | `WayAllocator`, updated in place |
| `protocol.dfy` | structured mode as a state machine: calls cut at lock and file operations, crashes between any two steps |
| `isolation.dfy`, `conservation.dfy`, `fragmentation.dfy` | what every run of that machine keeps: isolation, the books of used ways, how fragmented a domain can get |
| `crashsafety.dfy`, `sharing.dfy` | isolation of the groups across crashes and the exact condition for it |
| `reservation.dfy`, `prepared.dfy`, `guarantee.dfy` | records and their groups, what a prepared claim can rely on and exactly how far |
| `restart.dfy`, `modechange.dfy` | what a restarted driver knows, and what it takes for its own |
| `scenarios.dfy`, `reached.dfy` | whole calls that run undisturbed with every outcome, and runs that reach a wanted state |
| `driver.dfy` | `Driver` and the resctrl directory, updated in place; each call is proved to be one run of the machine |
| `partition.dfy`, `tiling.dfy`, `layout.dfy`, `hwmask.dfy`, `sizesflag.dfy` | static partitioning, its layout field by field, layouts and grants on hardware masks with gaps, the command-line flag |
| `claims.dfy`, `ownership.dfy`, `inventory.dfy`, `publishing.dfy` | inventory mode: ownership as a function of the calls, `AllocationState` updated in place, the devices published |
| `discovery.dfy`, `sizelabels.dfy`, `results.dfy` | published devices, size labels, shared result types |

A state of the machine (`Protocol.State`) has the allocator's used ways, the claim
table, the resctrl groups with the entries of their schemata, and the calls in
flight with the ways each of them holds. The driver's locks make each mask update
and each table update one step; each file operation is a step that the environment
lets succeed or fail. A crash keeps only the groups. The groups hold parsed entries;
`driver.dfy` keeps the text and proves that what is written is read back as those
entries. Printing and parsing are not only proved inverse to each other: each is compared
with the characters of the text (`Numerals`, `Texts`, `Meaning`, `Writing`), so that a
digit, a separator or a number in the wrong place on both sides is excluded as well.

## What the proofs say about the code

- Isolation of recorded allocations and calls in flight needs no hypothesis at all
  (`Isolation.AlwaysIsolated`).
- Live resctrl groups share no way as long as removals of written groups leave no way
  behind and a restart can read every group that holds ways
  (`CrashSafety.LiveGroupsStayDisjoint`). This is also necessary: as soon as the
  environment fails once, some continuation in which everything else goes well puts
  one way into two live groups, although the groups may still be disjoint right
  after the failure (`Sharing.StepSecureIff`, `Sharing.RunSecureIff`). An unprepare
  gives its ways back even if the group could not be removed
  (`pkg/driver/driver.go:267-273`), which is one way to get there
  (`Scenarios.FailedRemovalSharesWays`).
- The claim table has one entry per claim, overwritten at `pkg/driver/driver.go:203`.
  Ways are lost exactly when a non-empty entry is overwritten
  (`Conservation.ConservedIff`); a claim prepared twice loses its first ways
  (`Scenarios.RePrepareLosesWays`).
- A recorded claim has its group, with exactly its ways, unless a later prepare of the
  claim overrode that group and did not record a new grant
  (`Reservation.RecordedClaimsHaveGroups`). A failing second prepare in the recorded
  domain spoils the group exactly when it wrote the schemata or removed the directory
  (`Scenarios.SecondPrepareIff`). A prepare that returns success leaves a written group
  for every domain it asked for, with ways that nobody else holds, whatever came before
  (`Prepared.SuccessfulPrepareIsWritten`).
- Until the next call for its claim such a group keeps its ways from everybody else,
  however removals of other groups fail, exactly as long as every restart finds the ways
  in the groups it can read (`Guarantee.RunSafeIff`); while groups are disjoint that means
  the claim's own group (`Guarantee.FindsIffReadable`).
- A claim's record names one domain, the last one prepared. Unpreparing a claim prepared
  in several domains leaves the other groups and their ways behind
  (`Guarantee.UnprepareAfterSeveralDomains`), and so does a prepare that fails after its
  first device (`StructuredDriver.Driver.PrepareClaimStructured`).
- The comment at `pkg/driver/driver.go:297-298` says that recovery rebuilds
  `structuredAllocs`; the code rebuilds only the mask. The model follows the code: a
  restarted driver has an empty table, unpreparing a claim from before the crash frees
  nothing (`Restart.UnprepareAfterCrashFreesNothing`), an unprepare frees ways exactly
  when its claim was recorded since the last restart (`Restart.UnprepareFreesIff`), and
  recovered ways stay used until the next one (`Conservation.RecoveredStaysUsed`).
- The validator adds signed counts while the layout loop skips negative ones. An
  accepted layout is a tiling exactly when tiers with negative counts do not occur
  beside tiers with positive ones (`Tiling.TilesIff`); otherwise it can run past the
  domain (`Tiling.NegativeCountOverflows`). The flag parser and `SpecsFromCount` never
  produce negative counts.
- All masks count from bit 0. A partitioning stays inside the hardware's `cbm_mask`
  exactly when that mask has all the requested low ways, and the grants of structured
  mode do exactly when it has no gap (`HardwareMask.TiersInsideMaskIff`,
  `HardwareMask.GrantsInsideMaskIff`).
- Inventory mode publishes bandwidth devices but its table only knows cache
  partitions, so such a device is never granted (`Publishing.PublishedIsKnownIff`,
  `Publishing.BandwidthIsPublished`).
- The prefix `dra-c` by which structured mode finds its groups after a restart also fits
  the groups of inventory mode (`Names.PartitionGroupHasPrefix`). Where partition groups
  cover a domain, structured mode grants nothing in it (`ModeChange.PartitionGroupsStarve`).

## Model

| member | source | states |
|---|---|---|
| Isolation.AlwaysIsolated | pkg/driver/driver.go:155-279 | in every state reachable from any boot, over all interleavings of prepares and unprepares, failures, repeated prepares, multi-device claims and crashes, ways held by table entries and by calls in flight are pairwise disjoint and inside the allocator's used ways |
| Isolation.StepEffect | pkg/driver/driver.go:155-279 | every step outside a crash leaves all holdings alone, takes only unused ways, gives back exactly what the call held, or hands a holding over unchanged between call and table |
| Isolation.StepKeepsIsolation | pkg/driver/driver.go:155-279 | one step of any call, or a crash, keeps isolation |
| Isolation.StaysIsolated | pkg/driver/driver.go:155-279 | isolation is kept along every run from any isolated state |
| Isolation.StepAccounting | pkg/driver/driver.go:202-207 | the used ways nobody holds grow by exactly the grant that a recording step overwrites, and by nothing else short of a crash |
| Conservation.AlwaysWellFormed | pkg/driver/driver.go:166-182 | every recorded or in-flight grant of a run is a contiguous mask inside its domain with the group name of its claim |
| Conservation.AlwaysInRange | pkg/driver/wayallocator.go:46-58 | along every run no way outside a known domain is ever used or written to a group |
| Conservation.Balance | pkg/driver/wayallocator.go:70-81 | free, held and lost ways of a domain add up to its total |
| Conservation.RunAccounting | pkg/driver/driver.go:202-207 | over a run without crashes the lost ways are exactly the union of the overwritten grants |
| Conservation.RecoveredStaysUsed | pkg/driver/driver.go:299-307 | until the next restart the ways nobody holds are exactly the recovered and the overwritten ones; no call gives a recovered way back |
| Conservation.NothingLost | pkg/driver/driver.go:166-273 | since a restart, free, held, recovered and overwritten ways of a domain add up to its total; with every claim unprepared exactly the recovered and overwritten ways are used |
| Conservation.ConservedIff | pkg/driver/driver.go:166-273 | since a restart, free, held and recovered ways equal the total in every domain if and only if no record with ways in it was overwritten |
| Conservation.SingleLosesNothing | pkg/driver/driver.go:155-279 | single-device claims prepared at most once between unprepares never overwrite a record, however their calls interleave |
| Conservation.SingleClaimsConserve | pkg/driver/driver.go:155-279 | for such claims free, held and recovered ways equal the total in every state, and with every claim unprepared only recovered ways are used |
| Fragmentation.AlwaysContiguous | pkg/driver/driver.go:174-192 | over any number of crashes every mask in a group of the driver is one contiguous run |
| Fragmentation.UsedIsOutstanding | pkg/driver/driver.go:155-307 | since a restart, the used ways of a domain are exactly those of records, calls in flight, surviving groups and overwritten records |
| Fragmentation.EnoughFreeIsGranted | pkg/driver/wayallocator.go:50-59 | at any time since a restart, a request for w ways is granted if more than (k+1)(w-1) ways are free, k counting the runs of records, calls in flight, surviving groups and overwritten records in the domain |
| CrashSafety.RemoveKeepsGroupsIff | pkg/driver/driver.go:267-273 | an attempted removal keeps the group invariant (live groups are disjoint, covered by the used ways, and hold no way that a call is about to return) if and only if none of the call's ways stay in the group |
| CrashSafety.CrashKeepsGroupsIff | pkg/driver/driver.go:299-307 | a crash and rebuild keeps live groups isolated if and only if every group holding ways could be read |
| CrashSafety.StepKeepsGroupsIff | pkg/driver/driver.go:155-307 | every step keeps that invariant, its clause on ways about to be returned included, if and only if removals and rebuild reads do their part |
| CrashSafety.GroupsStayIsolated | pkg/driver/driver.go:155-307 | along whole runs in which the environment does its part the invariant is kept |
| CrashSafety.RunKeepsGroupsIff | pkg/driver/driver.go:155-307 | over whole runs with any number of crashes the invariant holds after every prefix if and only if every removal and restart did its part |
| CrashSafety.LiveGroupsStayDisjoint | pkg/driver/wayallocator.go:86-130 | over any number of crashes, in runs in which removals and restarts do their part, live groups share no way and no way of a live group is handed out |
| Sharing.FreeLiveWayIsShared | pkg/driver/wayallocator.go:50-58 | a way that a live group holds and the allocator thinks free ends up in a second live group after finitely many successful prepares of another claim |
| Sharing.StepSecureIff | pkg/driver/driver.go:155-307 | after a step from a sound state no continuation in which the environment does its part makes two live groups share a way if and only if the removal or restart of that step did its part |
| Sharing.RunSecureIff | pkg/driver/driver.go:155-307 | over whole runs with any number of crashes, no continuation of any prefix in which the environment does its part makes two live groups share a way if and only if every removal and restart of the run did its part |
| Sharing.DriverSecureIff | pkg/driver/driver.go:155-307 | the same exact condition for the driver's own names from any node with disjoint groups in known domains |
| Reservation.DriverNamesOk | pkg/driver/driver.go:174-175 | the driver's group names carry the recovery prefix and identify claim and domain |
| Reservation.RecordedClaimsHaveGroups | pkg/driver/driver.go:183-207 | while calls for a claim follow one another, a recorded claim has its own group with exactly its ways if and only if no later prepare overrode that group without recording a new grant, whatever happens to the files and across crashes |
| Prepared.SuccessfulPrepareIsWritten | pkg/driver/driver.go:155-225 | when a prepare returns success, beside any other calls, every domain it asked for has a written group with the ways of the last request for it, used and held by nobody else, and the last request is on record |
| Prepared.StaysReserved | pkg/driver/driver.go:155-307 | calls for other claims and crashes leave a claim's written group untouched |
| Prepared.WrittenGroupKeepsItsWays | pkg/driver/driver.go:155-307 | the ways of a written group that nobody else holds are not handed out before the next call for its claim, over every run of other calls and crashes whose restarts find those ways, whatever else fails |
| Prepared.PreparedClaimKeepsItsWays | pkg/driver/driver.go:155-307 | from a successful return of its prepare to the next call for it, no way in the groups of a claim is handed out again, over every run of other calls and crashes in which restarts can read the claim's own group, whatever other failures occur and whatever calls came before |
| Prepared.ReachedInvariants | pkg/driver/driver.go:155-307 | the hypotheses on the state in the rows about successful prepares hold in every state reached from any boot by calls that follow one another per claim |
| Guarantee.StepSafeIff | pkg/driver/driver.go:155-307 | after one step of other claims' calls, or a crash, no continuation whose restarts find the ways of a written group hands one of them out if and only if a restart in that step found them |
| Guarantee.RunSafeIff | pkg/driver/driver.go:155-307 | the same for whole runs: the ways are safe after every prefix if and only if every restart of the run found them in the groups it could read; failed removals do not matter |
| Guarantee.FindsIffReadable | pkg/driver/wayallocator.go:86-130 | while live groups are disjoint a restart finds the ways of a claim's group if and only if it can read that group |
| Guarantee.UnprepareLeavesOtherDomains | pkg/driver/driver.go:253-279 | an undisturbed unprepare leaves the claim's group in a domain other than the recorded one written, its ways used and held by nobody |
| Guarantee.UnprepareAfterSeveralDomains | pkg/driver/driver.go:155-279 | after any successful prepare of several domains, unpreparing the claim leaks the group and ways of every domain but the last request's |
| Scenarios.PrepareAlone | pkg/driver/driver.go:166-207 | an undisturbed prepare ends with the ways used, the claim recorded and its group written |
| Scenarios.UnprepareAlone | pkg/driver/driver.go:253-279 | an undisturbed unprepare removes record, group and used ways of exactly that claim |
| Scenarios.UnprepareUndoesPrepare | pkg/driver/driver.go:155-279 | prepare then unprepare restores used ways, table, groups and calls exactly |
| Scenarios.FailedRemovalFreesLiveWays | pkg/driver/driver.go:267-273 | an unprepare whose removal fails frees the ways although the group stays |
| Scenarios.FailedRemovalSharesWays | pkg/driver/driver.go:267-273 | a concrete run in which two live groups hold the same way after a failed removal |
| Scenarios.SecondPrepareIff | pkg/driver/driver.go:166-207 | after a second prepare in the recorded domain the record is in its group if and only if the prepare succeeded, got no ways, could not make the directory, or could neither write the schemata nor remove the directory; success records the new grant, failure keeps the old record and the used ways |
| Scenarios.RePrepareLosesGroup | pkg/driver/driver.go:183-189 | in particular a second prepare whose schemata write fails removes the group of the claim that stays on record |
| Scenarios.RePrepareLosesWays | pkg/driver/driver.go:203-206 | a successful second prepare leaves the older ways used and held by nobody |
| Restart.OnRecordIff | pkg/driver/driver.go:202-259 | a claim is in the table if and only if the last thing its calls did to its record since the last restart was to write it |
| Restart.UnprepareFreesIff | pkg/driver/driver.go:253-307 | over any number of crashes an undisturbed unprepare frees ways if and only if the claim was recorded since the last restart, and then exactly the recorded ones, removed group or not |
| Restart.UnprepareAfterCrashFreesNothing | pkg/driver/driver.go:297-307 | prepare, crash, unprepare: the group is still written, its ways are used, and nobody holds them |
| ModeChange.FullDomainRefuses | pkg/driver/wayallocator.go:46-130 | a domain of which recovery found every way refuses every request until the next restart, over every run |
| ModeChange.PartitionGroupsStarve | pkg/driver/wayallocator.go:86-130 | where the groups of a domain partitioned by count are still there, a driver in structured mode refuses every request in it, over every run until the next restart |
| Reached.AnyUseIsReached | pkg/driver/driver.go:155-279 | every set of ways of a domain is the set in use after some run of prepares and unprepares, each way held by a claim of its own |
| Reached.BoundIsReached | pkg/driver/wayallocator.go:50-59 | for every k and w a running driver reaches a state with k prepared claims and exactly (k+1)(w-1) free ways in which a request for w fails |
| Reached.FreeButFragmented | pkg/driver/wayallocator.go:50-59 | a run after which two ways are free and a request for two fails |
| StructuredDriver.Resctrl.CreateGroup | pkg/resctrl/resctrl.go:80-92 | with a schemata text the file is written, or the groups stay as they were, or the directory is removed again, or not; without one only the directory is made |
| StructuredDriver.Resctrl.Remove | pkg/resctrl/resctrl.go:94-103 | removal drops exactly the named group or changes nothing |
| StructuredDriver.Driver.constructor | pkg/driver/driver.go:51-82 | a new driver has an empty claim table |
| StructuredDriver.Driver.PrepareClaimStructured | pkg/driver/driver.go:140-226 | the call is one execution of the protocol on the parsed requests; it answers with exactly the claim's cache-way devices if and only if there are some and all were recorded; a call that fails keeps what the devices before the failing one got: the last of them is on record and, in every domain other than the failing device's, the last of them has its written group with ways nobody else holds (for a UUID claim and a driver in a state it can get into); mask and table are as before if the first device failed, and otherwise (domains having at most 64 ways) more ways are used |
| StructuredDriver.Driver.PrepareDevices | pkg/driver/driver.go:155-215 | the device loop skips foreign and unparsable devices and stops at the first failure, of which it tells how many devices were recorded before and what they keep |
| StructuredDriver.Driver.PrepareDevice | pkg/driver/driver.go:166-207 | one device: reserved, written and recorded, or everything reserved is given back |
| StructuredDriver.Driver.PrepareReserved | pkg/driver/driver.go:183-207 | both failure points give back exactly the grant's ways and record nothing |
| StructuredDriver.DevicesMatchRequests | pkg/driver/driver.go:156-166 | answered devices and allocation requests correspond one to one in the claim's order, each request being the parsed device name |
| StructuredDriver.EveryWayDeviceRequested | pkg/driver/driver.go:156-166 | the devices answered and requested are exactly this driver's results in this node's pool with a cache-way name |
| StructuredDriver.Driver.UnprepareClaimStructured | pkg/driver/driver.go:253-279 | the call is one execution of the protocol; a claim without a record changes nothing |
| StructuredDriver.Driver.RecoverStructuredAllocs | pkg/driver/driver.go:299-307 | a restarted driver that scans the directory is in the protocol's boot state for the groups it can read |
| StructuredDriver.RebuiltFromListing | pkg/driver/wayallocator.go:95-128 | scanning a directory listing marks exactly the ways of the readable groups of this driver |
| StructuredDriver.BuildSchemata | pkg/driver/driver.go:338-344 | the text of a fresh group is the L3 setting of the domain, its decimal numeral and the mask's hexadecimal one, and is read back as exactly the granted domain and mask |
| WayAllocation.WayAllocator.constructor | pkg/driver/wayallocator.go:24-34 | the totals are kept and nothing is in use |
| WayAllocation.WayAllocator.Allocate | pkg/driver/wayallocator.go:38-60 | the word-level search returns exactly what first fit on sets of ways returns, each error included, and reserves exactly the granted ways |
| WayAllocation.WayAllocator.Release | pkg/driver/wayallocator.go:63-67 | exactly the mask's ways of that domain become free |
| WayAllocation.WayAllocator.FreeWays | pkg/driver/wayallocator.go:70-81 | the number of free ways of the domain, complementing its used ways; 0 for an unknown domain |
| WayAllocation.WayAllocator.RebuildFromResctrl | pkg/driver/wayallocator.go:86-130 | the used ways become the old ones plus exactly those spelled out in the readable files of directories with the prefix; an unreadable root changes nothing |
| WayAllocation.WayAllocator.RebuildLine | pkg/driver/wayallocator.go:105-126 | a way is added if and only if the line, white space aside, begins with L3: and a segment between semicolons spells the way's domain and a mask with that binary digit |
| WayAllocation.ScanSlotsMember | pkg/driver/wayallocator.go:95-128 | a way is marked by a scan if and only if some entry of the directory contributes it |
| WayAllocation.ScanOrderIrrelevant | pkg/driver/wayallocator.go:95-128 | the rebuilt ways do not depend on directory order or repetition |
| WayAllocation.BuildWayMask | pkg/driver/wayallocator.go:132-138 | the loop's word stands for the run of ways [start, start+count) cut off at 64 |
| WayAllocation.TryWindow | pkg/driver/wayallocator.go:53-54 | the word test is zero if and only if the window is free |
| Slots.GrantIsFree | pkg/driver/wayallocator.go:50-58 | a granted mask is a run inside the domain of which no way was in use |
| Slots.RefusalIff | pkg/driver/wayallocator.go:40-60 | each refusal has exactly its cause: an unknown domain, a number of ways outside 1 to the total, no free window |
| Slots.GrantIsExactIff | pkg/driver/wayallocator.go:52-56 | a window's mask has exactly the requested number of ways if and only if it ends inside the 64-bit word |
| Slots.PerfectPacking | pkg/driver/wayallocator.go:50-57 | in an allocation-only run the used ways of a domain are a prefix, and the next request is granted if and only if it is between 1 and the free ways |
| Slots.BatchGrantedIff | pkg/driver/wayallocator.go:38-60 | a batch of requests for known domains is granted in full on an empty node if and only if no domain is asked for more ways than it has |
| Slots.GrantedInAnyOrder | pkg/driver/wayallocator.go:38-60 | whether a batch is granted in full does not depend on its order |
| Windows.FirstFitExact | pkg/driver/wayallocator.go:46-59 | the least start of a free window inside the domain is found, and nothing exactly if the request is not positive or no such window exists |
| Windows.FragmentationBound | pkg/driver/wayallocator.go:50-59 | with k outstanding runs, more than (k+1)(w-1) free ways guarantee a window of w |
| Windows.FragmentationBoundIsTight | pkg/driver/wayallocator.go:50-59 | for every k and w there is a layout with exactly (k+1)(w-1) free ways and no window of w |
| Windows.FirstFitAfterPrefix | pkg/driver/wayallocator.go:50-57 | after a used prefix a request goes directly behind it and extends it |
| Windows.FreePlusUsed | pkg/driver/wayallocator.go:73-79 | the free count and the used ways inside the domain add up to the total |
| Words.WaysAndNot | pkg/driver/wayallocator.go:66 | clearing a mask in a word is set difference of ways |
| Words.WaysOr | pkg/driver/wayallocator.go:55 | or-ing a mask into a word is union of ways |
| Words.MeetIsDisjoint | pkg/driver/wayallocator.go:54 | a zero conjunction of words means disjoint ways, and conversely |
| Words.SameWaysSameMask | pkg/driver/wayallocator.go:18-21 | a word is determined by its ways, so the refinement to sets loses nothing |
| Words.WaysMask | pkg/cache/partition.go:237-243 | a built mask stands for its run of ways, also past the end of the word and for negative arguments |
| Words.SpanSize | pkg/cache/partition.go:237-243 | a run that ends inside the word has exactly its number of ways |
| Words.MaskClosedForm | pkg/driver/wayallocator.go:132-138 | both mask builders compute ((1 << count) - 1) << start, also for a whole word and past its end |
| Words.NumWays | pkg/resctrl/resctrl.go:25-33 | the shift loop terminates and returns the number of ways in the mask |
| Words.PopcountBound | pkg/resctrl/resctrl.go:25-33 | no mask has more than 64 ways |
| Schemata.StructuredRoundTrip | pkg/driver/driver.go:338-344 | the file of a structured group, with or without a bandwidth line, is read back as exactly its domain and mask |
| Schemata.CombinedRoundTrip | pkg/cache/partition.go:172-184 | L2, MB and SMBA lines do not change what is read from a combined file |
| Schemata.L3LineRoundTrip | pkg/driver/wayallocator.go:105-126 | an L3 line over any number of domains is read back exactly |
| Schemata.ExtraDomainsOnlyAdd | pkg/driver/wayallocator.go:105-124 | a file with the L3 line indented anywhere among other lines and listing further domains is never read as less than what was written, and as exactly that line's entries when no other line is an L3 line |
| Schemata.FileIsItsLines | pkg/driver/wayallocator.go:105-110 | trimming and splitting a file gives its lines, whatever they are |
| GoText.DecimalRoundTrip | pkg/driver/wayallocator.go:116-119 | decimal printing and parsing of any 64-bit integer is the identity; `Numerals.DecimalIff` and `Numerals.AtoiIff` say what is printed and what is accepted |
| GoText.HexRoundTrip | pkg/driver/wayallocator.go:120-123 | hexadecimal printing and parsing of any 64-bit word is the identity; `Numerals.HexIff` and `Numerals.ParseHexIff` say what is printed and what is accepted |
| Numerals.DigitCharCode | pkg/driver/driver.go:174-175 | the digit printed for a value has the character code of that digit, letters in lower case |
| Numerals.DigitValueIff | pkg/driver/wayallocator.go:120-123 | a character is read as a digit exactly by its code, letters in either case |
| Numerals.ParseDigitsIff | pkg/driver/wayallocator.go:116-123 | parsing succeeds if and only if the text is digits of the base and not empty, and gives the sum of its digits times the powers of their places |
| Numerals.DigitsIff | pkg/driver/driver.go:338-344 | what is printed is the one numeral with that positional value, without leading zeros and upper-case digits |
| Numerals.AtoiIff | pkg/driver/wayallocator.go:116-119 | an integer is accepted if and only if it is digits behind at most one sign, with that value and within 64 bits |
| Numerals.ParseHexIff | pkg/driver/wayallocator.go:120-123 | a mask is accepted if and only if it is hexadecimal digits whose value fits a word, and is the word of that value |
| Numerals.DecimalIff | pkg/driver/driver.go:174-175 | decimal text is the shortest numeral, behind a minus sign when negative |
| Numerals.HexIff | pkg/cache/partition.go:138 | a printed mask is the shortest lower-case hexadecimal numeral of its value |
| WordValues.WayIsBinaryDigit | pkg/driver/wayallocator.go:74-79 | a way is in a mask if and only if that binary digit of the mask's value is one |
| WordValues.ValueStays | pkg/driver/wayallocator.go:120-123 | a number below 2^64 becomes the word of that value |
| Texts.SplitIff | pkg/driver/wayallocator.go:105-111 | splitting gives the one list of parts without separators that joins to the text |
| Texts.SplitMember | pkg/driver/wayallocator.go:105-111 | a part of the split text is exactly a stretch between separators and ends |
| Texts.JoinedPart | pkg/cache/partition.go:156-184 | in a joined text every part stands at its place, in order, with separators between them |
| Texts.TrimIff | pkg/driver/wayallocator.go:105-107 | trimming takes exactly the white space off both ends |
| Texts.SpaceCodes | pkg/driver/wayallocator.go:105-107 | white space, by code point |
| Meaning.SegmentIff | pkg/driver/wayallocator.go:112-124 | a segment counts if and only if its characters are an integer, an equals sign and a hexadecimal word, and then for exactly that domain and mask |
| Meaning.LineIff | pkg/driver/wayallocator.go:105-124 | a line contributes an entry if and only if, white space aside, it begins with L3: and a segment between semicolons spells that entry |
| Meaning.FileMarksIff | pkg/driver/wayallocator.go:105-124 | a way is read from a file if and only if a segment of one of its L3 lines spells the way's domain and a mask with that binary digit |
| WayAllocation.ScanMarksIff | pkg/driver/wayallocator.go:86-130 | a rebuild marks a way if and only if a directory with the prefix has a readable file that spells it |
| Meaning.DeviceNameIff | pkg/driver/driver.go:310-330 | a device name is parsed as a domain and a number of ways if and only if it is `cache`, the one number, a hyphen, the other, `way` |
| Writing.StructuredTextIff | pkg/driver/driver.go:338-344 | the text written for a grant is `L3:`, the domain in decimal, an equals sign, and the mask in hexadecimal, and no other text is |
| Writing.RunbookExample | docs/runbook.md:29 | mask 0x1f in domain 0 is written as the runbook shows it |
| Writing.CombinedLines | pkg/cache/partition.go:172-188 | a combined file has the L3 line first and one line each for L2, MB and SMBA exactly when configured, every line with the domain and its own value |
| Writing.NamesSpelled | pkg/cache/partition.go:132-147 | partition, group, device, bandwidth and counter names spell the domain first, then the index or number of ways, and group names the digits of the claim's UUID |
| Names.GroupNamesDiffer | pkg/driver/driver.go:174-175 | group names are injective in domain and UUID-form claim UID, hyphens stripped |
| Names.SanitizeIsCompact | pkg/driver/driver.go:333-335 | stripping the hyphens of a UUID leaves its five digit groups in order |
| Names.SanitizeAt | pkg/driver/driver.go:333-335 | of any UID every hyphen is dropped and every other character kept, wherever it stands |
| Names.PartitionNamesDiffer | pkg/cache/partition.go:132-147 | partition IDs and partition group names are injective in domain and index |
| Names.PartitionGroupHasPrefix | pkg/cache/partition.go:145 | every partition group carries the prefix by which structured mode recognises its own groups |
| Names.GroupIsNotPartitionGroup | pkg/driver/driver.go:174-175 | no group of structured mode has the name of a partition group |
| Names.DeviceNameRoundTripIff | pkg/driver/driver.go:310-330 | a published device name is parsed back to its domain and ways if and only if the domain is not negative |
| Names.OtherDevicesRejected | pkg/driver/driver.go:310-330 | inventory, MBA and SMBA device names are never taken for cache-way devices |
| Partitioning.Validate | pkg/cache/partition.go:66-90 | no error if and only if every tier and both sums are within the hardware's limits; otherwise the error of the first bad tier, or of the sums when all tiers are in range |
| Partitioning.FailsIff | pkg/cache/partition.go:66-90 | exactly the tiers that are not accepted fail, and with one error only |
| Partitioning.PartitionCache | pkg/cache/partition.go:65-154 | success exactly for accepted tiers, and then exactly the laid-out partitions of every domain in order, each with all ways of the hardware mask as total, the hardware minimum, and the size, NUMA node and CPU list passed for its domain; otherwise the validator's error |
| Layout.PartitionIsOf | pkg/cache/partition.go:94-147 | partition j of domain i has that domain, its index, its tier's ways, all ways of the hardware mask as total, the hardware minimum, and the size, NUMA node and CPU list passed for its domain, with the defaults 0, -1 and the empty list |
| Layout.MasksFollow | pkg/cache/partition.go:122-146 | the printed masks follow one another from way 0 up in the order of the partitions |
| Layout.OnePerDomainIff | pkg/driver/discovery.go:256-280 | the partitions give structured mode one counter worth all ways for each domain if and only if there is a partition and the domains are 64-bit numbers that are not negative, or there is no domain |
| Layout.PublishedFromPartitions | pkg/driver/discovery.go:246-316 | the devices published from a partitioned cache are exactly 1 to all ways of the hardware mask in each domain |
| Partitioning.PartitionDomain | pkg/cache/partition.go:122-149 | start way and index run on across the tiers |
| Partitioning.BuildCBM | pkg/cache/partition.go:237-243 | the same mask function as the way allocator's |
| Tiling.RequestedAndPlaced | pkg/cache/partition.go:72-84 | the validator's sum never exceeds the ways placed, and equals them if and only if no tier has a negative count |
| Tiling.TilesIff | pkg/cache/partition.go:72-149 | an accepted layout has exact widths, disjoint partitions and exactly the requested low ways if and only if tiers with negative counts do not occur beside tiers with positive ones |
| Tiling.HardwareTilesIff | pkg/cache/partition.go:72-149 | for accepted tiers on hardware whose minimum is not negative: the layout tiles if and only if, among the tiers with ways, no count is negative or none is positive |
| Tiling.PlacedIsRequested | pkg/cache/partition.go:72-84 | without negative counts the validator's sums are what the layout places |
| Tiling.TierWidths | pkg/cache/partition.go:122-149 | tiers follow one another in the order given, each with as many partitions of its ways as it asks for |
| Tiling.AcceptedTiersTile | pkg/cache/partition.go:72-149 | the tiers of both producers, when accepted, tile: pairwise disjoint contiguous runs of exactly the tier's width, at least the hardware minimum, whose union is the low requested ways |
| Tiling.PartitionFields | pkg/cache/partition.go:124-146 | a partition's printed mask is read back as its run of ways |
| HardwareMask.LayoutInsideMaskIff | pkg/cache/partition.go:122-125 | the partitions lie inside a hardware mask if and only if it has every way below the number placed |
| HardwareMask.TiersInsideMaskIff | pkg/cache/partition.go:70-125 | accepted tiers of both producers lie inside the hardware mask if and only if it has all requested low ways |
| HardwareMask.GrantsInsideMaskIff | cmd/driver/main.go:225-229 | all grants of a domain lie inside the hardware mask if and only if that mask has no gap below its top |
| HardwareMask.GapExample | cmd/driver/main.go:225-229 | on mask 0xB a two-way partition stays inside and a three-way grant takes a way the hardware does not have |
| Tiling.LayoutFitsIff | pkg/cache/partition.go:122-125 | every partition ends inside the domain if and only if the positive tiers alone ask for at most its ways |
| Tiling.NegativeCountOverflows | pkg/cache/partition.go:75-90 | tiers with a negative count that are accepted, place twice the ways and do not tile |
| Tiling.SpecsFromCountSums | pkg/cache/partition.go:48-60 | the tiers of a count sum to all ways in exactly that many partitions, of which the first, as many as the remainder, have one way more than the others |
| Tiling.SpecsFromCountWidths | pkg/cache/partition.go:48-60 | of a count's partitions exactly the first, as many as the remainder, get the extra way |
| Tiling.CountAcceptedIff | docs/runbook.md:78-80 | partitioning by count succeeds if and only if the count is positive, the smallest partition meets the minimum and the count leaves one CLOSID |
| Tiling.CountTilesEverything | pkg/cache/partition.go:45-60 | with an accepted count every way belongs to a partition |
| Tiling.SizesWithinCache | pkg/cache/partition.go:101-130 | partition sizes sum to at most the cache size, and with all ways assigned less than one byte per way is lost |
| Tiling.AcceptedSizes | pkg/cache/partition.go:66-130 | the sizes of accepted tiers of both producers sum to at most the cache size, losing less than one byte per way when they ask for every way |
| Tiling.RoundingGap | pkg/driver/cdi.go:185-190 | the direct size estimate exceeds the per-way size by at least 0 and less than the number of ways |
| SizesFlag.ParsePartitionSizes | pkg/cache/partition.go:18-43 | the loop returns the tiers of the tokens in order, or the first error; returned tiers are not empty and positive |
| SizesFlag.FlagRoundTrip | pkg/cache/partition.go:18-43 | writing tiers as a flag and parsing the flag gives the tiers back |
| SizesFlag.TokenIff | pkg/cache/partition.go:21-37 | a token is a tier if and only if, white space aside, it is two positive numbers around a colon, ways first, and is skipped if and only if it is blank |
| SizesFlag.TokenErrorIff | pkg/cache/partition.go:26-37 | each of the three token errors has exactly its cause |
| SizesFlag.FirstErrorDecides | pkg/cache/partition.go:18-43 | tiers come in the order of their tokens, and otherwise the first bad token decides |
| SizesFlag.ParsedTiersAreSane | pkg/cache/partition.go:29-36 | parsed tiers have no negative numbers, so accepted ones tile |
| Inventory.AllocationState.constructor | pkg/driver/state.go:24-32 | one free entry per partition ID |
| Inventory.OneEntryEach | pkg/driver/state.go:24-32 | distinct names give exactly one entry per partition |
| Inventory.OneEntryPerPartition | pkg/driver/state.go:24-32 | the state made from what partitioning distinct domains returns has exactly one entry per partition under its ID, as many as domains times partitions, and all IDs and groups differ |
| Inventory.BandwidthDevicesStayRefused | pkg/driver/state.go:49-67 | no sequence of calls ever lets a claim own an MBA or SMBA device |
| Inventory.LaidOutIsCacheNamed | pkg/cache/partition.go:132-147 | everything partitioning returns carries a cache partition name, so the row above applies to it |
| Publishing.BuildDevices | pkg/driver/discovery.go:122-212 | the loops publish the devices of all partitions in order: every partition under its own ID, and under its bandwidth IDs where throttled, and nothing else |
| Publishing.PublishedIff | pkg/driver/discovery.go:122-212 | a name is published if and only if it is a partition's own ID or its bandwidth ID of a throttled kind, and there are as many devices as partitions and throttled kinds together |
| Publishing.AllPublishedIff | pkg/driver/discovery.go:122-212 | the same over all domains |
| Inventory.FlattenInOrder | pkg/cache/partition.go:229-235 | the partitions of all domains are taken page by page, in order |
| Publishing.PublishedIsKnownIff | pkg/driver/discovery.go:122-212 | a published device is in the allocation table after any calls if and only if it is a cache device; the others are granted to no claim |
| Publishing.BandwidthIsPublished | pkg/driver/discovery.go:150-212 | a partition with a throttle value has its bandwidth device published |
| Inventory.AllocationState.Allocate | pkg/driver/state.go:49-67 | granted exactly to the owner or when free; the two errors name their cause; nothing else changes |
| Inventory.AllocationState.Release | pkg/driver/state.go:70-82 | frees the partition whoever owns it |
| Inventory.AllocationState.ReleaseByClaimUID | pkg/driver/state.go:85-98 | frees and lists exactly the claim's partitions, and the count drops by their number |
| Inventory.AllocationState.AllocatedCount | pkg/driver/state.go:101-112 | the number of allocated partitions |
| Inventory.AllocationState.AvailablePartitions | pkg/driver/state.go:35-46 | a copy of every free partition, each once |
| Inventory.AllocationState.PrepareClaim | pkg/driver/driver.go:94-136 | takes the free listed partitions; answers with the granted devices, or an error when there is none |
| Inventory.AllocationState.UnprepareClaim | pkg/driver/driver.go:245-251 | frees exactly the claim's partitions |
| Inventory.AllocationState.RecoverClaim | pkg/driver/recovery.go:51-85 | the same takeover as a prepare, counted |
| Inventory.AllocationState.ClaimAllocatedOnNode | pkg/driver/recovery.go:87-97 | whether some device is in the node's pool |
| Inventory.AllocationState.RecoverAllocations | pkg/driver/recovery.go:17-49 | state and count depend only on the concatenation of the pages; a listing error keeps what was recovered before it |
| Claims.DevicesOfMember | pkg/driver/driver.go:110-113 | a claim's devices are exactly those of this driver in this node's pool |
| Claims.DevicesInOrder | pkg/driver/driver.go:110-113 | devices are taken in the order of the allocation |
| Claims.NoPoolNoDevices | pkg/driver/recovery.go:56-58 | the early exit for claims of other nodes skips nothing |
| Ownership.TakeDevicesOwner | pkg/driver/driver.go:109-124 | exactly the free listed partitions change hands, to the preparing claim |
| Ownership.GrantedAreOwned | pkg/driver/driver.go:109-124 | the devices a prepare answers with are exactly the listed ones the claim owns afterwards |
| Ownership.GrantedInOrder | pkg/driver/driver.go:109-124 | the answer lists them in the claim's order, and as often |
| Ownership.GrantLedger | pkg/driver/recovery.go:60-75 | granted devices are the newly owned partitions plus repeats |
| Ownership.FreeAllCount | pkg/driver/state.go:85-112 | a release drops the allocated set by exactly the claim's partitions |
| Ownership.PrepareUnprepareRestores | pkg/driver/driver.go:94-251 | prepare then unprepare of a claim that owned nothing restores the state exactly |
| Ownership.RecoverSplit | pkg/driver/recovery.go:21-41 | cutting the claim list into pages changes neither state nor count |
| Ownership.RecoverIdempotent | pkg/driver/recovery.go:17-49 | recovering again from claims already recovered changes nothing |
| Ownership.PrepareAfterRecovery | pkg/driver/driver.go:109-124 | preparing a recovered claim changes nothing |
| Ownership.RecoveryIsFaithful | pkg/driver/recovery.go:51-85 | if no device is listed by two claims, every known listed device is owned by its claim |
| Ownership.RecoveryLedger | pkg/driver/recovery.go:30-48 | the returned count is the newly owned partitions plus repeats |
| Ownership.DistinctClaimsDoNotRepeat | pkg/driver/recovery.go:30-48 | from an empty state and without repeated devices the returned count is the allocated count |
| Ownership.OwnerStep | pkg/driver/state.go:49-98 | a call keeps an owner, unless it is that owner's unprepare |
| Ownership.OwnedUntilUnprepared | pkg/driver/state.go:49-98 | over every sequence of prepares, unprepares and recoveries an owner keeps its partition until its own unprepare |
| Ownership.OwnerChangesThroughFree | pkg/driver/state.go:49-98 | if the owner changed, the run contains the old owner's unprepare, right after which the partition is free |
| Ownership.PartitionsSplit | pkg/driver/state.go:24-46 | the known partitions never change and always split into allocated and available ones |
| Discovery.DiscoverDomainIDs | pkg/resctrl/resctrl.go:191-219 | the loop returns the IDs of the first line that begins with the prefix, white space aside, or domain 0 when there is none |
| Discovery.DomainsOfL3Line | pkg/resctrl/resctrl.go:191-219 | the domains found are those of the kernel's L3 line, indented by any spaces and tabs, whatever other lines there are |
| Discovery.DomainsOfFile | pkg/resctrl/resctrl.go:191-219 | the same from the text of the whole file, and domain 0 when it has no L3 line |
| Discovery.FirstMatchDecides | pkg/resctrl/resctrl.go:197-217 | the first line that begins with the prefix, white space aside, gives the IDs |
| Discovery.NoMatchIsDomainZero | pkg/resctrl/resctrl.go:218 | without such a line the answer is domain 0 |
| Discovery.SegmentIDIff | pkg/resctrl/resctrl.go:205-214 | a segment gives an ID if and only if the text in front of its first equals sign is that integer |
| Discovery.BuildStructuredDevices | pkg/driver/discovery.go:251-318 | one device per domain and way count in order, and the counter map |
| Discovery.DeviceOfDomain | pkg/driver/discovery.go:286-314 | the devices of a domain are those for 1 to all of its ways, in this order |
| Discovery.CountersAreTotals | pkg/driver/discovery.go:256-268 | the published counters are exactly one per domain, worth its ways |
| Discovery.BatchAdmittedIff | pkg/driver/discovery.go:246-316 | a batch of published devices, repetitions allowed, is granted in full on an empty node if and only if no published counter is overdrawn |
| Discovery.AdmittedInAnyOrder | pkg/driver/discovery.go:246-316 | whether a batch of published devices is granted in full does not depend on its order |
| Discovery.GrantedWhenEmpty | pkg/driver/wayallocator.go:46-59 | an empty domain grants exactly 1 to all of its ways |
| Discovery.PublishedIffGrantable | pkg/driver/discovery.go:270-316 | a device is published if and only if its parsed name is a request granted on an empty node, drawing exactly its ways |
| SizeLabels.OnlyHalves | pkg/driver/discovery.go:33-36 | the one-decimal form is used only for an odd number of half MiB |
| SizeLabels.LabelIsExact | pkg/driver/discovery.go:18-41 | every positive size's label denotes exactly that number of bytes |
| SizeLabels.LabelUnit | pkg/driver/discovery.go:18-41 | the label uses the largest unit in which the size is whole, halves counting for MiB from one MiB up, and `0B` for no size |
| SizeLabels.LabelsDiffer | pkg/driver/discovery.go:18-41 | distinct sizes have distinct labels |

## Left out

- Interleaved execution of the classes: the step protocol has all interleavings, while a method of `Driver` runs alone; each is proved to be one execution of the protocol.
- Reading and parsing a claim's device list between steps: a protocol call starts with its parsed requests, since parsing touches no shared state.
- Kernel behaviour behind resctrl: default masks of fresh groups, normalisation of written masks, task draining, CDP. A group is the text last written; `Schemata.ExtraDomainsOnlyAdd` covers files that list further domains.
- Partial file writes: writing a schemata file succeeds or leaves the file as it was.
- CDI spec contents, hook installation and per-claim CDI names, which use only the first eight characters of a UID and are not unique; a UID shorter than eight characters makes the driver panic, which is not part of this model.
- Kubernetes client calls: allocation results and listed pages are inputs, a failed call is an absent input.
- gRPC, registration, health, metrics, logging, the monitor, feature gates and the publishing of ResourceSlices.
- Sysfs and NUMA lookups: their results are optional maps given to `PartitionCache`.
- Device attributes other than name and counter use, and `ApplyMBA`, `ApplySMBA`, `ApplyL2`: field copying.
- Integer width of counts and sizes: unbounded, so a product that wraps in Go on absurd inputs does not wrap here. Parsed numbers are bounded to 64 bits as in Go.
- Strings are sequences of characters rather than UTF-8 bytes.
- Error texts: errors are named constructors.
- `NewWayAllocator` and `NewDriver` copy their arguments; the copying loop is an assignment of a map value.
- `PartitionsByClaimUID` and `StructuredTargets`, which are read-only projections.
- `%.1f` of a size is modelled as exact tenths, which the branch that prints it guarantees.
- The hardware minimum in structured mode: the allocator does not check it, so nothing is stated about it.
