# TPU DRA kubelet plugin: a verified model

A Dafny model of the parts of the TPU DRA kubelet plugin that have to be right under crashes, I/O failures and
concurrency, with proofs of what they promise. `dafny verify dfyconfig.toml` checks everything.

**Claim lifecycle** (`Cdi`, `ClaimMachine`, `ClaimSafety`, `ClaimGuarantees`, `ClaimTeardown`, `ClaimLogs`,
`ClaimDevices`, `ClaimIds`, `ClaimGrants`, `DeviceState`). Three things survive a crash: the checkpoint, the directory of CDI spec files and the libtpu log
directory. `ClaimMachine` is a step machine over them. One step is one durable operation; it may succeed, fail
before its effect or report an error after it; a crash may fall between any two steps; a restart runs
`NewDeviceState` on whatever is left, with any labels, device set and sharing policy. A history beside the state
records what a caller knows: the live claims (a Prepare succeeded, no Unprepare invoked since) and their answers, and
which calls were left unfinished. The theorems speak of every state of every run. The class `DeviceStates.DeviceState`
has the plugin's own methods, with loops and stores updated in place; each is proved to take the stores and the
history exactly where the machine goes, and to give the machine's reply.

**Health and publication** (`Publication`, `PublicationRuns`, `HealthStatus`, `HealthRuns`, `HealthObjects`). Two protocols as interleaved small steps:
any number of `UpdateHealth` calls against the republisher, over a mutex and a capacity-one channel; and broadcasts
against any number of `WatchHealthStatus` subscriptions, where a report is built when the select statement is entered
and may be stale by the time its send completes. Proved: no update and no wakeup is lost, no deadlock, and a measure
that every step decreases, so every schedule drains to agreement. The guarantees are said of the events of a run: the
health last reported for a device, the changes before a broadcast, the reports built and sent. `HealthObjects` has the objects themselves (checker,
broadcaster, driver) as classes.

**Topology, environment, accelerator labels** (`Text`, `Topology`, `Accelerator`, `EnvSpec`, `Envs`). The overflow-guarded product
over `int64`, host bounds, the `2x4` text form, the accepted accelerator labels with their generations, exactly when
`InitEnvs` succeeds and every variable it sets, and how far three separate decisions of "single host" agree.

**Hardware** (`Hardware`, `Manager`, `ConsumableShares`). Order-independent folds over directory listings, device
enumeration, the wrapping hash, and the sharing policy.

## Where the code does less than it seems to

The model follows the code. Each of these is a theorem with its exact condition.

- A claim whose UID is `common` shares its spec file with the spec of all claims: a restart overwrites the file
  (`ServedUnlessNamedCommon`: the spec promise holds for a UID if and only if it is not `common`), and tearing such a
  claim down breaks the first CDI id of every other live claim (`CommonTeardownBreaksIds`). The plugin itself does
  nothing to exclude that UID, but no cluster produces it: the API server generates claim UIDs.
- `RemoveDirContents` drops the error of `os.ReadDir`, and containers may write logs while it runs. An Unprepare that
  empties the checkpoint leaves no logs if and only if its listing was complete and nothing written after the listing
  is left (`LastUnprepareWipesTheLogs`; `FailedListingKeepsTheLogs` is a failing run).
- Unprepare of a claim that is not checkpointed returns success without touching its spec file. A fault-free Unprepare
  clears both stores if and only if the claim is checkpointed or has no spec file (`UnprepareClearsBothStores`).
- `prepareDevices` counts results and looks them up but does not ask for distinct names
  (`RepeatedDevicePassesTheChecks`). Such an allocation fails later, when the CDI cache refuses a spec with two devices of
  one name, so every Prepare that succeeds still holds all chips (`SuccessfulPrepare`, `EveryClaimHoldsEveryDevice`).
- The newer label pattern `^tpu\d+[a-z]?$` is recognised but never leads to a generation in the table
  (`CurrentPatternIsNeverAccepted`).
- `InitEnvs` treats an unknown topology as one chip, `isSingleHostNode` treats it as multi-host, and it calls every
  device that is not a podslice single-host. `NewTpuManager` states exactly when the two agree.
- Host bounds are floored: chips are conserved if and only if each tray dimension divides its topology dimension
  (`HostBoundsConserveChips`).
- The device hash tells names apart that differ in at most thirteen trailing digits, but not names in general
  (`HashTellsDevicesApart`, `LettersCollide`).

## Model

| member | source | states |
|---|---|---|
| ClaimSafety.InvHolds | cmd/tpu-dra-kubeletplugin/state.go:70-194 | In every state of every run, with failures and crashes anywhere, the invariant holds: entries could be rendered, specs agree with entries, live claims are in both stores, any disagreement has an unfinished call behind it, and every call in progress still holds the checkpoint it read. |
| ClaimGuarantees.LiveClaimsAreServed | cmd/tpu-dra-kubeletplugin/state.go:126-194 | Every live claim is checkpointed, was answered exactly the checkpointed devices, and (UID `common` aside) its spec file is the rendering of them. |
| ClaimGuarantees.LiveMeans | cmd/tpu-dra-kubeletplugin/state.go:126-194 | A claim is live with these devices if and only if some Prepare of it was answered them and no Unprepare of it was invoked since. |
| ClaimGuarantees.CheckpointChanges | cmd/tpu-dra-kubeletplugin/state.go:107-194 | The checkpoint changes only by a commit, only in that call's claim, never replacing an entry; a restart creates one only where there is none. |
| ClaimGuarantees.AnswerIsKept | cmd/tpu-dra-kubeletplugin/state.go:137-160 | A live claim stays live with the same answer and entry until an Unprepare of it is invoked, whatever else happens. |
| ClaimGuarantees.StickyAnswers | cmd/tpu-dra-kubeletplugin/state.go:137-160 | Two successful Prepares of a claim with no Unprepare of it invoked between them answer the same devices, across restarts and changed allocations. |
| ClaimGuarantees.RestartsKeepTheCheckpoint | cmd/tpu-dra-kubeletplugin/state.go:107-123 | Any stretch of restarts, failing or not, leaves an existing checkpoint as it is. |
| ClaimGuarantees.OrphanSpecIsLeftByPrepare | cmd/tpu-dra-kubeletplugin/state.go:137-160 | A spec file without an entry goes back to a Prepare that was interrupted or failed and was never made good. |
| ClaimGuarantees.EntryWithoutSpecIsLeftByUnprepare | cmd/tpu-dra-kubeletplugin/state.go:163-194 | An entry without a spec file goes back to an Unprepare that was interrupted or failed, with no success for the claim since. |
| ClaimLogs.LogsAreRemovedByTheLastClaim | cmd/tpu-dra-kubeletplugin/state.go:258-291 | A log entry disappears only inside an Unprepare of a checkpointed, no longer live claim; with sharing, only while no other claim is checkpointed and none is live. |
| ClaimLogs.LogsOutliveLiveClaims | cmd/tpu-dra-kubeletplugin/state.go:258-291 | With sharing enabled throughout, no log entry goes away over any stretch of a run in which some claim is live. |
| ClaimLogs.LastUnprepareWipesTheLogs | cmd/tpu-dra-kubeletplugin/util.go:138-146 | In any run, with logs written at any moment, a teardown that empties the checkpoint leaves no logs if and only if the directory listing covered them all and nothing was left written after it. |
| ClaimTeardown.FailedListingKeepsTheLogs | cmd/tpu-dra-kubeletplugin/util.go:138-146 | A teardown can succeed, empty the checkpoint and leave the logs, because a failed listing goes unnoticed. |
| ClaimLogs.SuccessfulUnprepare | cmd/tpu-dra-kubeletplugin/state.go:163-194 | In any run, with logs written at any moment, a reported teardown removed the claim from both stores and left every other claim alone; the logs were all kept if another claim is checkpointed under sharing, else every listed entry was removed and what remains was not listed or was written after the listing. |
| ClaimLogs.LogsOver | cmd/tpu-dra-kubeletplugin/util.go:138-146 | Over any stretch of a run an entry is in the directory at the end if and only if it was there and not removed, or was written and not removed after that. |
| ClaimTeardown.FaultFreeUnprepareSucceeds | cmd/tpu-dra-kubeletplugin/state.go:163-194 | In any reachable idle state, one fault-free Unprepare of a checkpointed claim reports a teardown. |
| ClaimTeardown.TeardownRecovers | cmd/tpu-dra-kubeletplugin/state.go:70-194 | From any reachable state, in the middle of any call, a crash, a fault-free start and a fault-free Unprepare of a checkpointed claim take it out of both stores and leave every other claim as it was. |
| ClaimTeardown.PrepareRecovers | cmd/tpu-dra-kubeletplugin/state.go:70-161 | The same with a Prepare: both stores then hold the claim and agree on it, and every other claim is as it was. |
| ClaimTeardown.UnknownUnprepareIsNoOp | cmd/tpu-dra-kubeletplugin/state.go:173-176 | Unprepare of a claim that is not checkpointed changes nothing on disk, and succeeds if the checkpoint could be read. |
| ClaimTeardown.SecondUnprepareIsNoOp | cmd/tpu-dra-kubeletplugin/state.go:173-176 | After a teardown another Unprepare changes nothing on disk, whatever fails in it. |
| ClaimTeardown.UnprepareClearsBothStores | cmd/tpu-dra-kubeletplugin/state.go:163-194 | A fault-free Unprepare leaves no trace in either store if and only if the claim was checkpointed or had no spec file. |
| ClaimTeardown.SuccessfulPrepare | cmd/tpu-dra-kubeletplugin/state.go:126-161 | A successful Prepare leaves both stores agreeing on the claim, touches no other claim and no log, and a new claim then holds every allocatable device, each once. |
| ClaimTeardown.FaultFreePrepareSucceeds | cmd/tpu-dra-kubeletplugin/state.go:126-161 | In any reachable idle state, a fault-free Prepare succeeds if and only if the claim is checkpointed, or it is allocated, its own results are as many as the chips and name distinct allocatable devices, and the CDI library accepts the UID and the names. |
| ClaimTeardown.FullAllocation | cmd/tpu-dra-kubeletplugin/state.go:214-223 | Pigeonhole: as many distinct allocatable names as chips are all the devices of the node. |
| ClaimTeardown.RepeatedDevicePassesTheChecks | cmd/tpu-dra-kubeletplugin/state.go:214-223 | Without distinct names an allocation can pass every check and miss a chip. |
| ClaimTeardown.ForeignResultsChangeNothing | cmd/tpu-dra-kubeletplugin/state.go:206-212 | Results of other drivers inserted anywhere change nothing; the order of the own results is kept. |
| ClaimTeardown.FinishIsARun | cmd/tpu-dra-kubeletplugin/state.go:126-194 | A call carried to its reply is a run of the machine that holds no other call, crash or start and makes its only reply, the call's, at its last event; so the promises about runs and replies hold of the methods' results. |
| ClaimDevices.EveryClaimHoldsEveryDevice | cmd/tpu-dra-kubeletplugin/state.go:281-291 | While the device set stays the same across restarts, every checkpointed claim holds all of it, so counting claims counts the users of each chip. |
| ClaimIds.AnsweredIdsAreDefined | cmd/tpu-dra-kubeletplugin/state.go:234-246 | The ids answered for each device of a live claim are exactly the common id and the device's own, which the claim's own spec file defines; the common file defines the common one as long as no call named the UID `common`. |
| ClaimGrants.LiveClaimsAreGranted | cmd/tpu-dra-kubeletplugin/state.go:206-246 | In any run on one host: some Prepare of a live claim was allocated results `own` of this driver; the kubelet was answered one device per result, in order, with its request, pool, name and two ids, spelled out; and the claim's spec file holds one device per result, in order, named `uid-device`, with the one claim variable and exactly the chip's nodes, plus the vfio control node if and only if the generation starts with v5 or v6e. |
| ClaimGrants.EntryOrigin | cmd/tpu-dra-kubeletplugin/state.go:150-160 | Every checkpoint entry was made by a Prepare of its claim, from the allocation that call was given. |
| ClaimGrants.CommonSpecIsCurrent | cmd/tpu-dra-kubeletplugin/cdi.go:56-92 | As long as no call named the UID `common`, the common file of a started plugin holds one device, `common`, with the environment of this start and no device node. |
| ClaimTeardown.OwnResultsAreThisDrivers | cmd/tpu-dra-kubeletplugin/state.go:206-212 | The own results are the allocation results of the driver `tpu.google.com`, in order. |
| ClaimIds.IdsResolve | vendor/tags.cncf.io/container-device-interface/pkg/cdi/cache.go:143-212 | In any run on nodes with dash-free device names, the claim's spec file is the only file, orphans included, that defines the device's own id, and the common file the only one that defines the common id, so the CDI cache drops neither. |
| ClaimIds.ServedUnlessNamedCommon | vendor/tags.cncf.io/container-device-interface/pkg/cdi/spec.go:317-348 | The spec promise holds for a claim in every run if and only if its UID is not `common`. |
| ClaimIds.CommonTeardownBreaksIds | cmd/tpu-dra-kubeletplugin/cdi.go:129-132 | A reachable state in which another claim is live and holds the common id although the common spec is gone. |
| Cdi.ClaimDeviceNamesAreInjective | cmd/tpu-dra-kubeletplugin/cdi.go:94-145 | `uid-device` naming never collides for dash-free device names, whatever the UIDs contain. |
| Cdi.RenderIsWritable | vendor/tags.cncf.io/container-device-interface/pkg/cdi/spec.go:216-249 | The CDI cache accepts a claim's spec if and only if the claim names at least one device and none twice, and the UID can begin and every name end a valid device name. |
| Cdi.CdiHandler.CreateClaimSpecFile | cmd/tpu-dra-kubeletplugin/cdi.go:94-127 | Writes exactly the rendering of the devices under the claim's UID, no other file, or leaves the directory alone. |
| Cdi.CdiHandler.GetClaimDevices | cmd/tpu-dra-kubeletplugin/cdi.go:134-145 | Returns the common id and then one qualified name per device, in order. |
| DeviceStates.DeviceState.Prepare | cmd/tpu-dra-kubeletplugin/state.go:126-161 | Takes the stores to where the machine's Prepare goes and returns its reply, for every outcome of every operation. |
| DeviceStates.DeviceState.Unprepare | cmd/tpu-dra-kubeletplugin/state.go:163-194 | The same for Unprepare. |
| DeviceStates.DeviceState.UnprepareDevices | cmd/tpu-dra-kubeletplugin/state.go:258-271 | Wipes the logs unless sharing is on and another claim is checkpointed, as the machine's wipe steps do. |
| DeviceStates.LogDirectory.RemoveContents | cmd/tpu-dra-kubeletplugin/util.go:138-146 | Removes what was listed, in order, up to the first error. |
| ClaimMachine.WipedRemovesTheListing | cmd/tpu-dra-kubeletplugin/util.go:138-146 | A wipe that reports success removed exactly the listed entries. |
| DeviceStates.DeviceState.ComputePrepared | cmd/tpu-dra-kubeletplugin/state.go:196-249 | The loops of prepareDevices: which error, or the prepared devices of the own results in order. |
| DeviceStates.NewDeviceState | cmd/tpu-dra-kubeletplugin/state.go:70-124 | A start leaves the stores where the machine's boot does, and gives a usable object exactly when it reaches the idle state. |
| DeviceStates.DeviceState.UpdateHealth | cmd/tpu-dra-kubeletplugin/state.go:308-349 | An unknown device is an error; otherwise only that device's health is set, and one signal is sent exactly if it changed. |
| PublicationRuns.UpdatesAreNotLost | cmd/tpu-dra-kubeletplugin/driver.go:148-198 | In every reachable state the last slice handed over lists exactly the devices last reported healthy, where the last report for a device is the latest critical section of a call that names it, or such a slice is under way. |
| PublicationRuns.SignalsCountNews | cmd/tpu-dra-kubeletplugin/state.go:316-346 | One signal per report of something new, none missing except those an updater still has to send; what was sent has been received or is the one signal in the channel. |
| Publication.SomeProcessCanStep | cmd/tpu-dra-kubeletplugin/state.go:312-346 | No deadlock: unless all is done, some process has a step. |
| Publication.EveryScheduleDrains | cmd/tpu-dra-kubeletplugin/driver.go:178-198 | Whatever the interleaving, the processes stop after at most Work steps of their own. |
| PublicationRuns.DrainedRunHasPublished | cmd/tpu-dra-kubeletplugin/driver.go:148-198 | When no process can step, the last slice lists exactly the devices last reported healthy, and one signal was sent and received per report of something new. |
| HealthRuns.WakeupsAreNotLost | cmd/tpu-dra-kubeletplugin/device_health_status.go:93-162 | In every reachable state, once a broadcast has begun and one has completed since, each subscription has a notification pending, is about to build, last built (and is sending) or was last sent a report that shows at least the changes before that beginning, or is not running; it builds at most one report more than there were broadcasts. |
| HealthStatus.SubscribersAreTheActiveCalls | cmd/tpu-dra-kubeletplugin/device_health_status.go:105-137 | A subscription is on the list exactly between subscribing and unsubscribing, and once. |
| HealthStatus.DeliveriesAreMonotone | cmd/tpu-dra-kubeletplugin/device_health_status.go:139-162 | Reports never go back in time. |
| HealthRuns.SettledMeansInformed | cmd/tpu-dra-kubeletplugin/device_health_status.go:93-162 | When nothing has a step left, every live subscription was sent a report that shows at least the changes before any broadcast since completed, and the present health if nothing has changed since. |
| HealthRuns.ReportsShowSomeHealth | cmd/tpu-dra-kubeletplugin/device_health_status.go:139-162 | What a subscription is sent is what it had built, the health after so many changes, never one to come. |
| HealthStatus.EveryScheduleSettles | cmd/tpu-dra-kubeletplugin/device_health_status.go:87-103 | Every schedule of broadcasts and subscriptions settles within Work steps: a broadcast never waits for a reader. |
| HealthObjects.TpuHealthChecker.Pass | cmd/tpu-dra-kubeletplugin/health_check.go:106-141 | After a pass both copies of the health equal what was observed, the devices are the same, no device was rejected, one signal was sent per changed device and every subscriber is notified. |
| HealthObjects.TpuHealthChecker.PassThenReport | cmd/tpu-dra-kubeletplugin/device_health_status.go:64-85 | A report built after a pass calls a device healthy, with the matching message, if and only if the pass saw its file. |
| HealthObjects.TpuHealthChecker.CheckDevices | cmd/tpu-dra-kubeletplugin/health_check.go:117-133 | The loop of the pass, in whatever order the map is visited. |
| HealthObjects.HealthBroadcaster.Unsubscribe | cmd/tpu-dra-kubeletplugin/device_health_status.go:115-124 | Deletes the first occurrence of the channel and nothing else. |
| HealthObjects.HealthBroadcaster.Broadcast | cmd/tpu-dra-kubeletplugin/device_health_status.go:93-103 | Every subscriber has a notification afterwards. |
| HealthObjects.HealthBroadcaster.BuildReport | cmd/tpu-dra-kubeletplugin/device_health_status.go:64-85 | The report names every device once, in this pool, healthy if and only if the device is, with the message that goes with it. |
| HealthObjects.Driver.GatherStateAndPublish | cmd/tpu-dra-kubeletplugin/driver.go:148-175 | The slice handed over lists exactly the healthy devices, each once, with the sharing fields of the policy. |
| ConsumableShares.SharingIsEnabledWhen | cmd/tpu-dra-kubeletplugin/consumable_shares.go:64-115 | Sharing is enabled if and only if the gate is on, start-up accepts a flag that asks for it, and the node is single-host. |
| ConsumableShares.PublishedSharing | cmd/tpu-dra-kubeletplugin/consumable_shares.go:64-149 | From flag to published device: allocatable more than once if and only if gate and single-host hold and the trimmed flag is `unlimited` or a positive number; capped if and only if it is a number, which is the cap and which default, minimum and step never exceed. |
| Topology.CalculateTotalChips | cmd/tpu-dra-kubeletplugin/util.go:376-388 | For any list of int64: succeeds if and only if all entries are positive and their product is at most 2^20, returns the product, and no intermediate value leaves int64. |
| Topology.TotalChipsPermutes | cmd/tpu-dra-kubeletplugin/util.go:376-388 | The answer does not depend on the order of the dimensions. |
| Topology.GetTopologyDims | cmd/tpu-dra-kubeletplugin/util.go:390-412 | Succeeds if and only if there are two or three positive numbers between the x's, and returns them, a missing third one as 1. |
| Topology.PrintThenParse | cmd/tpu-dra-kubeletplugin/util.go:390-412 | Any positive int64 dimensions, printed and parsed, come back padded to three if and only if there are two or three of them. |
| Topology.ParseThenPrint | cmd/tpu-dra-kubeletplugin/util.go:390-412 | A successful parse has exactly three positive dimensions, and printing them parses to the same. |
| Topology.SingleHostTopology | cmd/tpu-dra-kubeletplugin/util.go:888-902 | 1x1, 1x2, 2x2 or 2x4 for the counts of the tray table, else empty; what it returns parses to the tray, whose product is the count, and is single-host. |
| Topology.CalculateHostBounds | cmd/tpu-dra-kubeletplugin/util.go:349-366 | For any int64 dimensions, fails exactly without three of them or a tray; else the text reads back as each dimension divided by the tray's, without the fraction. |
| Topology.TrayMeans | cmd/tpu-dra-kubeletplugin/util.go:82-87 | The tray table has exactly the counts 1, 2, 4 and 8, each as the flattest box of that many chips. |
| Topology.HostBoundsConserveChips | cmd/tpu-dra-kubeletplugin/util.go:349-366 | Hosts times chips per host is at most the total, with equality if and only if every tray dimension divides its topology dimension. |
| Topology.HostBoundsTextReadsBack | cmd/tpu-dra-kubeletplugin/util.go:360-365 | The printed bounds, split at the commas and parsed, are the bounds, negative ones included. |
| Topology.OneHostMeansSingleHost | cmd/tpu-dra-kubeletplugin/util.go:468-476 | Where trays divide the topology, all bounds are 1 if and only if isSingleHost holds for that chip count. |
| Accelerator.AcceptedLabels | cmd/tpu-dra-kubeletplugin/util.go:297-328 | For every string: AcceleratorGen answers a generation if and only if the string is one of the twenty-three labels listed, and then the generation listed with it. |
| Accelerator.SupportedLabels | cmd/tpu-dra-kubeletplugin/util.go:297-328 | Those labels are the supported combinations of version, slice group and form factor. |
| Accelerator.GenerationOfSupported | cmd/tpu-dra-kubeletplugin/util.go:308-319 | The generation is v, the version with its letter, lite for the lite forms and pod for the v5 lite podslice. |
| Accelerator.CurrentPatternIsNeverAccepted | cmd/tpu-dra-kubeletplugin/util.go:300-301 | No string of the newer pattern is ever accepted. |
| Envs.Wrap | cmd/tpu-dra-kubeletplugin/util.go:517-543 | Fails only for a generation AcceleratorGen never returns; else the wrap flags, printed, spelled out for three dimensions and defined for any length on which the function does not panic. |
| Envs.AddPodsliceEnvs | cmd/tpu-dra-kubeletplugin/util.go:427-461 | Fails if and only if there are not three dimensions, the requested count has no tray or the generation is unknown; else adds exactly the layout, variable by variable as described. |
| Envs.InitEnvs | cmd/tpu-dra-kubeletplugin/util.go:182-251 | Succeeds if and only if the accelerator is listed and a given topology has dimensions within the cap and, on a podslice, the requested chips fill a tray; then every variable is what the options say it should be. |
| EnvSpec.EnvironmentMeans | cmd/tpu-dra-kubeletplugin/util.go:182-251 | The environment as put together is the one described: URL from the address, topology, generation with the chips or twice the chips, worker id, and on a podslice resiliency, wrap, host bounds and tray, each in terms of the options alone. |
| EnvSpec.AcceptsMeans | cmd/tpu-dra-kubeletplugin/util.go:182-251 | The conditions InitEnvs checks on the way are together the stated ones. |
| Envs.NewTpuManager | cmd/tpu-dra-kubeletplugin/manager.go:74-122 | When start-up gives an environment, every variable of it from the labels, the resiliency label and the node address, and that the worker id agrees with isSingleHostNode except in two exactly stated families. |
| Envs.SingleHostNodeMeans | cmd/tpu-dra-kubeletplugin/util.go:485-515 | A node is single-host if and only if it is no podslice, or its labels give a count and dimensions within the cap that multiply to it. |
| Envs.CompleteLabelsFromHardware | cmd/tpu-dra-kubeletplugin/util.go:859-883 | Labels win over the hardware; the inferred topology is spelled out and makes a podslice single-host if and only if its final chip count is the observed one. |
| Manager.Enumerate | cmd/tpu-dra-kubeletplugin/manager.go:176-209 | Succeeds if and only if the listing shows as many devices as chips; the map then holds exactly the listed devices, each with its position among them as index, a bijection onto 0..n-1. |
| Manager.DeviceNamesMean | cmd/tpu-dra-kubeletplugin/manager.go:176-209 | A name is listed if and only if it is that of a file, not a directory, that is a number under vfio, or `accel` and a number. |
| Manager.DeviceNamesConcat | cmd/tpu-dra-kubeletplugin/manager.go:176-209 | The listed names are in listing order. |
| Manager.EnumeratedNodeIsValid | cmd/tpu-dra-kubeletplugin/manager.go:176-209 | What enumeration returns is what the claim machine asks of a node; its names hold no dash, so ids resolve, and the CDI library accepts them. |
| Manager.Hash | cmd/tpu-dra-kubeletplugin/manager.go:230-236 | The loop of wrapping operations computes the base-31 polynomial modulo 2^64. |
| Manager.HashMeans | cmd/tpu-dra-kubeletplugin/manager.go:230-236 | One character hashes to its code, each further one adds its code to 31 times what was; wrapping keeps the number modulo 2^64 in int64. |
| Manager.HashConcat | cmd/tpu-dra-kubeletplugin/manager.go:230-236 | hash(a+b) is hash(a) times 31^len(b) plus hash(b), wrapped. |
| Manager.HashTellsDevicesApart | cmd/tpu-dra-kubeletplugin/manager.go:216-236 | On one node, names that differ only in at most thirteen trailing digits hash alike if and only if they are equal. |
| Manager.LettersCollide | cmd/tpu-dra-kubeletplugin/manager.go:230-236 | Names in general collide: `Aa` and `BB` can be exchanged anywhere. |
| Hardware.CountVfioTpuDevices | cmd/tpu-dra-kubeletplugin/hardware.go:190-222 | Counts the files named by a number whose group holds a TPU, and returns the generation they agree on. |
| Hardware.AgreedGenerationMeans | cmd/tpu-dra-kubeletplugin/hardware.go:190-222 | The generation is a non-empty g if and only if some entry bears a TPU and the group of every one that does reports g. |
| Hardware.GroupGenerationMeans | cmd/tpu-dra-kubeletplugin/hardware.go:230-261 | A group bears a TPU if and only if some device has Google's vendor id and a readable device id that is not a known other; its generation is that of the first. |
| Hardware.PciGenerationMeans | cmd/tpu-dra-kubeletplugin/hardware.go:101-140 | The generation of each recognised PCI id, spelled out. |
| Hardware.ConsensusMeans | cmd/tpu-dra-kubeletplugin/hardware.go:190-222 | The generation is a non-empty g if and only if there is a TPU-bearing group and all of them report g. |
| Hardware.CountIgnoresOrder | cmd/tpu-dra-kubeletplugin/hardware.go:190-222 | Neither answer depends on the order of the directory listing. |
| Hardware.ConsensusIsValid | cmd/tpu-dra-kubeletplugin/hardware.go:101-122 | Any generation it returns is in the generation table. |
| Hardware.GenerationOfGroup | cmd/tpu-dra-kubeletplugin/hardware.go:230-261 | The generation of the group's first TPU, skipping other vendors, unreadable files and known non-TPU devices. |
| Hardware.GenerationFromPciIds | cmd/tpu-dra-kubeletplugin/hardware.go:129-140 | The first family whose device id matches and whose subsystem id, if it has one, matches too. |

## Left out

- JSON and the checksum of the checkpoint file: the checkpoint is a map, read and written as a whole.
- The mounts of the common spec, and what its environment variables are made of besides Envs: one list of strings per start.
- YAML, spec versions and the validation of edits: a spec is its devices, and what else could make the CDI library refuse one counts as a failed write.
- ClaimIds.ServedUnlessNamedCommon: spec files are keyed by the UID, not by the file name made from it, so it does not say that UIDs `x` and `x.yaml` get the same file; slashes, which the file name replaces, cannot occur in a UID whose spec was written.
- ClaimIds.IdsResolve: only files this plugin writes are in the directory, and dash-free device names are a condition on the run that Manager.EnumeratedNodeIsValid meets.
- One call carried to its reply (ClaimTeardown, DeviceStates): nothing else happens meanwhile, log writes included; ClaimLogs has the teardown among them, and FinishIsARun the link.
- Losing the spec directory on a reboot of the host (it is a tmpfs on some systems): a crash here is a crash of the plugin.
- Partial effects inside one operation, such as a log subdirectory removed halfway: each operation is atomic.
- The kubeletplugin helper, gRPC, the API server and the scheduler: "the last slice handed to PublishResources" stands for the published state, since publishing errors are only logged.
- Aliasing of the `*AllocatableDevice` pointers: health is a map from name to bool that the methods reassign; the attributes of a device are not modelled.
- ClaimMachine.ValidNode: chip counts and device sets are arbitrary per start, but only those that start-up accepts.
- HealthObjects.TpuHealthChecker.Pass: runs without interference, with the channel seen as a count of signals; what interleaves with it is Publication and HealthStatus. A probe that fails counts as a device that is absent.
- HealthObjects.Driver.GatherStateAndPublish: the other half, that it runs under the mutex between a receive and a later hand-over, is in Publication.
- HealthRuns.SettledMeansInformed: cancelled subscriptions and readers that stop reading are owed nothing.
- Manager.Enumerate: the listing has unique names, as a directory has; device attributes are not built.
- Manager.HashTellsDevicesApart: nothing is claimed beyond thirteen digits, where the bound on the polynomial passes 2^64, nor about the UUIDs generated from the hash, since `rand` and `uuid` are not modelled.
- Envs.Wrap: a fourth dimension of 16 on a lite generation, where the source panics, is excluded by its precondition.
- Envs.InitEnvs: sub-slices, visible chips and NUMA nodes are never passed by NewTPUManager; the environment is a record of the variables, with constants left out, instead of a string map.
- Envs.NewTpuManager: only its environment and its error cases from labels; enumeration is Manager.Enumerate.
- Where labels come from: node labels, the metadata server, `tpu-env`, aliases and their precedence, each an easy lookup.
- Regular expressions: the patterns are recognisers written out.
- Unicode: lower-casing covers ASCII letters, trimming the Latin-1 spaces; `path.Join` is concatenation with a slash.
- Text.Atoi: does not tell a syntax error from a range error.
- File probing, sysctl writes, time, logging, flags and feature gates: listings, observations and the gate are inputs.
- ValidateTpuRequest, accel device counting and the metadata of published devices: easy members.
