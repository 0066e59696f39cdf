# Verification model of the Aos service manager

The Aos service manager keeps a node in line with what the cloud asks for: it starts and stops service instances,
hands out shared devices, counts network traffic against quotas, caches layers, splits logs and overrides environment
variables. This project models those parts in Dafny and proves what they promise. `dafny verify dfyconfig.toml` checks
all of it.

Parts that change objects in place are classes with `modifies` clauses, and every method is proved against a function of
the old state. Parts that interleave are state machines whose steps are the critical sections of the code, built from
the same functions. Pure parts are functions and lemmas.

## The modules

- **The launcher.** `Instances` (records and their comparison), `Devices` (the resource manager's allocation table),
  `Preparation` (service cache and greedy allocation by priority), `StorageMatching` (desired list against storage),
  `Reconciler` (the state of the launcher and its critical sections as functions), `Launcher` (the launcher object),
  `ActionHandler` (the queue its stop and start actions go through). `LauncherRuns` is the whole launcher as a state
  machine in which stop and start actions, status batches of the runner, offline sweeps and environment restarts
  interleave; `LauncherInvariant` and `LauncherView` hold what every step keeps, `LauncherTheorems` what follows for
  every run, `SharedIdents` what the receiver knows when instances share an ident. An ident may be requested and stored
  any number of times. `ServiceChecks` goes from the provider's answers to the instances that start, fail or are swept,
  `StartStatuses` from the batches that overtake a start to the status it ends with.
- **Environment variables.** `EnvVars` is the list of overrides with its expiry and what it selects for an instance,
  `EnvRestarts` the iteration that restarts outdated instances, which may produce a restarted instance again;
  `RestartReports` says what the receiver of the reports knows after such restarts in the state machine. `StartRuns`
  runs any stored list that fits from an initial state on, and `MisreportRuns` continues such runs to states in which
  the receiver is wrong. `EnvMerge` merges the lists into a runtime spec.
- **Traffic.** `Traffic` is the monitor, `TrafficRuns` one chain under packets, ticks and restarts in any order, next
  to a reference sum of what the reads saw the counter grow.
- **Layers.** `Layers` is the layer manager with the outdated list of the space allocator.
- **Logs, runner, services.** `Archivator`, `Runner`, `ServiceIDs` (the IDs under which services are cached) and
  `ServiceCache` (the cached services and the outdated list, at start-up and when desired services are marked).
- `Sequences` holds shared facts about lists.

Clocks, new UUIDs, the service provider's answers, package contents, iptables counters, journal rows and the results of
foreign calls are parameters with arbitrary values. Map iteration order and the order of equal elements under an
unstable sort are left open wherever the code leaves them open.

## Where the code falls short of a promise

- An environment restart can leave the cloud with a wrong state of an instance: when a status batch arrives in the
  middle of it (`RestartReports.RacedRestartMisreports`), and without any batch when the iteration over the running
  instances produces a restarted one again (`RestartReports.RevisitedRestartMisreports`). The receiver is wrong exactly
  when the final state is the one saved at the last visit and another state was told last (for distinct idents):
  `RestartReports.RestartMisreportsIff`. Both are reached from an initial state: `MisreportRuns.MisreportsAreReachable`.
- Instances that share an ident share one entry of what is reported. The receiver then knows all statuses exactly if
  instances of one ident have equal ones: `SharedIdents.ReportedIff`; a run in which they differ:
  `MisreportRuns.SharedIdentMisreports`.
- Repeating a request writes nothing, in whatever order the storage lists its rows, exactly if each desired instance
  equals every row of its ident and the numbers agree: `StorageMatching.QuietIff`; with two different instances of one
  ident it may write again: `StorageMatching.RepeatedIdentRewrites`.
- Deleting a traffic chain before its first tick overwrites the stored value with 0:
  `TrafficRuns.CleanRestartLosesTraffic`, and exactly then: `TrafficRuns.CleanRestartConserves`.
- A digest that is desired twice destroys the folder of a stored layer, and exactly then when all packages are good:
  `Layers.LayerManager.ProcessDesiredLayers`.
- The comparison of network parameters is not symmetric when a DNS server is listed twice:
  `Instances.InfoEqualIsNotSymmetric`; it holds both ways exactly when all compared fields and the lengths of the
  lists agree and the lists have the same elements: `Instances.InfoEqualBothWays`. It also ignores the network ID:
  `Instances.NetworkIDIsIgnored`.
- After its start-up the service manager's outdated list names the stored cached services exactly when of the cached
  services with one printed ID either one had expired or one stays, and not both: `ServiceCache.CoupledIff`. Without
  shared IDs it fails exactly for a cached service whose folder is missing and that had not expired
  (`ServiceCache.CoupledIfDistinct`), with shared ones also when one expires and the other stays
  (`ServiceCache.SharedIDUncouples`).
- Marking the desired services keeps this list right exactly if no restored ID is shared by a service that is not
  desired, unless that ID is added again later: `ServiceCache.UpdateCoupledIff`; with plain versions always
  (`ServiceCache.PlainVersionsAreClean`), with underscores not (`ServiceCache.SharedIDUnlists`).
- Merging one variable overrides it exactly if its name occurs at most once, or its last value is the new one already:
  `EnvMerge.RepeatedNameEscapes`.
- The cache ID of a service is parsed back exactly when its version has no underscore: `ServiceIDs.RoundTrip`.
- A refused device allocation restores the table exactly when the instance held nothing before:
  `Devices.AllOrNothing`. In a calculation that is always so: `Preparation.NewcomerHoldsNothing`.
- A starting unit that is stopped meanwhile comes back under monitoring when its start succeeds:
  `Runner.StopDuringStartIsForgotten`; `Runner.MonitoredUnits` says which units are monitored after any run.

## Model

| member | source | states |
|---|---|---|
| Instances.ScanCovers | launcher/launcher.go:1232-1241 | the nested scan answers whether every element of the first list occurs in the second |
| Instances.NetworkParametersEqual | launcher/launcher.go:1226-1255 | true iff both list scans succeed from the first argument's side |
| Instances.InstanceInfoEqual | launcher/launcher.go:1211-1224 | true iff all compared fields agree and the network comparison succeeds |
| Instances.CoversDecidesSetEquality | launcher/launcher.go:1226-1255 | on a duplicate-free first list the one-directional scan decides set equality (pigeonhole), in both directions |
| Instances.InfoEqualDecidesSameInstance | launcher/launcher.go:1211-1255 | with duplicate-free lists the comparison decides whether two records describe the same instance, lists taken as sets |
| Instances.InfoEqualIsEquivalence | launcher/launcher.go:1211-1255 | on duplicate-free records the comparison is reflexive, symmetric and transitive |
| Instances.InfoEqualBothWays | launcher/launcher.go:1211-1255 | for all records the comparison holds both ways iff the compared fields and the lengths of the lists agree and the lists have the same elements |
| Instances.InfoEqualIsNotSymmetric | launcher/launcher.go:1232-1241 | a concrete pair with a repeated DNS server that compares equal one way only |
| Instances.NetworkIDIsIgnored | launcher/launcher.go:1211-1255 | replacing the network ID of a record changes no comparison of it with any record, on either side |
| Devices.ResourceManager.Contains | resourcemanager/resourcemanager.go:484-492 | found iff the string is in the slice |
| Devices.ResourceManager.RemoveFromSlice | resourcemanager/resourcemanager.go:494-503 | exactly the first occurrence is gone, the order of the others is kept |
| Devices.ResourceManager.GetAvailableDevice | resourcemanager/resourcemanager.go:466-476 | the first configured device of this name, or none |
| Devices.ResourceManager.AllocateDevice | resourcemanager/resourcemanager.go:192-227 | refused iff the configuration is broken, no device has the name, or the first of it has a limit that other holders have reached; otherwise the instance joins the end of the queue unless it holds the device |
| Devices.RefusalIsExact | resourcemanager/resourcemanager.go:192-227 | which of these errors it is, for every table |
| Devices.ResourceManager.ReleaseDevice | resourcemanager/resourcemanager.go:230-248 | succeeds iff the instance holds the device; only its entry goes, and the device with its last holder |
| Devices.ResourceManager.ReleaseDevices | resourcemanager/resourcemanager.go:251-268 | for any visiting order the instance leaves every queue and emptied devices disappear |
| Devices.ResourceManager.ResetDevicesAllocation | resourcemanager/resourcemanager.go:271-275 | the table is empty |
| Devices.ResourceManager.AllocateDevices | launcher/launcher.go:697-715 | allocates the list in order and, on a refusal, rolls back and reports the refused device |
| Devices.RunIsGrant | launcher/launcher.go:697-715 | the sequential allocation succeeds iff the initial table admits every device by itself, and then equals granting all at once |
| Devices.ReleaseUndoesGrant | resourcemanager/resourcemanager.go:251-268 | releasing after granting any set of devices restores the table, key set and queue order included |
| Devices.ReleaseIsComplete | resourcemanager/resourcemanager.go:251-268 | after a release the instance holds nothing |
| Devices.AllOrNothing | launcher/launcher.go:697-715 | all devices or none: success iff admissible; a refusal restores the table iff the instance held nothing before; the refused device is truly refused by the initial table |
| Preparation.PreparePartition | launcher/launcher.go:444-467 | prepared and failed instances together are the requested ones, and their numbers add up |
| Preparation.PrepareDisjoint | launcher/launcher.go:444-467 | no ID is both prepared and failed, and none occurs twice |
| Preparation.HoldersExact | launcher/launcher.go:449-467 | at the end the holders of each device are the demanding prepared instances, in order, without duplicates or empty entries, and within the shared count |
| Preparation.HoldersAreListed | launcher/launcher.go:449-467 | an instance holds a device iff it is prepared and the configuration of its service lists the device |
| Preparation.NewcomerHoldsNothing | launcher/launcher.go:449-467 | when the turn of an instance comes, the table holds nothing for it, so a refusal restores the table |
| Preparation.NoPriorityInversion | launcher/launcher.go:444-467 | an instance refused for lack of a share leaves the device with exactly as many distinct holders as shares, all prepared and none of lower priority, for any order of ties |
| Preparation.AllPreparedIffFits | launcher/launcher.go:444-467 | everything is prepared iff all services are usable and no device is oversubscribed, a condition that does not mention the order |
| Preparation.FitsInEveryOrder | resourcemanager/resourcemanager.go:192-227 | if all demands fit in one order of the instances they fit in every order |
| StorageMatching.GetRunningInstances | launcher/launcher.go:1092-1143 | the loop over the shrinking list of stored instances computes the matching function, leaves its rows in the storage and makes its number of writes |
| StorageMatching.RemoveOldInstances | launcher/launcher.go:1134-1140 | exactly the unmatched rows are removed |
| StorageMatching.StorageMatched | launcher/launcher.go:1092-1143 | the stored set ends up as exactly the returned list; the i-th result answers the i-th desired instance and keeps the ID of a row iff fewer desired instances of its ident come before it than there are rows of it, and then a row of its own ident; a row is removed only if its desired ident is served by stored rows |
| StorageMatching.StoredIDsKept | launcher/launcher.go:1092-1143 | a result has a row of its own ident iff one was left when its turn came, whatever the other idents are |
| StorageMatching.OwnIDKept | launcher/launcher.go:1092-1143 | the only row of an ident gives its ID to the first desired instance of that ident |
| StorageMatching.KeptCount | launcher/launcher.go:1092-1143 | of every ident as many results keep a stored ID as there are rows or desired instances, whichever is fewer |
| StorageMatching.MatchingPartition | launcher/launcher.go:1092-1143 | at every point of the loop matched and unmatched instances together are exactly the rows, with distinct IDs |
| StorageMatching.MatchingIsIdempotent | launcher/launcher.go:1092-1143 | if there are as many desired instances as rows, of no ident more than rows, and each equals every row of its ident, nothing is written and the result is a permutation of the stored list; repeated idents included |
| StorageMatching.QuietIff | launcher/launcher.go:1092-1143 | a request writes nothing for any order in which the storage lists its rows iff this condition holds |
| StorageMatching.AnsweredIsSettled | launcher/launcher.go:1092-1143 | the rows that answered a request meet it for every permutation of that request, if what is desired of one ident is the same |
| StorageMatching.RepeatedIdentRewrites | launcher/launcher.go:1092-1143 | two different instances of one ident are stored as desired, and yet repeating the request may write |
| LauncherInvariant.DifferencePartition | launcher/launcher.go:469-493 | for every iteration order the same partition: current = kept + stopped, prepared = kept + started; the starts keep non-increasing priority |
| LauncherInvariant.KeptIsExact | launcher/launcher.go:469-493 | a running instance is kept iff it is active, runs the version its service now has and its info differs at most in the priority; the new priority is taken over and nothing else of it changes |
| LauncherInvariant.CalculatedPartition | launcher/launcher.go:444-494 | after a calculation the kept, the starting and the failed instances partition the rows |
| LauncherInvariant.CalculatedFine | launcher/launcher.go:444-494 | every kept instance is active and runs what its row asks for, with the version of the present service |
| LauncherInvariant.StepKeepsInv | launcher/launcher.go:374-624 | every step of the launcher, its actions, the runner and the timer keeps the invariant that ties running, failed and waiting instances to the rows |
| LauncherView.BatchKeepsUp | launcher/launcher.go:374-400 | after a batch the receiver knows an instance's status whenever it knew it before or the batch changed it, with repeated entries for one instance |
| LauncherView.ReportAll | launcher/launcher.go:819-833 | the closing message of a request shows every running and every failed instance exactly, and nothing else |
| LauncherView.StepKeepsView | launcher/launcher.go:374-430 | replaying the messages stays in line with the launcher's state over every step |
| LauncherTheorems.Convergence | launcher/launcher.go:402-494 | after any run, whatever is requested, whatever actions fail and however they interleave: running and failed instances are disjoint and together exactly the stored ones, and these answer the request one by one, repeated idents included; all running ones have service and config, no state is empty |
| LauncherTheorems.NoActionMissesItsInstance | launcher/launcher.go:542-567 | in every reachable state a stop action finds its instance and a start action never meets "already started" |
| LauncherTheorems.AllStopFirst | launcher/launcher.go:296-309 | after the start-up has loaded the storage and after a forced request nothing runs any more when the calculation begins, whatever happens in between; at start-up every stored instance is stopped |
| LauncherTheorems.StatusesReported | launcher/launcher.go:374-430 | if the stored idents are distinct: replaying all sent messages gives, after every completed operation, the status of every failed instance, of every running one until the first environment restart, and its state after restarts too, unless a batch arrived in the middle of one or an instance was visited twice |
| LauncherTheorems.IdentsAsRequested | launcher/launcher.go:402-494 | after a request the stored idents are distinct iff the requested ones are |
| SharedIdents.ReportedIff | launcher/launcher.go:374-430 | for any idents: the receiver has an entry for exactly the stored idents, until the first environment restart each entry is the present status of an instance of its ident, and so all statuses are known iff instances of one ident have equal ones |
| RestartReports.RestartMisreportsIff | launcher/envvars.go:161-206 | if the stored idents are distinct: after an environment update the receiver has a wrong state of an instance iff its final state is the one saved at its last visit, if it was visited, and the last batch that changed it (or what was believed before, if none did) left another state; if the state was known before, only for a restarted instance; for every interleaving |
| RestartReports.RestartsAreExact | launcher/envvars.go:161-206 | in every interleaving an update of the environments restarts exactly the instances whose list differs from their selection, keeps the key set, and leaves each with its selection unless its last start failed before the spec was rebuilt |
| RestartReports.RacedRestartMisreports | launcher/envvars.go:174-205 | a run with one batch from any idle state with a failed, outdated instance that ends with the receiver believing it active |
| RestartReports.RevisitedRestartMisreports | launcher/envvars.go:169-205 | a run without a batch, from any idle state with an active, outdated instance, whose second visit makes the receiver keep believing it active after it failed |
| StartRuns.AllInstancesRun | launcher/launcher.go:402-430 | from an initial state whose stored list has usable services and enough devices, a run without batches leads to an idle state in which exactly this list runs, in any given state |
| MisreportRuns.MisreportsAreReachable | launcher/envvars.go:161-206 | both wrong beliefs are reached from an initial state, the second by steps without any batch |
| MisreportRuns.SharedIdentMisreports | launcher/launcher.go:374-400 | from an initial state with two rows of one ident a run without restarts ends with the receiver believing an active instance failed |
| StartStatuses.AnswerIsOvertaken | launcher/launcher.go:740-789 | over any run, in a start as in a restart: an instance ends with the answer of the runner if no batch told about it meanwhile, and otherwise with the last status told that changed its state |
| StartStatuses.FailureOverwrites | launcher/launcher.go:607-624 | a start that fails leaves the failed state and its error whatever was told meanwhile, with the exit code of the last status told that changed the state |
| LauncherTheorems.RequestIsIdempotent | launcher/launcher.go:402-494 | requesting what is stored, after a request or after the start-up, writes nothing and stops and starts nothing, for every tie-breaking, storage order and choice of new IDs |
| LauncherTheorems.RepetitionIsSettled | launcher/launcher.go:402-494 | after any run every permutation of the last request is what is stored, if what it asks for of one ident is the same |
| Launcher.RuntimeInstance.GetCloudStatus | launcher/instance.go:50-69 | the reported status: version of the service if there is one, error only in the failed state |
| Launcher.RuntimeInstance.SetRunStatus | launcher/instance.go:71-81 | the status is overwritten as a whole |
| Launcher.RuntimeInstance.InstanceFailed | launcher/instance.go:83-88 | the instance is failed with this error, and keeps its exit code |
| Launcher.Launcher.UpdateInstanceStatus | launcher/launcher.go:380-392 | a known instance takes the status iff its state differs, and exactly then is it reported |
| Launcher.Launcher.UpdateInstancesStatuses | launcher/launcher.go:374-400 | the heap after a batch is the batch folded over the old instances; at most one message, with the changed ones and never empty, and none during a run |
| Launcher.Launcher.CacheCurrentServices | launcher/service.go:52-91 | exactly the services of the list are recorded; one is usable iff it is found, configured, in time, with a good image and valid; of the errors exactly that of the first failing check is recorded |
| ServiceChecks.CachedAreRecorded | launcher/service.go:52-91 | the same of the recorded map, for every provider |
| ServiceChecks.ErrorIsUnique | launcher/service.go:52-91 | a failing answer has one error and a passing one none |
| ServiceChecks.AllAreSettled | launcher/launcher.go:444-467 | for any order: an instance is prepared, and then its answer passes all checks, or it failed, with the error of the first failing check, or for lack of a device if all passed |
| ServiceChecks.RefusedIffSwept | launcher/launcher.go:1145-1161 | a found and configured service is refused for the timeout when it is cached iff at that time its running instances that have not failed for it are swept |
| ServiceChecks.SweepIsExact | launcher/launcher.go:1145-1197 | a sweep fails exactly the instances with a time to live that is over and no timeout failure yet, keeps their exit code, leaves all others alone and reports exactly what it changed |
| ServiceChecks.SweptOnce | launcher/launcher.go:1145-1161 | what was swept is never swept again, at whatever times |
| Launcher.Launcher.PrepareInstance | launcher/launcher.go:451-466 | service lookup, its error, or the outcome of the device allocation |
| Launcher.Launcher.PrepareInstances | launcher/launcher.go:444-467 | the loop computes the preparation function: prepared list, error map and allocation table |
| Launcher.Launcher.Difference | launcher/launcher.go:469-493 | the loop with in-place removals computes the partition, for any order of the map |
| Launcher.Launcher.CalculateInstances | launcher/launcher.go:444-494 | for some order by descending priority the launcher ends in the calculated state |
| Launcher.Launcher.BeginRun | launcher/launcher.go:402-420 | refused without effect while a run is in progress; otherwise what starts has an answer that passes all checks, and every instance whose answer fails one is failed with its error |
| Launcher.Launcher.SendRunInstancesStatuses | launcher/launcher.go:819-833 | one message with every running and every failed instance once, and the run is closed |
| Launcher.Launcher.StopInstances | launcher/launcher.go:496-567 | exactly the given instances leave the map |
| Launcher.Launcher.RegisterStart | launcher/launcher.go:740-754 | an instance is registered with an empty status iff its ID is free |
| Launcher.Launcher.StartInstance | launcher/launcher.go:607-789 | a start registers its ID and leaves other entries alone; it ends with the answer of the runner, or failed with its error, and with the selected list if the spec was rebuilt |
| Launcher.Launcher.GetOfflineTimeoutInstances | launcher/launcher.go:1145-1161 | exactly the instances that have a time to live, that is over, and that are not failed for it yet |
| Launcher.Launcher.SetOfflineInstancesStatus | launcher/launcher.go:1163-1177 | exactly the stopped instances are put back as failed and reported in one message |
| Launcher.Launcher.UpdateOfflineTimeouts | launcher/launcher.go:1179-1197 | online: only the time moves; offline: an instance without a time to live or within it is unchanged, one whose time is over fails for it unless it has already, and exactly the changed ones are reported |
| Launcher.Launcher.StopCurrentInstances | launcher/launcher.go:835-847 | no instance is left |
| Launcher.Launcher.RestartInstance | launcher/envvars.go:174-184 | a stop and a start action put the same object back, with the answer of the runner or the error, and with the selected list if the spec was rebuilt |
| Launcher.Launcher.VisitInstances | launcher/envvars.go:169-184 | for every sequence of visits, repeated ones included, map, saved states and restarts are those of the visits folded over the old instances |
| Launcher.Launcher.ReportChanged | launcher/envvars.go:186-205 | one message with exactly the restarted instances whose state is not the saved one, each once, or no message |
| Launcher.Launcher.UpdateInstancesEnvVars | launcher/envvars.go:161-206 | expiry, visits and report of an environment update on the heap: list, instances, restarts and message are those of the folded visits |
| Launcher.Launcher.OverrideEnvVars | launcher/launcher.go:312-323 | after a request every instance carries exactly the texts of the unexpired variables under the filters that fit it, in order, unless all its starts failed before the spec was rebuilt |
| Launcher.Launcher.RunListed | launcher/launcher.go:402-430 | a whole run ends with running and failed instances disjoint and together exactly the given ones, no state empty; what runs has an answer that passes all checks, what failed has the error of the first failing check or no device |
| Launcher.Launcher.RunInstances | launcher/launcher.go:296-309 | after a request the stored, running and failed instances are what was asked for, one by one; what runs has an answer that passes all checks; after a forced one every running object is new |
| Launcher.SortByPriority | launcher/launcher.go:447 | a permutation in non-increasing priority, ties in any order |
| ActionHandler.Handler.Execute | vendor/github.com/aosedge/aos_common/utils/action/action.go:66-86 | an action starts at once iff its ID is not in work and the limit is not reached, otherwise it queues last |
| ActionHandler.Handler.ProcessEnd | vendor/github.com/aosedge/aos_common/utils/action/action.go:113-145 | the ended action makes room for the first waiting one whose ID is free |
| ActionHandler.SameIdInOrder | vendor/github.com/aosedge/aos_common/utils/action/action.go:66-145 | over any run the actions of one ID start in submission order and never overlap, the limit holds, and while a place is free an action waits only behind one of its own ID |
| Traffic.TrafficData.ResetTrafficData | networkmanager/traffic.go:582-586 | the current value becomes the initial one and nothing is subtracted |
| Traffic.TrafficMonitor.DeleteRule | networkmanager/traffic.go:302-320 | one deletion removes the first such rule, or reports that there is none |
| Traffic.TrafficMonitor.DeleteAllRules | networkmanager/traffic.go:302-320 | the loop ends, after as many deletions as there are such rules, with exactly these gone |
| Traffic.TrafficMonitor.SetChainState | networkmanager/traffic.go:268-300 | all rules of the old kind go and one of the new kind comes last |
| Traffic.TrafficMonitor.CheckTrafficLimit | networkmanager/traffic.go:558-580 | record and rules after the limit check |
| Traffic.TrafficMonitor.ProcessMonitored | networkmanager/traffic.go:407-442 | one chain of a tick: its record, its rules and its stored row move, nothing else does |
| Traffic.TrafficMonitor.ProcessTrafficMonitor | networkmanager/traffic.go:404-445 | a tick moves every chain once, in any order of the map, and stores every value |
| Traffic.TrafficMonitor.CreateTrafficChain | networkmanager/traffic.go:322-372 | fails without effect if the chain exists; otherwise the chain gets its rules, the skip rule only if networks are skipped, and is monitored from the stored value, or from 0 without one, unless reading that value failed |
| Traffic.TrafficMonitor.DeleteTrafficChain | networkmanager/traffic.go:374-402 | what is stored is the current value of the record, whether or not a tick came before |
| Traffic.SamePeriodIsEquivalence | networkmanager/traffic.go:238-266 | being in the same period is an equivalence, for every known period |
| Traffic.OneFieldDecides | networkmanager/traffic.go:238-266 | changing one field of the time alone leaves the period iff the field is not finer than it |
| Traffic.PeriodsRefine | networkmanager/traffic.go:238-266 | the periods refine each other from minute to year, years decide the last, an unknown period is never the same |
| Traffic.PeriodIsDetermined | networkmanager/traffic.go:238-266 | these laws leave no other relation: whatever meets them is what the monitor compares |
| Traffic.TickAfterChange | networkmanager/traffic.go:407-430 | when one field has changed since the last tick the value goes on if the field is finer than the period and is 0 otherwise, for every period and field |
| Traffic.UnknownPeriodStartsOver | networkmanager/traffic.go:238-266 | with an unknown period every tick reads 0 |
| TrafficRuns.ReadAccounts | networkmanager/traffic.go:407-430 | the value read is never below what is subtracted, and the accounted value is the reference sum |
| TrafficRuns.RunKeeps | networkmanager/traffic.go:322-445 | the accounting invariant holds over packets, ticks, rule replacements and restarts in any order |
| TrafficRuns.TrafficIsConserved | networkmanager/traffic.go:404-445 | after every tick of every run the value is the observed growth since the last period reset, it is stored, the chain is disabled iff a set limit is exceeded, and a packet meets one address rule, dropping iff disabled, or none if it is of a skipped network |
| TrafficRuns.CleanRestartConserves | networkmanager/traffic.go:374-384 | in every reachable state a clean restart keeps the value iff a tick ran before or the loaded value was 0; a crash always keeps it |
| TrafficRuns.CleanRestartLosesTraffic | networkmanager/traffic.go:374-384 | a chain created and deleted without a tick replaces any stored value by 0 |
| TrafficRuns.QuotaHolds | networkmanager/traffic.go:404-445 | with at most D bytes between reads, k restarts in a period never let the value pass the limit plus (k + 1) D |
| TrafficRuns.QuotaIsReached | networkmanager/traffic.go:404-445 | for every k a run that reaches this bound |
| Layers.LayerManager.AddOutdatedItem | vendor/github.com/aosedge/aos_common/spaceallocator/spaceallocator.go:480-497 | a new ID is appended, a known one is replaced in place |
| Layers.LayerManager.RestoreOutdatedItem | vendor/github.com/aosedge/aos_common/spaceallocator/spaceallocator.go:499-510 | exactly the first item of this ID goes |
| Layers.LayerManager.RemoveOutdatedItems | vendor/github.com/aosedge/aos_common/spaceallocator/spaceallocator.go:512-550 | succeeds iff the outdated items suffice; no layer that goes is younger than a cached one that stays, and no more go than needed, with rows and folders; only cached layers go and the remover never fails |
| Layers.EvictedAreOldest | vendor/github.com/aosedge/aos_common/spaceallocator/spaceallocator.go:512-550 | the first items of a sorted list are those of the cached layers with the smallest timestamps, with the sizes of these layers |
| Layers.LayerManager.AllocateSpace | vendor/github.com/aosedge/aos_common/spaceallocator/spaceallocator.go:180-192 | eviction on both levels keeps every layer in use and the coupling of flags and outdated list |
| Layers.LayerManager.SetLayerCached | layermanager/layermanager.go:354-371 | setting a flag, also to the value it has, moves the item into or out of the outdated list, so the coupling stays |
| Layers.LayerManager.RemoveLayer | layermanager/layermanager.go:410-427 | row and folder go together, or the layer is unknown |
| Layers.LayerManager.RemoveDamagedLayerFolders | layermanager/layermanager.go:447-496 | afterwards rows and folders are the same layers, those that had both |
| Layers.LayerManager.SetOutdatedLayers | layermanager/layermanager.go:429-445 | the outdated list is exactly the cached layers |
| Layers.LayerManager.RemoveOutdatedLayers | layermanager/layermanager.go:390-408 | a layer stays iff it is in use or its time to live is not over; the others go with their folders, and the coupling stays |
| Layers.LayerManager.constructor | layermanager/layermanager.go:114-174 | from any table and any folders start-up reaches a coupled state with matching folders, and keeps exactly the layers that have a folder and are in use or in time |
| Layers.LayerManager.UpdateCachedLayers | layermanager/layermanager.go:234-263 | every stored layer is in use iff desired; what remains is the desired list without one occurrence of each stored digest |
| Layers.LayerManager.InstallLayer | layermanager/layermanager.go:265-352 | a new layer gets row and folder or neither; a stored one fails and loses its folder |
| Layers.LayerManager.InstallLayers | layermanager/layermanager.go:224-232 | no layer in use is lost; success iff all digests are new and distinct, when the packages are good |
| Layers.LayerManager.ProcessDesiredLayers | layermanager/layermanager.go:203-218 | after a success the layers in use are exactly the desired ones; whatever fails, no desired layer in use is lost; folders stay matched iff no digest is desired twice, when the packages are good |
| Layers.RemainingIsNew | layermanager/layermanager.go:234-263 | what remains to install is distinct and not stored iff nothing is desired twice |
| Layers.EvictionKeepsCoupled | vendor/github.com/aosedge/aos_common/spaceallocator/spaceallocator.go:512-550 | removing a prefix of the outdated list with its rows keeps list and cached flags in line |
| Archivator.Archivator.AddLog | logging/archivator.go:69-96 | refused iff all parts are closed; otherwise the message joins the open part, which closes iff it exceeds the limit |
| Archivator.Archivator.SendLog | logging/archivator.go:98-147 | the pushed parts are the closed ones and a non-empty open one, or one empty part |
| Archivator.Archivator.ProcessJournal | logging/logging.go:248-287 | the archivator holds the split of the longest acceptable prefix of the rows before the end, the till time or a failure; failing iff that prefix ends at a failed read |
| Archivator.MessagesUpTo | logging/logging.go:248-287 | the messages are the texts of the rows before the first that is no entry or, with a till time, later than it |
| Archivator.Archivator.GetInstanceLog | logging/logging.go:230-245 | the whole log is pushed, or nothing if reading failed |
| Archivator.SplitKeepsBytes | logging/archivator.go:69-96 | closed parts and open part together are exactly the accepted bytes |
| Archivator.PartSizes | logging/archivator.go:80-93 | closed parts exceed the limit by at most one message, the open one does not |
| Archivator.AcceptedIsLongest | logging/archivator.go:69-72 | the accepted messages are the longest prefix before all parts are closed, and a cut falls on a part boundary |
| Archivator.GroupingIsUnique | logging/archivator.go:69-96 | any cut of the messages into just-full groups is the one the archivator makes |
| Archivator.GroupingExists | logging/archivator.go:69-96 | such a cut exists for all messages |
| Archivator.LogIsDelivered | logging/archivator.go:98-147 | parts are numbered 1 to n once each, carry exactly the accepted bytes, are within their sizes, number at most the maximum, and Empty is sent iff there is no byte |
| EnvVars.EnvOverrides.SetEnvVars | launcher/envvars.go:35-82 | every variable gets exactly one status: expired, storage error or none; the list is taken over as given |
| EnvVars.EnvOverrides.SetEnvVarsErr | launcher/envvars.go:84-102 | the storage error reaches exactly the variables without an error |
| EnvVars.EnvOverrides.GetInstanceEnvVars | launcher/envvars.go:104-116 | a text is listed iff an entry whose given fields are those of the instance has a variable with this name and value; in the order of the entries |
| EnvVars.FullFilterReaches | launcher/envvars.go:104-116 | an entry with a full filter reaches the instance of this ident and no other |
| EnvVars.MissingFieldMatches | launcher/envvars.go:104-116 | leaving out a field acts as if the own one of the instance was given, for each field |
| EnvVars.EntryAdds | launcher/envvars.go:104-116 | an added entry adds all its texts at the end or nothing, depending on its filter alone |
| EnvVars.ListedTexts | launcher/envvars.go:104-116 | the listed texts are exactly name, equals sign and value of the variables of fitting entries |
| EnvVars.EnvOverrides.RemoveOutdatedEnvVars | launcher/envvars.go:118-159 | exactly the variables whose time is over go, one without a time never; list and storage are untouched if none is over |
| EnvVars.ExpiryIsExact | launcher/envvars.go:118-159 | under every filter exactly the unexpired variables are left |
| EnvVars.SelectionAfterExpiry | launcher/envvars.go:104-159 | selecting after the expiry is filtering the earlier selection, in order |
| EnvVars.OverridesSettle | launcher/envvars.go:104-159 | an instance gets its unexpired variables, and a second cleaning at the same time changes no selection |
| EnvRestarts.VisitsSettle | launcher/envvars.go:161-206 | when every instance is visited, in any order and possibly repeatedly: exactly the outdated ones restart, key set and identities stay, and an instance is outdated afterwards iff it was before and all its starts failed before the spec was rebuilt |
| EnvRestarts.RestartedOnce | launcher/envvars.go:169-184 | if no start fails before the spec is rebuilt, no instance restarts twice, however often it is visited |
| EnvRestarts.SecondCheck | launcher/envvars.go:161-206 | a second update at the same time restarts exactly the instances that were outdated and whose starts all failed before the spec was rebuilt |
| EnvMerge.RuntimeSpec.MergeEnv | launcher/spec.go:210-225 | the nested loops compute the merge |
| EnvMerge.RuntimeSpec.BuildEnv | launcher/spec.go:538-602 | the final environment obeys default < AOS < image < resources < overrides, with distinct names in the order of their first appearance |
| EnvMerge.NameIsBeforeEquals | launcher/spec.go:198-208 | the name of a variable is what stands before its first equals sign, if there is one, without the white space around it |
| EnvMerge.EveryVariableHasAName | launcher/spec.go:198-208 | every string is of this form |
| EnvMerge.MergeRefinesOverride | launcher/spec.go:210-225 | from distinct names merging is map override, keeps names distinct and each at its first position |
| EnvMerge.MergeInTurn | launcher/spec.go:210-225 | merging a list and then another is merging their concatenation, in any environment |
| EnvMerge.SameNamesSameMap | launcher/spec.go:210-225 | names in order and last values determine the environment |
| EnvMerge.RepeatedNameEscapes | launcher/spec.go:210-225 | in any environment merging one variable is map override iff its name occurs at most once or its last variable is the new one already |
| Runner.Runner.BeginStart | runner/runner.go:126-138 | a start registers a channel of its own for its unit |
| Runner.Runner.EndStart | runner/runner.go:140-156 | the end of a start closes its own channel and clears the entry of its unit, or removes it after a failure |
| Runner.Runner.StopInstance | runner/runner.go:203-210 | the unit leaves monitoring, its channel stays open |
| Runner.Runner.ProcessChanges | runner/runner.go:257-290 | one send over its channel for every change of a starting unit, one report with its state, or inactive if it is gone, for every change of another monitored unit, both in order, and nothing else |
| Runner.AllAreSent | runner/runner.go:257-290 | the sends of a batch are those of its changes of starting units, in order |
| Runner.AllAreReported | runner/runner.go:257-290 | the reports of a batch are those of its changes of other monitored units, in order |
| Runner.ChannelsAreSafe | runner/runner.go:126-299 | over every interleaving no channel is closed twice, nothing is sent on a closed one, and a send reaches a call that starts this unit |
| Runner.MonitoredUnits | runner/runner.go:126-210 | a unit is monitored iff the last call or stop that concerns it is a begin or a successful end |
| Runner.StopDuringStartIsForgotten | runner/runner.go:140-156 | a stop during a start that succeeds leaves the unit monitored |
| ServiceIDs.RoundTrip | servicemanager/servicemanager.go:414-422 | printing and parsing returns the pair iff the version has no underscore, for every service ID; parsing a printed ID never fails |
| ServiceIDs.PrintedIsUnique | servicemanager/servicemanager.go:444-463 | among versions without underscore the printed ID determines the service |
| ServiceIDs.UnderscoresCollide | servicemanager/servicemanager.go:414-422 | two services with one cache ID, the first parsed as the second |
| ServiceIDs.ServiceManager.RemoveOutdatedService | servicemanager/servicemanager.go:414-442 | exactly the services of the parsed ID and version go, with their images |
| ServiceIDs.ServiceManager.EvictService | servicemanager/servicemanager.go:414-442 | an evicted service and no other goes iff its version has no underscore |
| ServiceCache.ServiceManager.SetOutdatedServices | servicemanager/servicemanager.go:155-164 | the outdated list names exactly the printed IDs of the cached services, each once |
| ServiceCache.ServiceManager.RemoveDamagedServiceFolders | servicemanager/servicemanager.go:558-568 | exactly the services without a folder go |
| ServiceCache.ServiceManager.RemoveOutdatedServices | servicemanager/servicemanager.go:398-412 | exactly the expired cached services go from the table, and their printed IDs from the outdated list |
| ServiceCache.ServiceManager.constructor | servicemanager/servicemanager.go:155-172 | from any table start-up keeps exactly what is neither damaged nor expired, and couples list and flags iff the condition of CoupledIff holds |
| ServiceCache.CoupledIff | servicemanager/servicemanager.go:155-172 | flags and outdated list agree after start-up iff of the cached services with one printed ID one had expired or one stays, and not both; shared IDs included |
| ServiceCache.CoupledIfDistinct | servicemanager/servicemanager.go:155-172 | if no printed ID is shared this says that every cached service without a folder had expired as well |
| ServiceCache.SharedIDUncouples | servicemanager/servicemanager.go:398-412 | two services printed alike, none damaged, for which it fails |
| ServiceCache.ServiceManager.SetServiceCached | servicemanager/servicemanager.go:444-463 | the flag of the service is written and its printed ID put on the list or taken off it |
| ServiceCache.ServiceManager.UpdateCachedServices | servicemanager/servicemanager.go:262-289 | every stored service is in use iff desired; what remains is the desired list without one occurrence of each stored service; the list stays right iff the restores are clean |
| ServiceCache.UpdateCoupledIff | servicemanager/servicemanager.go:262-289 | flags and list agree after the marking iff each restored ID that a service not desired shares is added again later |
| ServiceCache.PlainVersionsAreClean | servicemanager/servicemanager.go:262-289 | with versions without underscore it always is |
| ServiceCache.SharedIDUnlists | servicemanager/servicemanager.go:262-289 | two services printed alike, one desired, for which it fails |

## Left out

- Alerts, resource monitoring, the instance registrar, root file systems, mounts, CNI and systemd calls: each is an
  arbitrary success or failure of the step that makes it.
- Launcher.Launcher.RunInstances: a request of the launcher object is one call without status batches in between; the
  interleavings are those of the state machine, whose steps are the object's critical sections.
- Launcher.Launcher.RunListed: the same; a batch between the steps of a run is a step of the state machine only.
- Launcher.Launcher.StartInstance: start records and failed instances are values; the code shares pointers to them, but changes
  them only before they are registered.
- Launcher.Launcher.UpdateInstancesEnvVars: at the object a restart is one call and no batch arrives in between; these
  interleavings are in the state machine. The code iterates the map without its lock while the actions change it: an
  iteration is taken as visits of present instances, each an atomic read, and a failure that the Go runtime raises for
  concurrent map access is not modelled.
- Launcher.Launcher.RestartInstance: a batch between the stop and the start of a restart is a step of the state machine.
- Launcher.Launcher.VisitInstances: the same; batches between two visits are steps of the state machine.
- LauncherTheorems.StatusesReported: with shared idents SharedIdents.ReportedIff takes its place; which states the
  receiver has of instances with a shared ident after an environment restart is not stated.
- LauncherTheorems.NoActionMissesItsInstance: the state machine lets all actions of different IDs interleave, more than
  the action handler's limit admits.
- LauncherTheorems.RequestIsIdempotent: node configuration and service answers are the same for both requests; a
  change of the node configuration between allocation resets is not modelled.
- TrafficRuns.TrafficIsConserved: reading the counter and changing rules succeed on every tick, and a rule's counter
  stays below 2^64; failures of these calls and the cached listing of counters are not modelled.
- TrafficRuns.QuotaHolds: restarts that lose the stored value are excluded, as they do not conserve.
- Layers.LayerManager.AllocateSpace: the sizes that must be freed are parameters; only the layers' own items share the
  partition, while the code may also evict cached services there.
- Layers.LayerManager.RemoveOutdatedItems: items that other allocators have on the same partition are not modelled.
- Layers.LayerManager.InstallLayer: a package's descriptor is taken to carry the digest of its layer, so that the folder
  of a layer is named by it; storage and folder calls succeed, except that a digest is stored at most once.
- ServiceCache.ServiceManager.constructor: the table is keyed by service ID and version, as the services table is;
  storage and folder calls succeed. The accounting of the services' space is not modelled a second time.
- Archivator.LogIsDelivered: compression is taken as invertible; what is written to a stream is what it contains.
- The crash log's time window and the journal cursor.
- Runner.ChannelsAreSafe: a send that waits for room in the channel is delayed, not modelled; safety does not depend on it.
- Liveness and deadlocks: channels with a bound are written under locks in the launcher and the runner.
- ServiceIDs.ServiceManager.RemoveOutdatedService: storage and folder calls succeed.
- Network manager caches, protocol conversion, SQL, configuration loading and whiteout conversion.
- EnvMerge.RuntimeSpec.MergeEnv: strings are sequences of Unicode characters, not bytes.
