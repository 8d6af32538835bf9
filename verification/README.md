# Verified model of the AWS machine API provider

This project models the part of the OpenShift machine API provider for AWS that decides what happens to instances,
dedicated hosts, load balancer targets and tags, and proves what it keeps over whole runs.

## What is modelled

**The cloud.** `Cloud.World` is one possible behaviour of AWS: for each kind of request, a function from everything that was
asked and answered before to a reply. Replies may be errors, stale or inconsistent. `Cloud.Client` is the object all requests
go through; it appends each request with its answer to a log. A theorem over all worlds is a theorem over everything AWS
may do.

**Reconciling.** `Reconciler.Reconciler` is the record a reconcile step holds in memory, changed in place by `Create`, `Delete`,
`Update` and `Exists`, with the loops and early returns of the provider (`Launch`, `LoadBalancers`, `Lookup`, `TagCorrection`,
`InstanceOrder`, `ProviderSpec`, `Conditions`, `Images`, `Tags`). Each method is proved to make the requests and leave the record
that a function of the request history gives (`Steps`, `Launch`, `LoadBalancers`, `Lookup`); the theorems are about those functions.

**Runs.** `Runs` chains steps on the stored record: each one starts from what was last stored, and either of its two patches may
be rejected. Steps come in any order. `Actuator.Actuator` is the object whose methods perform such steps. `HostLedger`,
`LaunchAccounting`, `DeleteOrder`, `RunOrder`, `StepRegistration` and `StatusRuns` hold the theorems over steps and runs;
`StepAnswers`, `LaunchRequests` and `LoadBalancerResults` say request by request and field by field what a step asks, answers and records.

**Patching.** `MergePatch` has JSON documents, the diff the client library computes and the merge of RFC 7396; `MachinePatch` has the
scope and the API server that keeps the status apart, and ties the documents to the records of `Runs`.

**Caches.** `InstanceTypesCache` models threads as program counters around a read/write lock; `RegionCache` models client flows around
a mutex (`RegionRuns` and `RegionIsolation` have its runs). Both have one action per atomic step and a clock that moves forward by any amount between them. `InstanceTypes` has the paged
fetch. The classes in these modules are the caches as a single caller uses them.

## Where the code does less than one might expect

- A launch that returns a number of instances other than one neither returns nor releases the host allocated for it.
- When load balancer registration fails after a launch, neither the instance ID nor the host reaches the status, so the next create
  can launch again once lookups do not show the first instance.
- update clears the instance ID of an instance that lookups stop (or have not begun) to show once the waiting time is over; the next
  create then launches another one.
- All regions validated under one access key share the time of the last region listing, so a listing prompted by one region extends
  the validity of the others, even when it no longer contains them.
- create terminates stopped instances of a worker without deregistering them. It comes to that only when two lookups in a row
  disagree, since its first lookup already returns stopped instances.
- delete reports success and leaves the host in the status when its lookup finds nothing or the release is refused; its success
  tells the caller that nothing is left to do.
- Registration of a member with its target group is asked for again whenever a listing of that group cannot be read.
- The comment on `sortInstances` says newest to oldest; instances without a launch time come before all others, so this holds exactly
  for lists in which all instances have one or none has.

Each of the first six has a concrete run (`Counterexamples`, `RegionRuns`), the last two have a family of concrete inputs (`Registration`,
`InstanceOrder`), and each has the exact condition that covers it.

## Model

| member | source | states |
|---|---|---|
| HostLedger.EveryHostIsAccountedFor | pkg/actuators/machine/reconciler.go:100-208 | For every AWS behaviour and every run of create, update, delete and exists steps with successful patches: the number of times a host was allocated equals recorded in the status + released + lost, where lost is the sum of exactly four causes told from what AWS answered (a release not carried out while giving up a launch, a reservation that does not hold one instance, an instance that could not be attached, a relaunch overwriting a status that holds the host). |
| HostLedger.Ledger | pkg/actuators/machine/actuator.go:80-191 | The same conservation law from any starting state with any patches rejected: one more cause (a launch that was not stored) and one more source (a released host that the record still names) balance the equation. |
| HostLedger.StepLedger | pkg/actuators/machine/reconciler.go:41-216 | One step of any kind conserves each host: held before + allocated + stale equals held after + released + lost. |
| HostLedger.LoadBalancerFailureForgets | pkg/actuators/machine/reconciler.go:109-115 | After a successful launch the step reports a load balancer failure if and only if attaching the instance fails, and then the stored record is what it was, without an instance ID, although the host was allocated and not released; the record names the launched instance and host if the instance was attached and the patches went through, and takes over a host only then. |
| HostLedger.LosingMeans | pkg/actuators/machine/reconciler.go:100-125 | Every counted loss is one: the step allocated the host, did not release it and left the host that the record names as it was; an overwritten host makes room for the new one without being released. |
| StepEffects.CreateEffects | pkg/actuators/machine/reconciler.go:41-135 | Whatever AWS answers, for every host: a create step allocates it exactly when its checks let the launch go ahead and the launch allocates it; then it is released, returned by the launch, or lost to an odd reservation or a release not carried out; the step starts something exactly when its launch ends with a reservation of at least one instance, and reaches a launch only without a recorded instance ID. |
| StepEffects.CreateOutcome | pkg/actuators/machine/reconciler.go:100-134 | How the step goes on after its launch: it succeeds or reports a load balancer failure exactly when the launch succeeded, the latter exactly when attaching fails, and the record takes the instance and the host exactly on success. |
| StepEffects.DeleteEffects | pkg/actuators/machine/reconciler.go:138-216 | One delete step allocates and launches nothing, releases at most the recorded host, and the record in memory forgets the host exactly when AWS released it. |
| LaunchEffects.LaunchLedger | pkg/actuators/machine/instances.go:456-588 | For every reply of AWS and every host: allocated by this launch equals released + returned to the caller + kept although the launch ended with a reservation that does not hold one instance + kept because AWS did not carry out the release at its end. |
| LaunchEffects.FailedLaunchReleasesExactlyWhen | pkg/actuators/machine/instances.go:488-585 | After an allocation: no release attempt if and only if the last request was RunInstances answered with a reservation, else exactly one, for that host and as the last request; so the launch fails and keeps the host if and only if that reservation does not hold exactly one instance. |
| LaunchEffects.LaunchEnds | pkg/actuators/machine/instances.go:544-588 | A launch returns the unexpected reservation error if and only if its last request was RunInstances answered with a number of instances other than one; every other error if and only if the last request was not RunInstances answered with a reservation. |
| LaunchEffects.DynamicLaunchSucceeds | pkg/actuators/machine/instances.go:456-588 | Dynamic success means one allocation, no release, and the returned host is the placement host of the RunInstances request. |
| LaunchEffects.OtherPlacementLeavesHostsAlone | pkg/actuators/machine/dedicatedhosts.go:82-93 | Without dynamic allocation no host is allocated or released and none is returned. |
| Launch.Launch | pkg/actuators/machine/instances.go:350-588 | The imperative launch, with its early returns and release calls, makes the requests and gives the result of the launch function over the request history, and completes the market settings in place. |
| LaunchRequests.LaunchAsks | pkg/actuators/machine/instances.go:456-550 | RunInstances is asked for exactly when the preparation succeeds, a wanted host is allocated and the spec can be launched, and carries the zone, group, tenancy, affinity, host, market, price and reservation that the spec asks for on that host; a host is allocated only when wanted, in the zone of the spec or else the one just looked up; the host of the user is tagged as shared. |
| LaunchRequests.LaunchOnAsks | pkg/actuators/machine/instances.go:488-550 | The same from the placement on: the tag of the host of the user exactly when it brings one, and RunInstances exactly when placement, reservation and market are acceptable. |
| LaunchRequests.LaunchFailures | pkg/actuators/machine/instances.go:440-550 | Why a launch fails, check by check and in order, with the kind of fault in the placement or the market settings. |
| Launch.AllocateDedicatedHost | pkg/actuators/machine/dedicatedhosts.go:22-55 | One AllocateHosts request; the first host ID of the answer, or failure when it is an error or empty. |
| Launch.ReleaseDedicatedHost | pkg/actuators/machine/dedicatedhosts.go:58-79 | One ReleaseHosts request, successful exactly when it neither errs nor reports an unsuccessful item. |
| Counterexamples.UnexpectedReservationLosesHost | pkg/actuators/machine/instances.go:582-585 | A concrete launch whose reservation holds two instances: its host was allocated and no release was asked for. |
| LaunchAccounting.LaunchBound | pkg/actuators/machine/reconciler.go:44-64 | Over every run from an empty log: successful launches are at most 1 + update steps that clear the recorded ID + create steps that miss their launch, where both are told by guards (see the two rows on exactly when). |
| LaunchAccounting.Accounting | pkg/actuators/machine/reconciler.go:44-119 | The exact count: launches + adoptions by update equal the change of the recorded ID + clearings + unrecorded launches, over every run. |
| LaunchAccounting.StepAccounting | pkg/actuators/machine/reconciler.go:61-64 | One step launches at most once, and only a create step that starts without a recorded instance ID does. |
| LaunchAccounting.ClearsExactlyWhen | pkg/actuators/machine/reconciler.go:239-269 | For every step: the recorded ID is cleared if and only if it is an update with a recorded ID whose patch goes through on a valid machine, whose lookup succeeds, and which either finds nothing for an instance that is not one that may still appear, or gets to the status with a chosen instance reported without an ID. |
| LaunchAccounting.UnrecordedExactlyWhen | pkg/actuators/machine/reconciler.go:100-134 | For every step: something was launched and the stored record names no instance afterwards if and only if it is a create step whose launch ended with a reservation of at least one instance and the reservation held more than one, attaching failed, a patch was rejected, or the instance came without an ID. |
| LaunchAccounting.SuccessfulLaunchIsMissedExactlyWhen | pkg/actuators/machine/reconciler.go:100-119 | After a successful launch: no instance is recorded if and only if attaching it to its load balancers fails, a patch is rejected, or it has no ID. |
| LaunchAccounting.AtMostOneLaunch | pkg/actuators/machine/reconciler.go:41-64 | If after a launch every lookup by tags succeeds and shows an existing instance, every run launches at most one instance, whichever patches are rejected. |
| LaunchAccounting.TerminatedMachineIsLeftAlone | pkg/actuators/machine/reconciler.go:44-58 | Once the first instance found stays terminated, any further create and exists steps launch nothing, terminate nothing and keep the record. |
| Counterexamples.LoadBalancerFailureRelaunches | pkg/actuators/machine/reconciler.go:109-115 | A concrete run of two creates that launches two instances: registration fails after the first launch. |
| Counterexamples.ClearingRelaunches | pkg/actuators/machine/reconciler.go:254-265 | A concrete run create, update, create that launches two instances: update gave up on an instance not visible yet. |
| RunOrder.TerminationsAreOrdered | pkg/actuators/machine/reconciler.go:138-180 | Every terminate request anywhere in the log of any run names all found instances one by one and was made by a delete step after the private IP of each was deregistered (or reported invalid target or missing group) from every IP-type group of all configured network load balancers; or it was made by a create step and names every stopped instance, and no other, in the reply right before to a lookup by the tags of the machine. |
| RunOrder.ReleasesAreOrdered | pkg/actuators/machine/reconciler.go:193-208 | Every release request in any run was made by a delete step for the recorded host, which saw the first instance terminated and issued no terminate request, or by a create step for a host it had itself allocated before. |
| DeleteOrder.DeleteStepOrder | pkg/actuators/machine/reconciler.go:138-216 | The same for one delete step, and its record forgets the host exactly when a release in this step succeeded. |
| DeleteOrder.HostStaysExactlyWhen | pkg/actuators/machine/reconciler.go:138-216 | A recorded host outlives a delete step if and only if a patch is rejected, the lookup fails or finds nothing, the first instance is not terminated, or AWS does not carry out the release; and the step reports success all the same if and only if the lookup found nothing, the release was not carried out, or the instances were just now detached and told to terminate. |
| Counterexamples.EmptyLookupLeavesHost | pkg/actuators/machine/reconciler.go:153-156 | A concrete delete step that finds nothing, reports success and asks for no release, with the host still in the record. |
| Counterexamples.RefusedReleaseLeavesHost | pkg/actuators/machine/reconciler.go:201-205 | A concrete delete step that marks the machine terminated and reports success although the release failed and the record keeps the host. |
| DeleteOrder.DetachMeaning | pkg/actuators/machine/reconciler.go:433-459 | A nil error of the removal means that the address of every instance that has one is out of all IP-type groups that were listed for the named balancers. |
| DeleteOrder.DeregisterMeaning | pkg/actuators/machine/loadbalancers.go:92-138 | A nil error for one instance: the balancers were looked up, the groups of each listed, and the address removed from every listed IP-type group. |
| RunOrder.CreateStepOrder | pkg/actuators/machine/reconciler.go:41-135 | In a create step, terminate requests name every stopped instance, and no other, in the reply to the lookup by the tags of the machine right before, for a machine known to be no master; release requests name a host allocated earlier in the step. |
| RunOrder.CreateTerminatesExactlyWhen | pkg/actuators/machine/reconciler.go:44-83 | create terminates something if and only if its first lookup failed or found nothing, no ID is recorded, the machine is valid and no master, and the second lookup finds stopped instances. |
| RunOrder.SteadyLookupsTerminateNothing | pkg/actuators/machine/reconciler.go:44-83 | When the lookup by tags answers the same twice in a row, create terminates nothing. |
| Counterexamples.CreateTerminatesAttachedInstance | pkg/actuators/machine/instances.go:47-61 | A concrete create step that terminates a stopped instance without any deregistration before, after two lookups that disagree. |
| Reconciler.Reconciler.Create | pkg/actuators/machine/reconciler.go:41-135 | The imperative create on the record in memory makes the requests, fills the record and fails as the create step over the request history says, about which the ledger, launch and order lemmas are proved. |
| StepAnswers.PreflightMeaning | pkg/actuators/machine/reconciler.go:44-98 | Why create does not launch, check by check and in order, told from the lookups and the termination reply. |
| StepAnswers.CreateRecords | pkg/actuators/machine/reconciler.go:100-132 | What a create step records: nothing without a launch or when attaching fails, no instance after a failed launch, else ID, state and host of the launched instance and no address. |
| StepAnswers.CreatedMachineIsAwaited | pkg/actuators/machine/reconciler.go:125-132 | After a patched create, an exists or update within 20 seconds that finds nothing asks to be called again and keeps the record. |
| Reconciler.Reconciler.Delete | pkg/actuators/machine/reconciler.go:138-216 | The same for delete. |
| StepAnswers.DeleteAnswers | pkg/actuators/machine/reconciler.go:138-216 | What delete answers and records for each lookup and reply: the annotation becomes terminated, or the new state if AWS names exactly one, and nothing else but the host changes. |
| Reconciler.Reconciler.Update | pkg/actuators/machine/reconciler.go:219-329 | The same for update, including the requeue and clearing branch. |
| Reconciler.Reconciler.UpdateFrom | pkg/actuators/machine/reconciler.go:271-328 | The part of update that sorts what was found, attaches the newest running instance, corrects tags and stores the status, with its four failure points. |
| StepAnswers.UpdateOfFound | pkg/actuators/machine/reconciler.go:271-328 | What update answers and records for found instances: its three failures exactly under their guards, provider ID and state annotation from the chosen instance, and ID, state and the addresses of the last reply once the tags are right. |
| StepAnswers.UpdateOfMissing | pkg/actuators/machine/reconciler.go:239-269 | When nothing is found: a 20 second requeue exactly under the waiting guard, else a three minute one with ID, state and addresses cleared and a provider ID if no instance was ever recorded. |
| StepAnswers.UpdateStops | pkg/actuators/machine/reconciler.go:219-237 | Without a cluster label no request is made; a failed lookup ends the step. |
| StepAnswers.UpdateStoresWhatAWSSays | pkg/actuators/machine/machine_scope.go:176-207 | A patched update that gets to the status stores ID and state of the chosen instance and exactly the addresses that the last reply gave for it, or keeps the old ones if there was none. |
| StepAnswers.SeenMachineIsNotAwaited | pkg/actuators/machine/reconciler.go:245-248 | After an update that stored addresses, an exists or update that finds nothing never waits. |
| StepAnswers.UpdateCorrectsTags | pkg/actuators/machine/reconciler.go:289-320 | A tag request of an update step is for the chosen instance and, once applied, leaves its old tags overridden by the list built from machine name, cluster, machine tags and infrastructure tags. |
| StepAnswers.UpdateWithoutTagRequest | pkg/actuators/machine/reconciler.go:289-320 | An update that gets to the status without a tag request has found every tag of that list right. |
| Reconciler.Reconciler.Exists | pkg/actuators/machine/reconciler.go:332-368 | The same for exists: true, false, lookup failure or a 20 second requeue. |
| StepAnswers.ExistsOnReply | pkg/actuators/machine/reconciler.go:332-368 | Without a recorded ID: the answer is about the first instance in the reply that has an ID and an existing state, and true exactly when that one is not terminated; false when the reply shows none; an error without a reply. |
| StepAnswers.ExistsMeaning | pkg/actuators/machine/reconciler.go:332-368 | For any lookup: an error, the first one found not terminated, or, when nothing is found, a 20 second requeue exactly while an instance is recorded, no address was ever seen and the record is younger than 20 seconds. |
| StepAnswers.StepsAgree | pkg/actuators/machine/reconciler.go:41-216 | On the same lookup exists answers true exactly when create stops at an existing instance, and exactly when delete detaches and terminates or tries to; where create stops at a terminated one, exists answers false and delete marks the machine terminated. |
| Reconciler.Reconciler.GetMachineInstances | pkg/actuators/machine/reconciler.go:554-568 | The recorded instance by ID, and every instance with the tags of the machine when there is no ID or that lookup fails. |
| Reconciler.Reconciler.UpdateLoadBalancers | pkg/actuators/machine/reconciler.go:394-430 | Classic balancers first, then network ones even if the former failed; nil only if both succeed. |
| Reconciler.Reconciler.RemoveFromLoadBalancers | pkg/actuators/machine/reconciler.go:433-459 | Every instance is detached whatever happened to those before it. |
| Reconciler.Reconciler.SetProviderStatus | pkg/actuators/machine/machine_scope.go:176-209 | ID and state are taken over first; addresses and condition only when the addresses could be computed. |
| Reconciler.Reconciler.RemoveStoppedMachine | pkg/actuators/machine/instances.go:47-61 | Looks up stopped instances and terminates all of them in one request, if any. |
| Actuator.Actuator.Create | pkg/actuators/machine/actuator.go:80-104 | One create call takes the stored record and the log to the next state of the run model, on success and on error; a rejected patch hides the error of the reconciler. |
| Actuator.Actuator.Update | pkg/actuators/machine/actuator.go:126-164 | The same for update. |
| Actuator.Actuator.Delete | pkg/actuators/machine/actuator.go:167-191 | The same for delete. |
| Actuator.Actuator.Exists | pkg/actuators/machine/actuator.go:108-123 | An exists call never patches the stored record. |
| Lookup.AllowedMeaning | pkg/actuators/machine/utils.go:82-107 | A lookup finds exactly those instances of all reservations that have an ID and a state in the wanted set. |
| Lookup.AllowedInOrder | pkg/actuators/machine/utils.go:233-244 | The instances returned keep the order of the reply, across its reservations. |
| Lookup.TagLookupMeaning | pkg/actuators/machine/utils.go:209-246 | A lookup by tags asks for machine name and cluster, the own label before the upstream one, and fails exactly when AWS does. |
| Lookup.MachineLookupMeaning | pkg/actuators/machine/reconciler.go:554-568 | The recorded instance alone if AWS shows exactly one reservation with exactly one instance in an existing state; else exactly what a lookup by tags then finds. |
| Lookup.IDsMeaning | pkg/actuators/machine/utils.go:249-258 | A terminate request names every instance given, one by one. |
| Lookup.GetInstances | pkg/actuators/machine/utils.go:209-246 | The nested loops over reservations and instances gather that list in order; an error without a cluster label or when the request fails. |
| Lookup.GetInstanceByID | pkg/actuators/machine/utils.go:110-137 | An instance only from exactly one reservation with exactly one instance in an existing state. |
| Lookup.TerminateAll | pkg/actuators/machine/utils.go:249-274 | One request naming every given instance in order; the new states or an error as AWS replies. |
| InstanceTypesCache.CacheIsCorrect | pkg/actuators/machineset/ec2_instance_types.go:73-123 | For any number of threads under any interleaving from an empty cache: readers exclude the writer and writers each other, the cache holds what the last successful refresh of each ID returned, successful refreshes of one ID are at least 24 hours apart, and every answer other than a refresh error comes from a refresh finished less than 24 hours before the call began, or later. |
| InstanceTypesCache.StepKeepsInv | pkg/actuators/machineset/ec2_instance_types.go:73-123 | Every atomic step of every thread keeps the invariant behind it. |
| InstanceTypesCache.WritesAreExclusive | pkg/actuators/machineset/ec2_instance_types.go:105-123 | The cache changes only in the store step of the thread that holds the exclusive lock, with no reader, for a stale region, and no lastUpdate ever decreases. |
| InstanceTypesCache.NeverStuck | pkg/actuators/machineset/ec2_instance_types.go:73-97 | With a lock that keeps new readers out while a writer waits: as long as a call is under way, some thread can take its next step, so giving up the read lock to take the write lock cannot deadlock. |
| InstanceTypesCache.CallTakesFewSteps | pkg/actuators/machineset/ec2_instance_types.go:73-123 | Under any interleaving a call never goes round: it is over after at most twelve steps of its own. |
| InstanceTypesCache.Cache.GetInstanceType | pkg/actuators/machineset/ec2_instance_types.go:73-97 | One call without interference fetches exactly when the region is stale, fails exactly when that fetch fails, and answers from data fresh at its start. |
| InstanceTypesCache.Cache.Refresh | pkg/actuators/machineset/ec2_instance_types.go:105-123 | A fresh region or a failed fetch leaves the cache as it was; else only that region is replaced. |
| InstanceTypes.FetchEC2InstanceTypes | pkg/actuators/machineset/ec2_instance_types.go:126-164 | For every finite chain of pages: terminates, makes one request per page with the token of the page before, and returns the last-writer-wins union of all transformed entries, or an error when it is empty; when a page fails, the error and nothing else. |
| InstanceTypes.EntriesJoin | pkg/actuators/machineset/ec2_instance_types.go:136-157 | Entries arrive page after page. |
| InstanceTypes.LastNamedIsLast | pkg/actuators/machineset/ec2_instance_types.go:148 | The entry that wins is the one at the last position with its name. |
| InstanceTypes.GetGpuCount | pkg/actuators/machineset/ec2_instance_types.go:190-198 | The 64-bit sum of the counts present, equal to the true sum whenever that fits in an int64. |
| InstanceTypes.GpuSumJoins | pkg/actuators/machineset/ec2_instance_types.go:190-198 | The sum adds each count present and nothing for one absent. |
| InstanceTypes.TransformInstanceType | pkg/actuators/machineset/ec2_instance_types.go:167-187 | Memory, CPU and GPU counts are those reported and 0 when absent, the GPU count being the sum whenever it fits in 64 bits; the architecture is arm64 if and only if the first one listed is, else amd64. |
| RegionCache.RegionCacheIsCorrect | pkg/client/client.go:293-430 | For any interleaving of client flows: successful DescribeRegions calls under one access key are at least 30 minutes apart, the cache holds for each key what its last successful call returned, and every region marked valid under a key passed validation on output fetched under that key. |
| RegionRuns.AcceptedClientsPassed | pkg/client/client.go:389-430 | In every run, a client that is accepted without its region being known to the SDK has a region that passed validation on an answer fetched under its own key. |
| RegionCache.StepKeepsInv | pkg/client/client.go:389-430 | Every step of every flow keeps the invariant behind it. |
| RegionIsolation.KeysNeverMatterToEachOther | pkg/client/client.go:293-430 | For every run and every access key: removing all clients with other keys from the run leaves a possible run that ends with exactly the same cache entry, client outcomes, calls to AWS and marks for that key. |
| RegionCache.Cache.GetCachedDescribeRegions | pkg/client/client.go:293-326 | Asks AWS exactly when there is no recent answer, in the default region; the region of the session is always restored; a failure leaves the cache unchanged. |
| RegionCache.Cache.IsRegionValidated | pkg/client/client.go:328-344 | True exactly for a marked region while the shared time of the key is recent; an error only without credentials. |
| RegionCache.Cache.SetRegionValidated | pkg/client/client.go:346-362 | Adds one region and sets the time only if there was none. |
| RegionCache.ValidateRegion | pkg/client/client.go:367-384 | Succeeds exactly when the first entry with that name exists and is not one to be opted in; nil entries are skipped. |
| RegionCache.ListedMeaning | pkg/client/client.go:367-373 | The first entry with the name, nil entries aside, is the one looked at. |
| RegionCache.ValidationOutlivesExactlyWhen | pkg/client/client.go:322-324 | In every run, a region whose mark is at least 30 minutes old still counts as validated if and only if an answer for its key came in after the mark and is less than 30 minutes old, whichever region it was asked for. |
| RegionRuns.RefreshExtendsOtherRegions | pkg/client/client.go:293-430 | A concrete run of three clients from an empty cache: a region is accepted without a request an hour after its mark, although the last listing, which another region asked for, no longer contains it. |
| Tags.TagListMeaning | pkg/actuators/machine/instances.go:591-608 | Keys are unique; the cluster key maps to owned and Name to the machine name; any other unreserved key takes its first machine value, else its first infrastructure value; no other key with the cluster prefix survives. |
| Tags.TagListInLetters | pkg/actuators/machine/instances.go:591-608 | The same with the literal keys and values: Name, kubernetes.io/cluster/ with the cluster ID, and owned. |
| Tags.TagListOrder | pkg/actuators/machine/instances.go:591-625 | Unreserved entries keep the order of their first occurrence in the merged list. |
| Tags.BuildTagList | pkg/actuators/machine/instances.go:591-625 | The loops that merge, filter and append build the list described above. |
| Tags.RemoveDuplicatedTags | pkg/actuators/machine/instances.go:32-44 | The loop with its map of seen keys keeps the first entry of each key. |
| Tags.DedupKeys | pkg/actuators/machine/instances.go:32-44 | Exactly one entry per key of the input. |
| Tags.DedupValue | pkg/actuators/machine/instances.go:32-44 | The entry kept for a key is the first one. |
| Tags.DedupOrder | pkg/actuators/machine/instances.go:32-44 | First occurrences keep their order. |
| TagCorrection.CorrectionConverges | pkg/actuators/machine/utils.go:141-205 | For every map iteration order and despite repeated Name and cluster entries: applying the request gives the old tags overridden by the wanted ones, unrelated tags stay, and nothing is sent if and only if every wanted tag is already right. |
| TagCorrection.SecondCorrectionIsSilent | pkg/actuators/machine/utils.go:141-205 | A second correction after an applied first one sends nothing. |
| TagCorrection.OwnTagsAreRepeated | pkg/actuators/machine/utils.go:178-187 | A request names the Name tag once if it is not right and once more if it or the cluster tag is not. |
| TagCorrection.TagsToAdd | pkg/actuators/machine/utils.go:141-205 | The loops that delete from the map and set the two flags compute exactly the multiset of tags needed. |
| TagCorrection.InAnyOrder | pkg/actuators/machine/utils.go:170-176 | Iterating the map in an order the language leaves open lists every entry once. |
| Reconciler.Reconciler.CorrectExistingTags | pkg/actuators/machine/utils.go:141-205 | A CreateTags request exactly when that multiset is not empty. |
| InstanceOrder.NewestChoice | pkg/actuators/machine/reconciler.go:271-310 | For any ordered permutation of the found instances, the instance taken is a running one that no running one is newer than if any runs, else one that no other is newer than. |
| StepEffects.SettledIsChosen | pkg/actuators/machine/reconciler.go:271-310 | The instance that update takes from the sorted list is such a one. |
| InstanceOrder.NewestToOldestExactlyWhen | pkg/actuators/machine/instances.go:650-656 | Any permutation sorted by the comparator is from the newest to the oldest, missing launch times being oldest, if and only if every found instance has a launch time or none has. |
| InstanceOrder.MissingLaunchTimeComesFirst | pkg/actuators/machine/instances.go:637-656 | Two instances of which one has no launch time: it comes first whichever way round they are found, so the list is not from the newest to the oldest. |
| StepEffects.UpdateRecordsTheNewest | pkg/actuators/machine/reconciler.go:271-328 | update on found instances leaves the record alone when the infrastructure or a load balancer fails; otherwise it records the provider ID of a chosen instance (running with no newer running one, else with no newer one at all) and, unless the tag correction failed, its instance ID; the host is never touched. |
| InstanceOrder.SortedMeaning | pkg/actuators/machine/instances.go:627-656 | Sorting yields an ordered permutation of the same length. |
| InstanceOrder.LessIsStrictWeakOrder | pkg/actuators/machine/instances.go:637-648 | Asymmetric, transitive, and incomparability is transitive; a missing launch time comes first. |
| InstanceOrder.SortInstances | pkg/actuators/machine/instances.go:633-656 | In-place insertion by adjacent swaps arrives at the sorted list. |
| InstanceOrder.GetRunningFromInstances | pkg/actuators/machine/utils.go:56-64 | The running instances in list order. |
| Conditions.StatusIsThatOfTheLastCall | pkg/actuators/machine/utils.go:282-319 | Over any sequence of calls with the two constructors: kinds stay unique, every other condition is untouched, and status, reason and message are those of the last call although only reason and message are compared. |
| StatusRuns.StoredStatusIsTheLastSet | pkg/actuators/machine/reconciler.go:41-329 | Over every run from a list with unique kinds and a constructed creation entry, with any patches rejected: the stored list stays such, other kinds are untouched, and the creation entry has status, reason and message of the last step that set one, told from what AWS answered and from the patch, or nothing changed if none did. |
| StatusRuns.FailedLaunchIsStored | pkg/actuators/machine/reconciler.go:100-107 | A patched create step whose launch fails stores status False with the text of the error. |
| StatusRuns.SuccessIsStored | pkg/actuators/machine/reconciler.go:117-118 | A patched step that sets a condition without a failed launch stores status True, reason and message of a created machine. |
| Conditions.StatusFollowsExactlyWhen | pkg/actuators/machine/utils.go:304-319 | For an arbitrary list the status differs from the one asked for if and only if reason and message agreed while the status did not. |
| Conditions.TransitionTimeFollowsStatus | pkg/actuators/machine/utils.go:304-315 | The transition time moves exactly when the status does, to the time of the call. |
| Conditions.WithConditionAt | pkg/actuators/machine/utils.go:282-293 | One call touches one place: the first entry of its kind, or the end of the list. |
| Conditions.SetCondition | pkg/actuators/machine/utils.go:282-319 | The in-place update of the found entry, or the append, gives that list. |
| Conditions.FindCondition | pkg/actuators/machine/utils.go:295-302 | The first entry of the kind, none exactly when there is none. |
| Images.GetAMI | pkg/actuators/machine/instances.go:218-263 | The given ID wins; with filters and images, fails exactly when some creation date does not parse, else the first image in list order with the maximal creation time. |
| Images.GetBlockDeviceMappings | pkg/actuators/machine/instances.go:265-348 | When the image is found, fails exactly when two EBS specs have no device name; otherwise the in-order image of the EBS specs, the unnamed one on the root device. |
| Images.EBSSpecsJoin | pkg/actuators/machine/instances.go:290-295 | The EBS specs are taken in the order of the list. |
| Images.MapDevice | pkg/actuators/machine/instances.go:297-342 | IOPS only for io1, io2 and gp3 and only positive, throughput only for gp3 and only positive, key ID before key ARN. |
| ProviderSpec.ConstructInstancePlacement | pkg/actuators/machine/instances.go:720-797 | Fails exactly for an unknown tenancy, an unknown affinity, or a dedicated host affinity without any host ID; else each field is that of the spec: the zone unless the subnet is given by ID, group, partition and tenancy without host placement, and tenancy host, the affinity and the allocated or else the given host with it; nothing when every field would be empty. |
| ProviderSpec.ProviderConfig.GetInstanceMarketOptionsRequest | pkg/actuators/machine/instances.go:658-716 | Accepts exactly the listed combinations of market type, spot options and reservation; asks for a capacity block, for spot capacity with the maximal price of the spec, or for nothing; and although it completes the settings in place, asking again gives the same answer and changes nothing more. |
| Registration.NilErrorMeansMember | pkg/actuators/machine/loadbalancers.go:39-88 | A nil error of the whole call: each gathered group whose readable listings are right holds the instance, by its ID in a group of instances and by its private address in a group of addresses, whether or not any listing, its own included, can be read. |
| LoadBalancerResults.DeregistrationUndoesRegistration | pkg/actuators/machine/loadbalancers.go:39-138 | After a nil error of a registration and of a later deregistration of the same instance, a group of addresses gathered by both held its address after the first and no longer does after the second. |
| LoadBalancerResults.AttachResult | pkg/actuators/machine/reconciler.go:394-430 | Attaching succeeds exactly when no request failed; every classic balancer is asked first, in order, for the instance ID, and groups are asked only for the right kind of target. |
| LoadBalancerResults.DetachResult | pkg/actuators/machine/reconciler.go:433-459 | Detaching succeeds exactly when no request failed and takes out nothing but addresses of the given instances. |
| LoadBalancerResults.DeregisterResult | pkg/actuators/machine/loadbalancers.go:92-138 | For one instance: only its private address is taken out, only of gathered groups of addresses, and of each of them whatever happened to the ones before; an error exactly when a request failed, where a missing target or group is none. |
| LoadBalancerResults.LookupResult | pkg/actuators/machine/loadbalancers.go:140-173 | The groups gathered are exactly those that AWS listed for the balancers it gave for the names; an error exactly when a request failed. |
| LoadBalancerResults.NamesMeaning | pkg/actuators/machine/reconciler.go:398-409 | A balancer is used exactly under its own type. |
| LoadBalancerResults.NamesJoin | pkg/actuators/machine/reconciler.go:398-409 | Names keep the order of the spec. |
| Registration.EveryGroupIsAttempted | pkg/actuators/machine/loadbalancers.go:46-88 | Whatever AWS answers, every group is attempted despite earlier failures, and a nil error means that each was seen to hold the target. |
| Registration.RegistrationConverges | pkg/actuators/machine/loadbalancers.go:46-88 | One pass seen from one group whose readable listings are right, whatever other groups answer: nobody is removed, no error means it holds its target, and it gains a target at most once, never when it held it before, plus one repetition for each listing of it that failed. |
| Registration.SecondCallRegistersNothing | pkg/actuators/machine/loadbalancers.go:39-88 | A whole second call at any later time, its own lookups included: with a group that the first call gathered and that nothing was removed from since, it sends exactly one registration for each failed listing of that group and none otherwise. |
| Registration.SecondCallIsSilent | pkg/actuators/machine/loadbalancers.go:39-88 | If the groups the second call gathers were gathered by the first and their listings are right and readable, it fails only if its own lookups do and sends no registration at all. |
| Registration.CallRegistersAtMostOnce | pkg/actuators/machine/loadbalancers.go:39-88 | A whole call adds a target to a group at most once, never when it was a member, plus one repetition for each failed listing of that group. |
| Registration.CallRepeatsExactlyWhen | pkg/actuators/machine/loadbalancers.go:39-88 | A whole call asks for a registration that a group already has if and only if a listing of that group fails while the group holds the target, and exactly as often, for every group whose readable listings are right. |
| Registration.PassRepeats | pkg/actuators/machine/loadbalancers.go:46-88 | The same count for one pass over the gathered groups. |
| StepRegistration.CreateLeavesMember | pkg/actuators/machine/reconciler.go:100-116 | After a create step whose launched instance was attached, and until something is deregistered, every gathered group whose readable listings are right holds that instance. |
| StepRegistration.UpdateLeavesMember | pkg/actuators/machine/reconciler.go:271-310 | The same after an update step that gets the newest running instance attached, whatever its later parts do. |
| Registration.UnreadableListingRegistersTwice | pkg/actuators/machine/loadbalancers.go:65-81 | A group listed twice whose health cannot be read gains its target twice, so the repetition is real. |
| LoadBalancers.RegisterWithNetworkLoadBalancers | pkg/actuators/machine/loadbalancers.go:39-88 | The loop that counts errors and skips registered targets makes the requests and gives the result of the registration function. |
| LoadBalancers.RegisterWithClassicLoadBalancers | pkg/actuators/machine/loadbalancers.go:18-37 | Every named balancer is tried; nil only if all accept. |
| LoadBalancers.DeregisterNetworkLoadBalancers | pkg/actuators/machine/loadbalancers.go:92-138 | Nothing without a private IP; otherwise every IP-type group is asked, and invalid target and missing group count as success. |
| LoadBalancers.GatherLoadBalancerTargetGroups | pkg/actuators/machine/loadbalancers.go:140-173 | All groups of all balancers in order, or an error at the first failed listing. |
| LoadBalancers.GatherRegisteredTargets | pkg/actuators/machine/loadbalancers.go:175-190 | The set of target IDs in the health listing. |
| MachinePatch.MachineScope.PatchMachine | pkg/actuators/machine/machine_scope.go:99-135 | With no concurrent writer: success stores one merge of the whole patch although the first response resets the status in memory; that is exactly the reconciled metadata, spec and status if and only if a merge patch can express the change, and then the object in memory agrees; a failure stores nothing or the main part alone. |
| MachinePatch.MachineScope.NeedsResourcePatch | pkg/actuators/machine/machine_scope.go:138-149 | The main patch is judged needed exactly when something outside the status has changed. |
| MachinePatch.SkippingIsSending | pkg/actuators/machine/machine_scope.go:109-128 | When the diff is empty, sending the main patch would change neither the stored document nor the object in memory. |
| MachinePatch.TwoPartsMakeOnePatch | pkg/actuators/machine/machine_scope.go:109-134 | The status patch, computed on the object the first response overwrote, completes the main patch to one merge of the whole diff. |
| MachinePatch.PatchingPersistsTheRecord | pkg/actuators/machine/machine_scope.go:99-135 | For every way of writing a record as a machine object, patching documents stores what the run model says is persisted for each outcome of the two patches. |
| MergePatch.PatchReachesExactlyWhen | vendor/github.com/evanphx/json-patch/v5/merge.go:390-444 | Applying the computed diff to the original by the rules of section 2 of RFC 7396 gives the modified document if and only if no new or changed member carries a null at any depth of objects. |
| MergePatch.DiffIsEmptyExactlyWhenEqual | vendor/github.com/evanphx/json-patch/v5/merge.go:390-444 | The diff is empty exactly for equal documents. |
| MergePatch.NullIsLost | vendor/github.com/evanphx/json-patch/v5/merge.go:394-398 | A concrete change that a merge patch cannot make: a null member where there was none. |

## Left out

- LaunchAccounting.AtMostOneLaunch: assumes that lookups by tags succeed and show an existing instance after a launch; without that, LaunchAccounting.LaunchBound is what holds.
- HostLedger.EveryHostIsAccountedFor: counts hosts with a nonempty ID; a host that AWS reports with an empty ID is treated by the code as no host. An ID that AWS hands out twice is counted twice on both sides.
- InstanceTypes.FetchEC2InstanceTypes: type names are never nil; on a nil name the source crashes before its own check can report it.
- InstanceOrder.SortInstances: the library sort is modelled as insertion sort, which it is for lists of up to twelve; InstanceOrder.NewestChoice holds for whatever order a sort gives to equal launch times.
- Launch.Launch: the read-only requests that precede the host step (image, security groups, subnets, block devices, cluster ID) are one event that succeeds or fails; Images.GetAMI and Images.GetBlockDeviceMappings are modelled on their own. The instance type and tags of AllocateHosts and the parts of RunInstances that do not depend on host, market or reservation are not in the request.
- Images.GetBlockDeviceMappings: the EBS fields are those the mapping reads; the reply to DescribeImages is a parameter.
- InstanceTypesCache.NeverStuck: when a writer leaves, the Go lock first lets in the readers that waited; the model allows this order and others.
- InstanceTypesCache.Cache.GetInstanceType: one call without interference, with the replies and clock readings as parameters; interleavings are covered by the state machine beside it, whose fetch is one step with any result.
- Registration.SecondCallRegistersNothing: a deregistration between the two calls is excluded, since it changes what the second call has to do.
- RegionCache.Cache.GetCachedDescribeRegions: the credentials of a session are fixed; a key rotated between two calls of one flow is not modelled.
- Reconciler.Reconciler.SetProviderStatus: VPC and DHCP lookups and the extraction of addresses are one request for node addresses.
- Reconciler.Reconciler.UpdateFrom: instance type, region, zone and interruptible labels set from the instance are informational and left out, except the instance state annotation.
- MachinePatch.MachineScope.PatchMachine: resource versions and managed fields, which the API server changes by itself, are left out, as are concurrent writers.
- Crashes on absent data that AWS always sends (nil affinity, nil state of a launched instance, nil launch time when terminating, an IP-type group with an instance without private IP on registration, unknown target types) are outside the model: the types exclude them or an empty string stands in.
- Error texts: one opaque function gives the message stored in the failure condition.
- A step whose scope cannot be created (undecodable spec or status, no client) does nothing and is not a step of the model.
- The choice between create, update and delete made by the controller that calls the provider: steps come in any order.
- AWS sessions, credential files, CA bundles and endpoint resolution; the Kubernetes client, events, metrics and logging: input and output.
- JSON encoding of spec and status, user data and IP parsing: library behaviour.
- The spot termination handler and the machine set controller: polling and annotations that would only add easy members.
