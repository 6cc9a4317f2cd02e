# The lambda-gateway host pool, verified

The gateway runs Lambda functions in Docker containers. `HostPoolManager` keeps a deque of available hosts
and a map of leased hosts behind one mutex, allocates a port per host from `PortManager` (a `QueueSet` whose
returns travel through a bounded channel), and gets resources back when handles are dropped: a `HostLease`
sends its id, a `HostInstance` its container and then its port. This project models that protocol under every
interleaving of its tasks and proves what it keeps.

Two layers:

- **A step system** (`Protocol.dfy`). One label is one stretch of code between two points where another task
  can run. The pool lock stays held over the waits during which the source holds it: while a caller or the
  scaling task spawns, and while a returned host is checked with Docker. A run is any schedule of labels.
  The invariant `Invariant.Inv` is inductive, and the theorems are about every state, and every run, it allows.
- **Classes** (`QueueSet`, `PortManager`, `HostPoolManager`, `GatewayServer`) with the source's fields, methods and
  loops. Each stretch is a method whose postcondition is exactly one step of the protocol from the old state
  to the new. The operations (`LeaseHost`, the scaling loop, the drain, the retry, ...) run several
  stretches, let any schedule of other tasks run at each wait, and are proved to perform a run of the protocol
  as well as to meet their own contracts. Each returns its run, and predicates over runs (`LeaseRuns.LeaseAs`,
  `RetryRuns.RetryAs`, `WorkerRuns.ScaledAs`, `AllSettled`, `DrainedAs`, `CollectedAs`) say in which states its
  own stretches are taken and what result each of those states forces.

| file | what it holds |
|---|---|
| `Bags.dfy` | multisets: spans, values of a map, image under a function |
| `QueueSet.dfy`, `PortSpec.dfy`, `PortManager.dfy` | the queue, the allocator as a step system, the allocator as a class |
| `Protocol.dfy`, `Footprints.dfy` | the state, the labels and the transition of each; what each label leaves alone |
| `Conservation.dfy`, `Leasing.dfy`, `Capacity.dfy`, `Health.dfy` | the four parts of the invariant, each kept by every step |
| `Invariant.dfy` | the invariant, and what it says of a single state |
| `Runs.dfy`, `Draining.dfy`, `Extremes.dfy`, `Reaping.dfy` | whole runs, when the pool can drain, when channels overflow, the reaper's split |
| `Interference.dfy` | what a task can rely on while others run |
| `LeaseRuns.dfy`, `RetryRuns.dfy`, `WorkerRuns.dfy` | what a call, a leasing with retries, and the background operations are, told from the runs they perform |
| `Decisions.dfy` | the run of a call decides its result |
| `HostPoolManager.dfy`, `GatewayServer.dfy` | the manager and the gateway's use of it |

## What the proofs say about the code

These hold of the code as it is written, including where its comments or tests say otherwise.

- **A request dropped while its new host is being probed strands the entry for ever.** The comments promise that
  leases are released automatically (pool_manager.rs:121-124), but between the insert (:161) and
  `HostLease::new` (:202) there is no handle to drop. `Extremes.CancelledProbeStrands` gives the run, for every
  configuration; `Runs.StrandedForEver` shows that the entry outlives every run up to the final collection,
  counting against `max_instances`; `Draining.DrainsIffHandlesReturned` shows that the shutdown drain can reach zero
  if and only if no request was so dropped and no lease was dropped into a full channel. Without requests
  dropped while probing, an entry can be stranded if and only if `max_instances` and the range both exceed
  1000 (`Extremes.StrandingIff`).
- **Collected hosts are not cleaned by being dropped.** The comment at pool_manager.rs:426 says that dropping them will
  handle container cleanup, but step 3 has aborted the cleanup worker and with it closed the channel.
  `ShutdownAllContainers` and `Runs.NoCleanupAfterAbort` show that none of them is stopped that way; only the
  label-based sweep at :430 can stop them.
- **The channel bounds are not checked against the configuration.** `validate` bounds neither `max_instances` nor the
  size of the port range. `Extremes.PortLeakIff`: some run leaks a port if and only if the range has more than
  1000 ports. `Extremes.LeaseLossIff`: some run loses a lease to a full channel, workers running, if and only
  if both `max_instances` and the range exceed 1000. The default range, 8081 to 9000, is safe.
- **The port channel is never found closed** while the runtime is up: the port processor itself holds an `Arc` of the
  manager, and so a sender (port_manager.rs:40-43), and it is not among the aborted workers. The allocator on its
  own has a step that closes the channel, and the destructor an arm for it (allocated_port.rs:34-37); no label of
  the pool takes that step.
- **Looking only at the leased hosts is enough.** `lease_host` checks `max_instances` against `leased_hosts` alone; the
  total never exceeds `max_instances` all the same (`Capacity.CapacityStep`), mid-spawn and mid-return included.

## Assumptions

- Lease ids and container ids are fresh. They are named by counters.
- The configuration passed `validate` (main.rs:122-131); ports are at most 0xFFFF.
- Docker answers, health checks, clock readings and the schedule are arbitrary: they are parameters.
- Aborting a task takes effect at once. A request can be dropped at each of its waits.

## Model

Paths are relative to the repository's root.

| member | source | states |
|---|---|---|
| QueueSets.FirstInFirstOut | lambda-gateway/src/data_structure/queue_set.rs:38-89 | over any sequence of operations elements stay distinct, and initial contents followed by accepted pushes equal the removals followed by the current contents |
| QueueSets.QueueSet.PushBack | lambda-gateway/src/data_structure/queue_set.rs:38-45 | queue and set stay in agreement; the result is whether the element was absent from the queue, and only then is it appended |
| QueueSets.QueueSet.PopFront | lambda-gateway/src/data_structure/queue_set.rs:49-56 | the oldest element leaves both queue and set, or nothing happens if there is none |
| QueueSets.QueueSet.Contains | lambda-gateway/src/data_structure/queue_set.rs:71-73 | the answer read off the set is membership in the queue |
| QueueSets.QueueSet.Len | lambda-gateway/src/data_structure/queue_set.rs:76-78 | the length of the queue is the size of the set |
| QueueSets.QueueSet.IsEmpty | lambda-gateway/src/data_structure/queue_set.rs:81-83 | the queue is empty exactly when the set is |
| QueueSets.QueueSet.Clear | lambda-gateway/src/data_structure/queue_set.rs:86-89 | both collections are emptied, from any state |
| PortSpec.StepSound | lambda-gateway/src/port/port_manager.rs:49-86 | every allocator step, the closing of the channel included, keeps each port of the range in exactly one place, and keeps the stream of grants followed by pending ports |
| PortSpec.RunSound | lambda-gateway/src/port/port_manager.rs:49-86 | the same over any schedule of steps |
| PortSpec.HandNotQueued | lambda-gateway/src/port/port_manager.rs:75-82 | a received port is never already queued, so the duplicate branch is dead |
| PortSpec.ReleaseNeverFull | lambda-gateway/src/port/allocated_port.rs:27-33 | with at most 1000 ports a port destructor never finds the channel full |
| PortSpec.NeverLeaks | lambda-gateway/src/port/allocated_port.rs:27-33 | with at most 1000 ports no schedule leaks a port while the channel is open |
| PortSpec.RefinesFifo | lambda-gateway/src/port/port_manager.rs:49-86 | every step is a step of a queue with immediate returns, and tearing the processor down cuts off what is in transit; the only other extra behaviour is a refusal, exactly when all pending ports are in transit |
| PortSpec.ReuseDistance | lambda-gateway/src/port/port_manager.rs:10-14 | a returned port is granted again by exactly the (k+1)-th later allocation, k being the range size less the live and leaked ports when it was dropped |
| PortSpec.Sufficient | lambda-gateway/src/port/port_manager.rs:49-65 | with nothing leaked or in transit and fewer live ports than the range, the queue is not empty |
| PortSpec.DrainResult | lambda-gateway/src/port/port_manager.rs:68-86 | the processor left alone moves every pending port to the queue, in order |
| PortSpec.InterleavedResult | lambda-gateway/src/port/port_manager.rs:68-86 | whatever its users do between its steps, the processor ends with nothing in transit and, the channel still open, every accepted return queued once, in the order of sending |
| PortSpec.DrainedIsWhole | lambda-gateway/src/port/port_manager.rs:68-86 | after that, with no port live or leaked, the queue is a permutation of the range |
| PortManagers.PortManager.constructor | lambda-gateway/src/port/port_manager.rs:21-46 | the loop fills the queue with the range in order |
| PortManagers.PortManager.AllocatePort | lambda-gateway/src/port/port_manager.rs:49-65 | one Allocate step; the oldest free port, or a refusal that changes nothing |
| PortManagers.PortManager.DropAllocatedPort | lambda-gateway/src/port/allocated_port.rs:24-40 | one Release step: the port enters the channel, or is leaked if that is full or closed |
| PortManagers.PortManager.StopProcessor | lambda-gateway/src/port/allocated_port.rs:34-37 | one Close step: the receiver goes with what was in transit, and later returns find the channel closed |
| PortManagers.PortManager.ReceiveReturn | lambda-gateway/src/port/port_manager.rs:70 | one Receive step |
| PortManagers.PortManager.RequeueReturn | lambda-gateway/src/port/port_manager.rs:71-82 | one Requeue step; success is reported unless the port was queued already |
| PortManagers.PortManager.ProcessPortReturns | lambda-gateway/src/port/port_manager.rs:68-86 | the receive loop, its users allocating and dropping between its steps: it ends with channel and hand empty, in the state PortSpec.InterleavedResult is about |
| Conservation.HostsStay | lambda-gateway/src/pool/pool_manager.rs:137-206 | no label but a spawn, a passed probe or a host's destructor changes the bag of hosts that are available, leased, in the lock holder's hand or about to be destroyed |
| Conservation.PortLawStep | lambda-gateway/src/pool/pool_manager.rs:212-228 | every step keeps the live ports equal to those of the hosts, of the spawn in progress and of the destructors still to run |
| Conservation.ContainerLawStep | lambda-gateway/src/pool/host_instance.rs:42-53 | every step keeps each wrapped container in exactly one of a host, the cleanup channel, the worker's hand, stopped, or never to be stopped |
| Leasing.LeaseLawStep | lambda-gateway/src/pool/pool_manager.rs:154-206 | every step keeps exactly one owner per lease entry, the owner's claim equal to the entry's container and port, and every untested entry with a probing or cancelled caller |
| Leasing.ReceiveOwned | lambda-gateway/src/pool/pool_manager.rs:267-271 | receiving from the channel moves an id's one owner from the channel to the processor's hand |
| Capacity.CapacityStep | lambda-gateway/src/pool/pool_manager.rs:137-161 | every step keeps leased, available and in-hand hosts, with what the lock holder may still add, within the configured bounds |
| Capacity.ControlStep | lambda-gateway/src/pool/pool_manager.rs:399-436 | every step keeps the flags, the receivers and the lock holder consistent with the shutdown order |
| Capacity.LockExcludes | lambda-gateway/src/pool/pool_manager.rs:133-163 | while a task waits with the lock held, no other task's label changes the deque, the map or the lock |
| Health.HealthStep | lambda-gateway/src/pool/pool_manager.rs:158-199 | every step keeps untested available hosts made by the scaling task and never leased, and containers that failed a probe doomed or gone |
| Health.HostsApart | lambda-gateway/src/pool/pool_manager.rs:212-228 | two hosts share neither container nor port |
| Health.GoneNotPooled | lambda-gateway/src/pool/pool_manager.rs:184-198 | the container of a doomed or destroyed host belongs to no pooled host |
| Health.IdentityStep | lambda-gateway/src/pool/pool_manager.rs:175-182 | across a step a container's host is the same host, possibly newly marked as tested |
| Invariant.InvStep | lambda-gateway/src/pool/pool_manager.rs:126-483 | the whole invariant is inductive |
| Invariant.Reachable | lambda-gateway/src/pool/pool_manager.rs:34-114 | it holds in every state any schedule reaches from the initial state |
| Invariant.PortInOnePlace | lambda-gateway/src/port/allocated_port.rs:24-40 | each port of the range is in exactly one of seven places, and a number outside it in none |
| Invariant.ContainerInOnePlace | lambda-gateway/src/pool/host_instance.rs:42-53 | each wrapped container is in exactly one of five places |
| Invariant.ExclusiveLeases | lambda-gateway/src/pool/pool_manager.rs:137-207 | before the collection a live lease is backed by its own tested entry, shares container and port with no other live lease and with no available host |
| Invariant.RelockMissesIffCollected | lambda-gateway/src/pool/pool_manager.rs:176-178 | relocking after a probe misses the entry exactly when the final collection took it |
| Invariant.ReturnFindsEntry | lambda-gateway/src/pool/pool_manager.rs:310-313 | the return processor always finds the entry of the id it received |
| Invariant.ChannelIsKeys | lambda-gateway/src/pool/host_lease.rs:35-45 | before the collection the ids in the lease channel are distinct, all keys of the map, and none of a live lease |
| Invariant.RequeueNeverDuplicate | lambda-gateway/src/port/port_manager.rs:80-82 | the duplicate-return branch is dead in the whole system |
| Invariant.UntestedNeverLeased | lambda-gateway/src/pool/pool_manager.rs:380-384 | in every reachable state an untested available host was wrapped by the scaling task and never leased, and no pooled host ever failed a probe |
| Invariant.ChannelBelowLeased | lambda-gateway/src/pool/host_lease.rs:35-45 | while some lease is live the channel holds fewer ids than the map has keys |
| Invariant.HostsWithinRange | lambda-gateway/src/pool/pool_manager.rs:212-228 | pooled hosts are at most the existing hosts, those at most the live ports, those at most the range |
| Invariant.LeaseDropNeverFull | lambda-gateway/src/pool/host_lease.rs:37-43 | with at most 1000 instances or at most 1000 ports a lease destructor never finds the channel full |
| Invariant.NeverOverCapacity | lambda-gateway/src/pool/pool_manager.rs:137-161 | in every run the pool with the host in the lock holder's hand never exceeds max_instances, a spawn in progress included, and scaling never plans beyond min_instances |
| Invariant.SpawnFindsPort | lambda-gateway/src/pool/pool_manager.rs:142-148 | with a range of at least max_instances ports and none leaked or in transit, a spawn finds a free port |
| Runs.PoolRunsAllocator | lambda-gateway/src/pool/pool_manager.rs:212-228 | seen through its ports, every run of the pool is a run of the allocator |
| Runs.GracePeriod | lambda-gateway/src/port/port_manager.rs:72-75 | the exact reuse distance over every run of the whole system |
| Runs.DoomedNeverReturns | lambda-gateway/src/pool/pool_manager.rs:184-198 | no run brings a host that was doomed, or whose probe failed, back into the pool |
| Runs.HostIdentity | lambda-gateway/src/pool/pool_manager.rs:175-182 | over any run a host keeps port and creation time, and its health mark is never cleared |
| Runs.NoLeaseLost | lambda-gateway/src/pool/host_lease.rs:37-43 | with at most 1000 instances or ports, no run loses a lease while the workers are alive |
| Runs.NoPortLeaked | lambda-gateway/src/port/allocated_port.rs:31-33 | with at most 1000 ports no run of the whole system leaks a port |
| Runs.DrainBound | lambda-gateway/src/pool/pool_manager.rs:404-419 | after the flag is stored the leased count never exceeds the count then plus the calls already past their check |
| Runs.NoKeyAdded | lambda-gateway/src/pool/pool_manager.rs:128-161 | with the flag stored and no call between its check and its insert, no call ever is again and no key is ever added to the map |
| Runs.CountNeverRises | lambda-gateway/src/pool/pool_manager.rs:440-466 | between any two polls of the drain the leased count does not rise, and a map once seen empty is empty at every later poll |
| Runs.StrandedForEver | lambda-gateway/src/pool/pool_manager.rs:161-202 | the entry of a caller cancelled while probing, or of a lease whose send failed, stays until the collection |
| Runs.AbandonedIff | lambda-gateway/src/pool/pool_manager.rs:161-202 | over any run entries are abandoned exactly by requests dropped while their host is being probed |
| Runs.LostIff | lambda-gateway/src/pool/host_lease.rs:37-43 | over any run with the workers up leases are lost exactly by drops into a full channel |
| Runs.NoCleanupAfterAbort | lambda-gateway/src/pool/pool_manager.rs:411-427 | once the workers are aborted no container is ever stopped through the cleanup channel |
| Draining.DrainSchedule | lambda-gateway/src/pool/pool_manager.rs:440-466 | from any reachable state with nothing stranded some schedule empties the map |
| Draining.DrainsIffNothingStranded | lambda-gateway/src/pool/pool_manager.rs:440-466 | the map can become empty before the collection if and only if nothing is stranded |
| Draining.DrainsIffHandlesReturned | lambda-gateway/src/pool/pool_manager.rs:440-466 | after any run from the start, workers up, the map can become empty before the collection if and only if that run took no cancellation of a probing request and no drop into a full channel |
| Draining.HolderWorks | lambda-gateway/src/pool/pool_manager.rs:133-163 | each stretch of the task that holds the lock brings it closer to releasing it, whatever Docker answers |
| Draining.EmptyMapNothingOut | lambda-gateway/src/pool/pool_manager.rs:440-466 | before the collection an empty map means that nobody holds, waits for or has lost a lease of any kind |
| Draining.GracefulStays | lambda-gateway/src/pool/pool_manager.rs:400-427 | from an empty map with the flag stored and no call racing, no run, collection included, ever has a lease held, lost or collected |
| Extremes.PortLeakIff | lambda-gateway/src/port/port_manager.rs:7 | some run leaks a port if and only if the range has more than 1000 ports |
| Extremes.LeaseLossIff | lambda-gateway/src/pool/pool_manager.rs:35 | some run loses a lease to a full channel if and only if max_instances and the range both exceed 1000 |
| Extremes.CancelledProbeStrands | lambda-gateway/src/pool/pool_manager.rs:161-202 | in every configuration one request dropped while its new host is being probed strands an entry |
| Extremes.UncancelledStrandsNothing | lambda-gateway/src/pool/pool_manager.rs:161-202 | without such a request, and with at most 1000 instances or ports, no run strands an entry |
| Extremes.StrandingIff | lambda-gateway/src/pool/pool_manager.rs:161-202 | some run strands an entry in any configuration; without requests dropped while probing, some run does if and only if max_instances and the range both exceed 1000 |
| Reaping.SiftSplits | lambda-gateway/src/pool/pool_manager.rs:340-342 | the reaper's two parts keep the order of the deque and use each position exactly once; a position is in the first part exactly when its reading exceeds the host's creation time plus the limit |
| Reaping.ReapedIffExpiredWhenRead | lambda-gateway/src/pool/pool_manager.rs:335-351 | a host whose age exceeds the limit when the reaper starts is dropped however the clock moves; a host that stays was within the limit when read, and so when the reaper started |
| Reaping.ExpiredByAge | lambda-gateway/src/pool/host_instance.rs:32-34 | a host is expired exactly when its age at the reading exceeds the limit, and never at a reading before its creation |
| WorkerRuns.AttemptsAddUp | lambda-gateway/src/pool/pool_manager.rs:380-391 | every attempt of the scaling loop makes a host, fails in Docker after getting a port, or is refused one |
| WorkerRuns.AllMade | lambda-gateway/src/pool/pool_manager.rs:380-391 | if no attempt is refused a port and Docker never fails, every attempt makes a host |
| WorkerRuns.OneMorePoll | lambda-gateway/src/pool/pool_manager.rs:440-466 | a poll that has the lock at its tick or later ends the drain as drained on an empty map, as timed out past thirty seconds, and lets it go on otherwise |
| RetryRuns.CallBound | lambda-gateway/src/pool/pool_manager.rs:231-260 | any run of a call has at most ten probes, sleeps 50 ms between two, has ten of them if its host was not ready, and takes its one flag check first |
| RetryRuns.OneCheckEach | lambda-gateway/src/gateway/server.rs:186-187 | in any run of attempts the request checks the flag exactly once for each attempt |
| RetryRuns.RetryBound | lambda-gateway/src/gateway/server.rs:182-215 | any run of a leasing with retries has one to three attempts, at most 30 probes and 1500 ms of sleep, and exactly so many if no host was ready |
| Decisions.RunDecidesResult | lambda-gateway/src/pool/pool_manager.rs:126-208 | the same run of a call in the same world cannot return two different results: outcome, id, claim, discarded host, probes and sleeps are all decided by the run |
| Decisions.PastStays | lambda-gateway/src/pool/pool_manager.rs:126-163 | a request past the lock, its turn at the ports or Docker's answer does not come back there without checking the flag again |
| Decisions.RelockOnce | lambda-gateway/src/pool/pool_manager.rs:172-198 | the caller of a new host relocks at most once in any run |
| Interference.StepKeeps | lambda-gateway/src/pool/pool_manager.rs:126-208 | what a waiting caller, a lock holder, a prober, a lessee, a resting caller, the return processor, the cleanup worker and the shutdown find unchanged after any label of another task |
| Interference.KeepsProbing | lambda-gateway/src/pool/pool_manager.rs:163-172 | no other task's code removes a caller that is probing with the lock released |
| Interference.KeepsReturns | lambda-gateway/src/pool/pool_manager.rs:265-283 | no other task touches the channel order or the entries of the ids the return processor is going to return, nor the pool while it checks a host |
| Interference.IssuedByOthers | lambda-gateway/src/pool/pool_manager.rs:154-161 | nobody inserts a lease id in another request's name |
| Interference.RunOnward | lambda-gateway/src/pool/pool_manager.rs:154-161 | over any run an id without an entry never gets one again, and marks, flags and the clock are never taken back |
| HostPoolManagers.HostPoolManager.constructor | lambda-gateway/src/pool/pool_manager.rs:34-64 | the initial state, which satisfies the invariant |
| HostPoolManagers.HostPoolManager.CheckShutdown | lambda-gateway/src/pool/pool_manager.rs:127-130 | one CheckFlag step; rejected exactly if the flag is set, and then nothing changes |
| HostPoolManagers.HostPoolManager.TakeAvailable | lambda-gateway/src/pool/pool_manager.rs:133-163 | one LeaseLock step: the oldest available host is inserted under a new id, or the call is refused at capacity, or it begins a spawn with the lock held |
| HostPoolManagers.HostPoolManager.InsertLeased | lambda-gateway/src/pool/pool_manager.rs:154-163 | the host goes in under a fresh id with the claim its caller is told, and the lock is released |
| HostPoolManagers.HostPoolManager.AllocateForSpawn | lambda-gateway/src/pool/pool_manager.rs:214-215 | one SpawnPort step; without a free port a caller leaves with the lock free and the scaling loop goes on |
| HostPoolManagers.HostPoolManager.FinishCallerSpawn | lambda-gateway/src/pool/pool_manager.rs:148-163 | one LeaseCreated step: the new host is inserted for its caller to probe, or its port awaits its destructor |
| HostPoolManagers.HostPoolManager.ConfirmProbe | lambda-gateway/src/pool/pool_manager.rs:172-182 | one ProbePassed step: the host is marked and leased, or the entry is missing |
| HostPoolManagers.HostPoolManager.DiscardProbed | lambda-gateway/src/pool/pool_manager.rs:184-198 | one ProbeFailed step: the entry is gone and its host doomed |
| HostPoolManagers.HostPoolManager.CancelCall | lambda-gateway/src/pool/pool_manager.rs:133-148 | one CancelWaiting step: a dropped request frees the lock it held, and the port it had is due to be returned |
| HostPoolManagers.HostPoolManager.CancelProbe | lambda-gateway/src/pool/pool_manager.rs:169-172 | one CancelProbing step: the entry stays, abandoned |
| HostPoolManagers.HostPoolManager.DropHostLease | lambda-gateway/src/pool/host_lease.rs:35-45 | one DropLease step: the id is in the channel afterwards, or lost if that is full or closed |
| HostPoolManagers.HostPoolManager.BeginReturn | lambda-gateway/src/pool/pool_manager.rs:278-297 | one ReturnLock step: the entry is removed, its host doomed if expired and otherwise held with the lock for its check |
| HostPoolManagers.HostPoolManager.FinishReturnHost | lambda-gateway/src/pool/pool_manager.rs:298-307 | one ReturnChecked step: a running host goes to the back of the deque and the lock is released, another is doomed with the lock still held |
| HostPoolManagers.HostPoolManager.PartitionExpired | lambda-gateway/src/pool/pool_manager.rs:337-350 | one Reap step, the clock read once for each host |
| HostPoolManagers.HostPoolManager.SplitByAge | lambda-gateway/src/pool/pool_manager.rs:340-342 | the partition loop computes the specification Reaping.SiftSplits is about |
| HostPoolManagers.HostPoolManager.BeginScaling | lambda-gateway/src/pool/pool_manager.rs:371-378 | one ScaleLock step: as many spawns as hosts are missing, the lock held |
| HostPoolManagers.HostPoolManager.FinishScalingSpawn | lambda-gateway/src/pool/pool_manager.rs:381-390 | one ScaleCreated step: the new host goes untested to the back of the deque, or its port awaits its destructor |
| HostPoolManagers.HostPoolManager.DropHostInstance | lambda-gateway/src/pool/host_instance.rs:42-53 | one DropHost step: the container is sent, or will never be stopped by the worker if the channel is full or closed; the port is next |
| HostPoolManagers.HostPoolManager.Abort | lambda-gateway/src/pool/pool_manager.rs:411-416 | one AbortWorkers step: both receivers go with their contents, and a worker's lock, host and port are released |
| HostPoolManagers.HostPoolManager.CollectAllHosts | lambda-gateway/src/pool/pool_manager.rs:469-483 | one Collect step: exactly the multiset union of both collections, available hosts first, and both are left empty |
| HostPoolManagers.HostPoolManager.Perform | lambda-gateway/src/pool/pool_manager.rs:126-483 | any enabled label is performed by the method of its stretch, keeping the invariant |
| HostPoolManagers.HostPoolManager.Others | lambda-gateway/src/pool/pool_manager.rs:126-483 | any schedule of other tasks is a run that leaves the waiting task what it relies on |
| HostPoolManagers.HostPoolManager.FinishHolder | lambda-gateway/src/pool/pool_manager.rs:133-163 | waiting behind a lock holder ends with the lock free, as a run that leaves the waiting task what it relies on |
| HostPoolManagers.HostPoolManager.DropSpawn | lambda-gateway/src/pool/pool_manager.rs:142-148 | a request dropped while it spawns releases the lock, leaves the pool as it was and sends its port back |
| HostPoolManagers.HostPoolManager.WaitForContainerReady | lambda-gateway/src/pool/pool_manager.rs:231-260 | ready at the first healthy answer among ten; an error only if the tenth answer is one; 50 ms between probes |
| HostPoolManagers.HostPoolManager.LeaseWithLock | lambda-gateway/src/pool/pool_manager.rs:133-163 | from the moment it has the lock: a non-empty deque gives its first host, leased at once if tested; an empty deque at capacity refuses; below capacity it spawns, refused exactly if the port queue is empty at its turn, failing exactly if Docker's answer is an error, and then the port is given back; it may be dropped at either wait |
| HostPoolManagers.HostPoolManager.ProbeLease | lambda-gateway/src/pool/pool_manager.rs:168-200 | the probes end at the first healthy answer or the tenth; at its relock a healthy caller whose entry is there is leased it, one whose entry is gone gets InvalidLease, which happens only after the collection, and an unhealthy caller's entry goes and its host is destroyed |
| HostPoolManagers.HostPoolManager.GiveUpProbe | lambda-gateway/src/pool/pool_manager.rs:184-198 | a host given up after its probes leaves the map, its container is delivered for cleanup or known never to be cleaned, and its port is given back |
| HostPoolManagers.HostPoolManager.LeaseHost | lambda-gateway/src/pool/pool_manager.rs:126-208 | the whole call, from any state and under any schedule: the flag, the state in which it takes the lock, its turn at the ports, Docker's answer, its probes and the state at its relock determine the outcome, the claim, the counts and the host discarded; it inserts exactly `mine`, ends with a live lease or no entry of its own, except that a request dropped while probing leaves its entry abandoned; ShuttingDown if and only if the flag was set at the call |
| HostPoolManagers.HostPoolManager.DestroyHost | lambda-gateway/src/pool/host_instance.rs:42-53 | the destructor of a host sends its container, or records it as never to be stopped, and then gives its port back; nothing else happens |
| HostPoolManagers.HostPoolManager.SpawnForScaling | lambda-gateway/src/pool/pool_manager.rs:381-391 | one attempt: it is granted the head of the port queue at its turn, or refused exactly if that is empty; a new untested host on that port exactly if granted and Docker succeeded; a granted port is given back if Docker failed |
| HostPoolManagers.HostPoolManager.RunScalingPolicy | lambda-gateway/src/pool/pool_manager.rs:370-396 | as many attempts as hosts were missing; those granted a port and answered by Docker add untested hosts on those ports in order, those Docker failed give their ports back; without refusal or failure the pool ends with the larger of the old total and min_instances; existing hosts untouched, whatever others do meanwhile |
| HostPoolManagers.HostPoolManager.ReapExpiredHosts | lambda-gateway/src/pool/pool_manager.rs:335-364 | the deque is split in order, a position being dropped exactly if its reading exceeds its creation time plus the limit; every dropped host's container is delivered and its port given back |
| HostPoolManagers.HostPoolManager.HandleContainerCleanup | lambda-gateway/src/pool/pool_manager.rs:320-331 | the loop stops exactly the containers that were in the channel at its start, in any interleaving with tasks that send more |
| HostPoolManagers.HostPoolManager.SettleReturn | lambda-gateway/src/pool/pool_manager.rs:278-314 | one return removes exactly its entry; its host is at the back of the deque exactly if its age when read is within the limit and it is running, and otherwise its container is delivered and its port sent back or leaked; others run during the check |
| HostPoolManagers.HostPoolManager.ProcessHostLeaseReturns | lambda-gateway/src/pool/pool_manager.rs:265-274 | in any interleaving, every id that was in the channel at the start had its own entry, which is gone at the end; right after its turn its host is the last of the deque exactly if its age when read was within the limit and it was running, and is otherwise delivered for cleanup, its port sent back |
| HostPoolManagers.HostPoolManager.WaitForRequestsToDrain | lambda-gateway/src/pool/pool_manager.rs:440-466 | every poll but the last finds a non-empty map and no more than thirty seconds gone; the last finds it empty, or non-empty with more than thirty seconds gone; polls are a tick of 100 ms apart, at most 302, and no worker is aborted meanwhile |
| HostPoolManagers.HostPoolManager.ShutdownAllContainers | lambda-gateway/src/pool/pool_manager.rs:400-427 | flag, then the whole drain, and only from the state in which it ended the abort, the collection of exactly the hosts of both collections, and their destructors; the pool is empty, every collected container is one no worker will stop and every port is given back; if no call was racing at the flag store and the drain saw an empty map, nobody holds or has lost a lease at the end |
| GatewayServers.GatewayServer.LeaseHostWithRetry | lambda-gateway/src/gateway/server.rs:182-215 | the run is that of its attempts, each a run of a call: one after each host that was not ready, three at most; the outcome is that of the last attempt; probes, sleeps, entries and discards are those of the attempts, with 50 ms after the first and 100 ms after the second; at most 30 probes and 1500 ms, exactly so when all three end not ready; no entry of its own after an uncancelled failure |
| GatewayServers.GatewayServer.ForwardToLambda | lambda-gateway/src/gateway/server.rs:101-153 | a request that got a lease holds it live for as long as the container works, and then drops it exactly once: its id is in the release channel, or lost if that was full or closed; a request that got none ends with the answer of its last attempt and does nothing more |

## Left out

- Docker and HTTP: container creation, health probing and request forwarding are arbitrary answers. A creation that
  fails after making a container is outside container conservation, which covers containers wrapped in a host.
- The label-based sweep at the end of the shutdown: its completeness is Docker's.
- Real time, fairness and scheduling: a monotone clock and arbitrary schedules. Eventual return is stated as what is
  reached when the processor empties its channel, and as the existence of a draining schedule.
- HostPoolManagers.HostPoolManager.LeaseHost: waiting for the lock is any schedule of other tasks, after which whoever
  holds the lock goes on until it is released; the model gives Docker's answers to that holder, so it does not say
  how long Docker takes.
- GatewayServers.GatewayServer.LeaseHostWithRetry: a request dropped during a backoff is not an outcome of its own; it
  holds nothing there, as the log of its attempts up to that point says.
- HostPoolManagers.HostPoolManager.WaitForRequestsToDrain: the same of each poll; the first tick of the interval and the
  start time are the same instant.
- HostPoolManagers.HostPoolManager.RunScalingPolicy: stated from the moment the task has the lock and for runs in which it
  is not aborted; the abort of a worker at any of its waits is the AbortWorkers label of the step system.
- HostPoolManagers.HostPoolManager.ProcessHostLeaseReturns: likewise not aborted, and stated for the ids that are in the
  channel when it starts.
- HostPoolManagers.HostPoolManager.HandleContainerCleanup: likewise.
- HostPoolManagers.HostPoolManager.Abort: an aborted task stops at once; the runtime's own delay is not modelled.
- A host that several tasks could drop: the model lets pending destructors run in any order, which allows more
  interleavings than the source.
- One request at a time inside a container: a timed-out request gives its lease back while the container may still
  be working, so only the exclusivity of live leases is claimed.
- The cleanup channel's fullness: its backlog has no bound tied to the pool, so a rejected container is a class of
  its own (`uncleaned`).
- `QueueSet` capacity management, `front`, `back` and `get`, the `release`, `release_now` and `stop` methods that only
  consume their handle, test-only counters: single-line facts.
- Runtime teardown while the pool is in use: only the allocator on its own has the step that closes its channel.
- HTTP serving, JSON, configuration parsing, tracing, error-to-status tables, the other crates.
