/** The pool manager as the class it is: mutex-guarded collections, bounded channels and a port manager,
    changed in place. Each of the first methods is the code of one stretch and performs exactly one step
    of the protocol; the operations below them run several stretches with other tasks in between. */
module HostPoolManagers {
  import opened Bags
  import opened PortSpec
  import opened PortManagers
  import opened QueueSets
  import opened Protocol
  import opened Invariant
  import opened Conservation
  import opened Leasing
  import opened Capacity
  import opened Health
  import opened Interference
  import opened Draining
  import opened Reaping
  import opened LeaseRuns
  import opened WorkerRuns
  import Runs

  datatype LeaseStart = Inserted(id: LeaseId, claim: Claim, tested: bool) | AtCapacity | MustSpawn

  /** What ten health checks amount to. */
  datatype Verdict = Ready | TimedOut | Errored

  ghost function AsSet<T>(o: Option<T>): set<T> {
    if o.Some? then {o.value} else {}
  }

  /** What relocking does, by verdict and by whether the entry is still there. */
  ghost predicate RelockAs(s: State, id: LeaseId, claim: Claim, verdict: Verdict, trace: seq<Label>,
                           outcome: LeaseOutcome, discarded: Option<Claim>) {
    && trace != []
    && if verdict.Ready? then
         && trace[0] == ProbePassed(id) && discarded.None?
         && outcome == if id in s.pool.leased then Leased(id, claim) else InvalidLease
       else
         && trace[0] == ProbeFailed(id)
         && outcome == (if verdict.Errored? then HealthCheckFailed else ContainerNotReady)
         && discarded == if id in s.pool.leased then Some(ClaimOf(s.pool.leased[id])) else None
  }

  /** A container whose message was sent, or found the channel full or closed. */
  ghost predicate Delivered(requests: seq<ContainerId>, uncleaned: multiset<ContainerId>, x: ContainerId) {
    x in requests || x in uncleaned
  }

  ghost predicate AllDelivered(requests: seq<ContainerId>, uncleaned: multiset<ContainerId>, hosts: seq<Host>, n: nat)
    requires n <= |hosts|
  {
    forall j :: 0 <= j < n ==> Delivered(requests, uncleaned, hosts[j].container)
  }

  lemma OneMoreDelivered(requests: seq<ContainerId>, uncleaned: multiset<ContainerId>,
                         requests': seq<ContainerId>, uncleaned': multiset<ContainerId>, hosts: seq<Host>, n: nat)
    requires n < |hosts| && AllDelivered(requests, uncleaned, hosts, n)
    requires requests <= requests' && uncleaned <= uncleaned' && Delivered(requests', uncleaned', hosts[n].container)
    ensures AllDelivered(requests', uncleaned', hosts, n + 1)
  {
    forall j | 0 <= j < n ensures Delivered(requests', uncleaned', hosts[j].container) {
      assert Delivered(requests, uncleaned, hosts[j].container);
    }
  }

  const DRAIN_INTERVAL: nat := 100
  const DRAIN_TIMEOUT: nat := 30_000

  const MAX_PROBES: nat := 10
  const PROBE_INTERVAL: nat := 50

  class HostPoolManager {
    const config: Config
    const portManager: PortManager

    // Guarded by the mutex.
    var availableHosts: seq<Host>
    var leasedHosts: map<LeaseId, Host>
    var lock: Lock

    var shutdownFlag: bool
    var workersAlive: bool
    var clock: nat

    // The two bounded channels, and the supplies of fresh names.
    var leaseReleases: seq<LeaseId>
    var cleanupRequests: seq<ContainerId>
    var nextLease: LeaseId
    var nextContainer: ContainerId

    // What the return processor and the cleanup worker have received and not yet dealt with.
    var releaseInHand: Option<LeaseId>
    var cleanupInHand: Option<ContainerId>

    // Bookkeeping: what the other tasks hold in their frames, and histories. `View` replaces the fields
    // of the first two records that exist above.
    var leases: Leases
    var cleanup: Cleanup
    var history: History
    var collected: bool

    function View(): State
      reads this, portManager, portManager.availablePorts
    {
      State(Pool(availableHosts, leasedHosts, lock),
            leases.(channel := leaseReleases, returning := releaseInHand, next := nextLease),
            cleanup.(channel := cleanupRequests, stopping := cleanupInHand, next := nextContainer),
            portManager.View(), history, shutdownFlag, workersAlive, collected, clock)
    }

    ghost predicate Valid()
      reads this, portManager, portManager.availablePorts
    {
      portManager.Valid() && Inv(config, View())
    }

    constructor (config: Config)
      requires config.Valid()
      ensures Valid() && fresh(portManager) && fresh(portManager.availablePorts)
      ensures this.config == config && View() == Init(config)
    {
      this.config := config;
      portManager := new PortManager(config.lo, config.hi);
      availableHosts, leasedHosts, lock := [], map[], Free;
      shutdownFlag, workersAlive, clock := false, true, 0;
      leaseReleases, cleanupRequests, nextLease, nextContainer := [], [], 0, 0;
      releaseInHand, cleanupInHand := None, None;
      leases := Leases({}, map[], map[], [], None, {}, {}, {}, 0);
      cleanup := Cleanup(multiset{}, multiset{}, [], None, multiset{}, multiset{}, 0);
      history, collected := History({}, {}, {}, {}), false;
      new;
      hide Inv;
      InvInit(config);
    }

    // ---- Single changes, which the stretches below are made of ----

    /** Bookkeeping: what the frames of the other tasks hold from now on. */
    method Account(ls: Leases, cl: Cleanup)
      modifies this`leases, this`cleanup
      ensures leases == ls && cleanup == cl
    {
      leases, cleanup := ls, cl;
    }

    method SetLock(l: Lock)
      modifies this`lock
      ensures lock == l
      ensures View() == var s := old(View()); s.(pool := s.pool.(lock := l))
    {
      lock := l;
    }

    /** A host goes out of scope: its destructor is due. */
    method Doom(host: Host)
      modifies this`cleanup
      ensures cleanup == old(cleanup).(doomed := old(cleanup).doomed + multiset{host})
      ensures View() == var s := old(View()); s.(cleanup := s.cleanup.(doomed := s.cleanup.doomed + multiset{host}))
    {
      cleanup := cleanup.(doomed := cleanup.doomed + multiset{host});
    }

    /** An `AllocatedPort` of a spawn goes out of scope: its destructor is due. */
    method FreePort(port: Port)
      modifies this`cleanup
      ensures cleanup == old(cleanup).(freed := old(cleanup).freed + multiset{port})
      ensures View() == var s := old(View()); s.(cleanup := s.cleanup.(freed := s.cleanup.freed + multiset{port}))
    {
      cleanup := cleanup.(freed := cleanup.freed + multiset{port});
    }

    method PopAvailable() returns (host: Host)
      requires availableHosts != []
      modifies this`availableHosts
      ensures host == old(availableHosts)[0] && availableHosts == old(availableHosts)[1..]
      ensures View() == var s := old(View()); s.(pool := s.pool.(available := s.pool.available[1..]))
    {
      host := availableHosts[0];
      availableHosts := availableHosts[1..];
    }

    method PushAvailable(host: Host)
      modifies this`availableHosts
      ensures availableHosts == old(availableHosts) + [host]
      ensures View() == var s := old(View()); s.(pool := s.pool.(available := s.pool.available + [host]))
    {
      availableHosts := availableHosts + [host];
    }

    method StopWaiting(task: TaskId)
      modifies this`leases
      ensures leases == old(leases).(waiting := old(leases).waiting - {task})
      ensures View() == var s := old(View()); s.(leases := s.leases.(waiting := s.leases.waiting - {task}))
    {
      leases := leases.(waiting := leases.waiting - {task});
    }

    /** A caller that finds its entry gone. */
    method LeaveOrphaned(id: LeaseId)
      modifies this`leases
      ensures leases == old(leases).(probing := old(leases).probing - {id}, orphaned := old(leases).orphaned - {id})
      ensures View() == LeaveOrphan(old(View()), id)
    {
      leases := leases.(probing := leases.probing - {id}, orphaned := leases.orphaned - {id});
    }

    // ---- Request tasks ----

    method CheckShutdown(task: TaskId) returns (rejected: bool)
      requires Enabled(View(), CheckFlag(task))
      modifies this`leases
      ensures View() == Next(config, old(View()), CheckFlag(task))
      ensures rejected == old(shutdownFlag)
      ensures if rejected then View() == old(View()) else task in leases.waiting
    {
      rejected := shutdownFlag;
      if !rejected {
        leases := leases.(waiting := leases.waiting + {task});
      }
    }

    /** Inserting a host under a fresh id and releasing the lock. */
    method InsertLeased(host: Host, task: TaskId) returns (id: LeaseId)
      modifies this`leasedHosts, this`nextLease, this`lock, this`leases, this`history
      ensures View() == Admit(old(View()), host, task)
      ensures id == old(nextLease) && nextLease == id + 1 && lock.Free? && leasedHosts == old(leasedHosts)[id := host]
      ensures var claim := Claim(host.container, host.port);
              leases == if host.tested then old(leases).(live := old(leases).live[id := claim])
                        else old(leases).(probing := old(leases).probing[id := claim])
      ensures history.issued == old(history).issued + {Issue(id, task)}
    {
      id := InsertEntry(host);
      RecordLease(id, host, task);
    }

    method InsertEntry(host: Host) returns (id: LeaseId)
      modifies this`leasedHosts, this`nextLease, this`lock
      ensures id == old(nextLease) && nextLease == id + 1 && lock == Free
      ensures leasedHosts == old(leasedHosts)[id := host]
      ensures View() == var s := old(View());
                        s.(pool := s.pool.(leased := s.pool.leased[id := host], lock := Free),
                           leases := s.leases.(next := s.leases.next + 1))
    {
      id := nextLease;
      leasedHosts := leasedHosts[id := host];
      nextLease := id + 1;
      lock := Free;
    }

    /** The caller of a tested host has its lease at once; any other caller is to probe it. */
    method RecordLease(id: LeaseId, host: Host, task: TaskId)
      modifies this`leases, this`history
      ensures var claim := Claim(host.container, host.port);
              leases == if host.tested then old(leases).(live := old(leases).live[id := claim])
                        else old(leases).(probing := old(leases).probing[id := claim])
      ensures history == old(history).(everLeased := old(history).everLeased + {host.container},
                                       issued := old(history).issued + {Issue(id, task)})
      ensures var s, claim := old(View()), Claim(host.container, host.port);
              View() == s.(leases := if host.tested then s.leases.(live := s.leases.live[id := claim])
                                     else s.leases.(probing := s.leases.probing[id := claim]),
                           history := s.history.(everLeased := s.history.everLeased + {host.container},
                                                 issued := s.history.issued + {Issue(id, task)}))
    {
      var claim := Claim(host.container, host.port);
      leases := if host.tested then leases.(live := leases.live[id := claim])
                else leases.(probing := leases.probing[id := claim]);
      history := history.(everLeased := history.everLeased + {host.container}, issued := history.issued + {Issue(id, task)});
    }

    /** `lease_host` with the lock just acquired: reuse, refuse, or begin a spawn under the lock. */
    method TakeAvailable(task: TaskId) returns (start: LeaseStart)
      requires Enabled(View(), LeaseLock(task))
      modifies this`availableHosts, this`leasedHosts, this`nextLease, this`lock, this`leases, this`history
      ensures View() == Next(config, old(View()), LeaseLock(task))
      ensures history.issued == old(history).issued + (if start.Inserted? then {Issue(start.id, task)} else {})
      ensures task !in leases.waiting
      ensures match start
              case Inserted(id, claim, tested) =>
                && old(availableHosts) != [] && lock.Free? && id == old(nextLease)
                && Names(claim, old(availableHosts)[0]) && tested == old(availableHosts)[0].tested
                && leasedHosts == old(leasedHosts)[id := old(availableHosts)[0]] && nextLease == id + 1
                && (if tested then id in leases.live && leases.live[id] == claim
                    else id in leases.probing && leases.probing[id] == claim)
              case AtCapacity =>
                && availableHosts == old(availableHosts) == [] && lock.Free?
                && leasedHosts == old(leasedHosts) && |leasedHosts| >= config.maxInstances
              case MustSpawn =>
                && old(availableHosts) == [] && |old(leasedHosts)| < config.maxInstances
                && lock == Spawning(task, NeedPort)
    {
      hide Next;
      NextLeaseLock(config, View(), task);
      StopWaiting(task);
      if availableHosts != [] {
        var host := PopAvailable();
        var id := InsertLeased(host, task);
        start := Inserted(id, Claim(host.container, host.port), host.tested);
      } else if |leasedHosts| >= config.maxInstances {
        start := AtCapacity;
      } else {
        SetLock(Spawning(task, NeedPort));
        start := MustSpawn;
      }
    }

    /** The first half of `spawn_new_host`, for whichever task holds the lock. */
    method AllocateForSpawn() returns (port: Option<Port>)
      requires portManager.Valid() && Enabled(View(), SpawnPort)
      modifies this`lock, portManager, portManager.availablePorts
      ensures portManager.Valid()
      ensures View() == Next(config, old(View()), SpawnPort)
      ensures port == if old(portManager.View()).queue == [] then None else Some(old(portManager.View()).queue[0])
      ensures lock == if port.Some? then old(lock).(stage := HavePort(port.value))
                      else if old(lock).Spawning? then Free else Scaling(old(lock).left - 1, NeedPort)
      ensures port.None? ==> portManager.availablePorts.queue == []
    {
      port := portManager.AllocatePort();
      if port.Some? {
        lock := lock.(stage := HavePort(port.value));
      } else if lock.Spawning? {
        lock := Free;
      } else {
        lock := Scaling(lock.left - 1, NeedPort);
      }
    }

    /** The second half of a caller's spawn, once Docker has answered. */
    method FinishCallerSpawn(ok: bool) returns (id: Option<LeaseId>)
      requires Enabled(View(), LeaseCreated(ok))
      modifies this`leasedHosts, this`nextLease, this`nextContainer, this`lock, this`leases, this`cleanup, this`history
      ensures View() == Next(config, old(View()), LeaseCreated(ok))
      ensures id == if ok then Some(old(nextLease)) else None
      ensures history.issued == old(history).issued + (if ok then {Issue(id.value, old(lock).task)} else {})
      ensures leases.waiting == old(leases).waiting
      ensures lock.Free? && (!ok ==> leasedHosts == old(leasedHosts) && old(lock).stage.port in cleanup.freed)
      ensures ok ==> nextLease == old(nextLease) + 1 && id.value in leases.probing
      ensures ok ==> leases.probing[id.value] == Claim(old(nextContainer), old(lock).stage.port)
    {
      hide Next;
      NextLeaseCreated(config, View(), ok);
      var port := lock.stage.port;
      if ok {
        var host := NameContainer(port);
        var inserted := InsertLeased(host, lock.task);
        id := Some(inserted);
      } else {
        SetLock(Free);
        FreePort(port);
        id := None;
      }
    }

    /** Wrapping a created container. */
    method NameContainer(port: Port) returns (host: Host)
      modifies this`nextContainer
      ensures nextContainer == old(nextContainer) + 1 && host == Host(old(nextContainer), port, clock, false)
      ensures host == NewHost(old(View()), port)
      ensures View() == var s := old(View()); s.(cleanup := s.cleanup.(next := s.cleanup.next + 1))
    {
      host := Host(nextContainer, port, clock, false);
      nextContainer := nextContainer + 1;
    }

    /** Relocking after a probe that passed. */
    method ConfirmProbe(id: LeaseId) returns (found: bool)
      requires Enabled(View(), ProbePassed(id))
      modifies this`leasedHosts, this`leases
      ensures View() == Next(config, old(View()), ProbePassed(id))
      ensures found <==> id in old(leasedHosts)
      ensures leases.waiting == old(leases).waiting
      ensures if found then id in leases.live && leases.live[id] == old(leases).probing[id] else id !in leasedHosts
    {
      found := id in leasedHosts;
      if found {
        leasedHosts := leasedHosts[id := leasedHosts[id].(tested := true)];
        leases := leases.(probing := leases.probing - {id}, live := leases.live[id := leases.probing[id]]);
      } else {
        leases := leases.(probing := leases.probing - {id}, orphaned := leases.orphaned - {id});
      }
    }

    /** Relocking after a probe that failed or could not be made. */
    method DiscardProbed(id: LeaseId) returns (deadHost: Option<Host>)
      requires Enabled(View(), ProbeFailed(id))
      modifies this`leasedHosts, this`leases, this`cleanup, this`history
      ensures View() == Next(config, old(View()), ProbeFailed(id))
      ensures deadHost == if id in old(leasedHosts) then Some(old(leasedHosts)[id]) else None
      ensures leasedHosts == old(leasedHosts) - {id} && id !in leases.probing
      ensures leases.waiting == old(leases).waiting && history.issued == old(history).issued
      ensures deadHost.Some? ==> deadHost.value in cleanup.doomed && deadHost.value.container in history.failed
    {
      if id in leasedHosts {
        var host := leasedHosts[id];
        deadHost := Some(host);
        RemoveProbed(id);
        Doom(host);
      } else {
        deadHost := None;
        LeaveOrphaned(id);
      }
    }

    method RemoveProbed(id: LeaseId)
      requires id in leasedHosts
      modifies this`leasedHosts, this`leases, this`history
      ensures leasedHosts == old(leasedHosts) - {id} && leases == old(leases).(probing := old(leases).probing - {id})
      ensures history == old(history).(failed := old(history).failed + {old(leasedHosts)[id].container})
      ensures View() == var s := old(View());
                        s.(pool := s.pool.(leased := s.pool.leased - {id}),
                           leases := s.leases.(probing := s.leases.probing - {id}),
                           history := s.history.(failed := s.history.failed + {s.pool.leased[id].container}))
    {
      history := history.(failed := history.failed + {leasedHosts[id].container});
      leasedHosts := leasedHosts - {id};
      leases := leases.(probing := leases.probing - {id});
    }

    /** The request of a caller that is waiting for the lock, or spawning under it, is dropped. */
    method CancelCall(task: TaskId)
      requires Enabled(View(), CancelWaiting(task))
      requires lock.Spawning? ==> lock.task !in leases.waiting
      modifies this`lock, this`leases, this`cleanup
      ensures View() == Next(config, old(View()), CancelWaiting(task))
      ensures Idle(View(), task)
      ensures old(lock).Spawning? && old(lock).task == task ==>
                lock.Free? && (old(lock).stage.HavePort? ==> old(lock).stage.port in cleanup.freed)
    {
      if lock.Spawning? && lock.task == task {
        if lock.stage.HavePort? {
          FreePort(lock.stage.port);
        }
        SetLock(Free);
      } else {
        StopWaiting(task);
      }
    }

    /** The request of a probing caller is dropped: nothing runs, and its entry stays. */
    method CancelProbe(id: LeaseId)
      requires Enabled(View(), CancelProbing(id))
      modifies this`leases
      ensures View() == Next(config, old(View()), CancelProbing(id))
      ensures id in leases.abandoned && leases.waiting == old(leases).waiting
    {
      leases := leases.(probing := leases.probing - {id}, abandoned := leases.abandoned + {id});
    }

    /** The destructor of a `HostLease`: a send that never waits. */
    method DropHostLease(id: LeaseId)
      requires Enabled(View(), DropLease(id))
      modifies this`leases, this`leaseReleases
      ensures View() == Next(config, old(View()), DropLease(id))
      ensures id !in leases.live && (id in leaseReleases || id in leases.lost)
    {
      leases := leases.(live := leases.live - {id});
      if workersAlive && |leaseReleases| < CHANNEL_CAPACITY {
        leaseReleases := leaseReleases + [id];
      } else {
        leases := leases.(lost := leases.lost + {id});
      }
    }

    // ---- Background tasks ----

    method ReceiveRelease() returns (id: LeaseId)
      requires Enabled(View(), ReceiveLease)
      modifies this`leaseReleases, this`releaseInHand
      ensures View() == Next(config, old(View()), ReceiveLease)
      ensures old(leaseReleases) == [id] + leaseReleases
      ensures releaseInHand == Some(id)
    {
      id := leaseReleases[0];
      leaseReleases := leaseReleases[1..];
      releaseInHand := Some(id);
    }

    /** `return_host_internal` up to its Docker check. */
    method BeginReturn() returns (found: bool)
      requires Enabled(View(), ReturnLock) && releaseInHand.Some? && lock.Free?
      modifies this`leasedHosts, this`lock, this`releaseInHand, this`leases, this`cleanup
      ensures View() == Next(config, old(View()), ReturnLock)
      ensures found <==> old(releaseInHand).value in old(leasedHosts)
      ensures releaseInHand.None? && leasedHosts == old(leasedHosts) - {old(releaseInHand).value}
      ensures found ==> var host := old(leasedHosts)[old(releaseInHand).value];
                        if clock > host.createdAt + config.ttl then lock.Free? && host in cleanup.doomed
                        else lock == Checking(host)
    {
      hide Next, Enabled;
      NextReturnLock(config, View());
      var id, host := TakeReleased();
      found := host.Some?;
      if !found {
        LeaveOrphaned(id);
      } else if Expired(host.value, clock, config.ttl) {
        Doom(host.value);
      } else {
        SetLock(Checking(host.value));
      }
    }

    method TakeReleased() returns (id: LeaseId, host: Option<Host>)
      requires releaseInHand.Some?
      modifies this`leasedHosts, this`releaseInHand
      ensures View() == var s := old(View());
                        s.(leases := s.leases.(returning := None), pool := s.pool.(leased := s.pool.leased - {id}))
      ensures releaseInHand.None? && old(releaseInHand) == Some(id) && leasedHosts == old(leasedHosts) - {id}
      ensures host == if id in old(leasedHosts) then Some(old(leasedHosts)[id]) else None
    {
      id := releaseInHand.value;
      releaseInHand := None;
      host := if id in leasedHosts then Some(leasedHosts[id]) else None;
      leasedHosts := leasedHosts - {id};
    }

    method FinishReturnHost(alive: bool)
      requires Enabled(View(), ReturnChecked(alive))
      modifies this`availableHosts, this`lock, this`cleanup
      ensures View() == Next(config, old(View()), ReturnChecked(alive))
      ensures lock == if alive then Free else Unwinding
      ensures availableHosts == old(availableHosts) + if alive then [old(lock).host] else []
      ensures !alive ==> old(lock).host in cleanup.doomed
    {
      var host := lock.host;
      if alive {
        PushAvailable(host);
        SetLock(Free);
      } else {
        Doom(host);
        SetLock(Unwinding);
      }
    }

    method UnlockAfterReturn()
      requires Enabled(View(), ReturnUnlock)
      modifies this`lock
      ensures View() == Next(config, old(View()), ReturnUnlock)
      ensures lock.Free?
    {
      lock := Free;
    }

    method ReceiveCleanupRequest()
      requires Enabled(View(), ReceiveCleanup)
      modifies this`cleanupRequests, this`cleanupInHand
      ensures View() == Next(config, old(View()), ReceiveCleanup)
      ensures cleanupInHand.Some? && old(cleanupRequests) == [cleanupInHand.value] + cleanupRequests
    {
      cleanupInHand := Some(cleanupRequests[0]);
      cleanupRequests := cleanupRequests[1..];
    }

    method FinishStopContainer()
      requires Enabled(View(), StopDone)
      modifies this`cleanupInHand, this`cleanup
      ensures View() == Next(config, old(View()), StopDone)
      ensures cleanupInHand.None? && cleanup.stopped == old(cleanup).stopped + multiset{old(cleanupInHand).value}
    {
      cleanup := cleanup.(stopped := cleanup.stopped + multiset{cleanupInHand.value});
      cleanupInHand := None;
    }

    /** The reaper's critical section: one pass over the deque, reading the clock for each host. */
    method PartitionExpired(readings: seq<nat>) returns (expiredHosts: seq<Host>)
      requires Enabled(View(), Reap(readings))
      modifies this`availableHosts, this`clock, this`cleanup
      ensures View() == Next(config, old(View()), Reap(readings))
      ensures (expiredHosts, availableHosts) == Sift(old(availableHosts), readings, config.ttl)
      ensures cleanup.doomed == old(cleanup).doomed + multiset(expiredHosts)
    {
      hide Next, Sift;
      NextReap(config, View(), readings);
      var stillValid;
      expiredHosts, stillValid := SplitByAge(availableHosts, readings);
      KeepOnly(stillValid);
      AdvanceTo(if readings == [] then clock else readings[|readings| - 1]);
      cleanup := cleanup.(doomed := cleanup.doomed + multiset(expiredHosts));
    }

    method KeepOnly(hosts: seq<Host>)
      modifies this`availableHosts
      ensures availableHosts == hosts
      ensures View() == var s := old(View()); s.(pool := s.pool.(available := hosts))
    {
      availableHosts := hosts;
    }

    method AdvanceTo(now: nat)
      modifies this`clock
      ensures clock == now && View() == old(View()).(clock := now)
    {
      clock := now;
    }

    method SplitByAge(hosts: seq<Host>, readings: seq<nat>) returns (expiredHosts: seq<Host>, stillValid: seq<Host>)
      requires |hosts| == |readings|
      ensures (expiredHosts, stillValid) == Sift(hosts, readings, config.ttl)
    {
      expiredHosts, stillValid := [], [];
      for i := 0 to |hosts|
        invariant (expiredHosts, stillValid) == Sift(hosts[..i], readings[..i], config.ttl)
      {
        assert hosts[..i + 1][..i] == hosts[..i] && readings[..i + 1][..i] == readings[..i];
        if Expired(hosts[i], readings[i], config.ttl) {
          expiredHosts := expiredHosts + [hosts[i]];
        } else {
          stillValid := stillValid + [hosts[i]];
        }
      }
      assert hosts[..|hosts|] == hosts && readings[..|hosts|] == readings;
    }

    method BeginScaling() returns (needed: nat)
      requires Enabled(View(), ScaleLock)
      modifies this`lock
      ensures View() == Next(config, old(View()), ScaleLock)
      ensures needed == if |leasedHosts| + |availableHosts| < config.minInstances
                        then config.minInstances - (|leasedHosts| + |availableHosts|) else 0
      ensures lock == if needed > 0 then Scaling(needed, NeedPort) else Free
    {
      var total := |leasedHosts| + |availableHosts|;
      if total < config.minInstances {
        needed := config.minInstances - total;
        lock := Scaling(needed, NeedPort);
      } else {
        needed := 0;
      }
    }

    method FinishScalingSpawn(ok: bool)
      requires Enabled(View(), ScaleCreated(ok))
      modifies this`availableHosts, this`nextContainer, this`lock, this`cleanup, this`history
      ensures View() == Next(config, old(View()), ScaleCreated(ok))
      ensures lock == Scaling(old(lock).left - 1, NeedPort)
      ensures availableHosts == old(availableHosts)
                                + if ok then [Host(old(nextContainer), old(lock).stage.port, clock, false)] else []
      ensures !ok ==> old(lock).stage.port in cleanup.freed
    {
      hide Next;
      NextScaleCreated(config, View(), ok);
      var port, left := lock.stage.port, lock.left;
      if ok {
        RecordScaled(nextContainer);
        var host := NameContainer(port);
        PushAvailable(host);
      } else {
        FreePort(port);
      }
      SetLock(Scaling(left - 1, NeedPort));
    }

    method RecordScaled(container: ContainerId)
      modifies this`history
      ensures View() == var s := old(View()); s.(history := s.history.(scaled := s.history.scaled + {container}))
    {
      history := history.(scaled := history.scaled + {container});
    }

    method UnlockAfterScaling()
      requires Enabled(View(), ScaleUnlock)
      modifies this`lock
      ensures View() == Next(config, old(View()), ScaleUnlock)
      ensures lock.Free?
    {
      lock := Free;
    }

    // ---- Destructors ----

    /** The destructor of a `HostInstance`, up to its port field. */
    method DropHostInstance(host: Host)
      requires Enabled(View(), DropHost(host))
      modifies this`cleanup, this`cleanupRequests
      ensures View() == Next(config, old(View()), DropHost(host))
      ensures host.port in cleanup.freed && cleanup.doomed == old(cleanup).doomed - multiset{host}
      ensures if workersAlive && |old(cleanupRequests)| < 1000
              then cleanupRequests == old(cleanupRequests) + [host.container] && cleanup.uncleaned == old(cleanup).uncleaned
              else && cleanupRequests == old(cleanupRequests)
                   && cleanup.uncleaned == old(cleanup).uncleaned + multiset{host.container}
    {
      var sent := workersAlive && |cleanupRequests| < CHANNEL_CAPACITY;
      if sent {
        cleanupRequests := cleanupRequests + [host.container];
      }
      cleanup := cleanup.(doomed := cleanup.doomed - multiset{host}, freed := cleanup.freed + multiset{host.port},
                          uncleaned := if sent then cleanup.uncleaned else cleanup.uncleaned + multiset{host.container});
    }

    /** The destructor of its port field, or of a port whose spawn failed. */
    method DropPortField(port: Port)
      requires portManager.Valid() && Enabled(View(), DropPort(port)) && port in portManager.live
      modifies this`cleanup, portManager
      ensures portManager.Valid()
      ensures View() == Next(config, old(View()), DropPort(port))
      ensures cleanup.doomed == old(cleanup).doomed && cleanup.uncleaned == old(cleanup).uncleaned
      ensures port in portManager.channel || port in portManager.leaked
      ensures GivenBack(old(portManager.View()), portManager.View(), port)
    {
      portManager.DropAllocatedPort(port);
      cleanup := cleanup.(freed := cleanup.freed - multiset{port});
    }

    // ---- Shutdown ----

    method StoreFlag()
      modifies this`shutdownFlag
      ensures View() == Next(config, old(View()), SetFlag)
      ensures shutdownFlag
    {
      shutdownFlag := true;
    }

    /** Aborting the worker tasks drops their frames: both receivers with their contents, the lock if a
        worker holds it, and the host or port it had in hand. */
    method Abort()
      requires Enabled(View(), AbortWorkers)
      modifies this`workersAlive, this`leaseReleases, this`cleanupRequests, this`releaseInHand, this`cleanupInHand,
               this`leases, this`cleanup, this`lock
      ensures View() == Next(config, old(View()), AbortWorkers)
      ensures !workersAlive && leaseReleases == [] && cleanupRequests == []
    {
      NextAbort(config, View());
      hide Next, AbortLeases, AbortCleanup;
      AbortFrames(View());
      Account(AbortLeases(View().leases), AbortCleanup(View().cleanup, lock));
      DropReceivers();
    }

    method DropReceivers()
      modifies this`leaseReleases, this`cleanupRequests, this`releaseInHand, this`cleanupInHand, this`workersAlive, this`lock
      ensures leaseReleases == [] && cleanupRequests == [] && releaseInHand.None? && cleanupInHand.None?
      ensures !workersAlive && lock == if old(lock).Spawning? then old(lock) else Free
    {
      leaseReleases, cleanupRequests, workersAlive := [], [], false;
      releaseInHand, cleanupInHand := None, None;
      lock := if lock.Spawning? then lock else Free;
    }

    static lemma AbortFrames(s: State)
      ensures var ls := AbortLeases(s.leases); ls.channel == [] && ls.returning.None? && ls.next == s.leases.next
      ensures var cl := AbortCleanup(s.cleanup, s.pool.lock);
              cl.channel == [] && cl.stopping.None? && cl.next == s.cleanup.next
    {
    }

    /** `collect_all_hosts`: both collections are drained into one list, available hosts first. */
    method CollectAllHosts() returns (allHosts: seq<Host>)
      requires Enabled(View(), Protocol.Collect)
      modifies this`availableHosts, this`leasedHosts, this`leases, this`cleanup, this`collected
      ensures View() == Next(config, old(View()), Protocol.Collect)
      ensures multiset(allHosts) == multiset(old(availableHosts)) + Values(old(leasedHosts))
      ensures old(availableHosts) <= allHosts
      ensures collected && availableHosts == [] && leasedHosts == map[] && multiset(allHosts) <= cleanup.doomed
    {
      NextCollect(config, View());
      hide Next, Values;
      ghost var after := CollectHosts(View());
      var keys := leasedHosts.Keys;
      allHosts := DrainBoth();
      assert cleanup.doomed + multiset(allHosts) == after.cleanup.doomed;
      Account(leases.(orphaned := leases.orphaned + keys), cleanup.(doomed := cleanup.doomed + multiset(allHosts)));
      collected := true;
    }

    method DrainBoth() returns (allHosts: seq<Host>)
      modifies this`availableHosts, this`leasedHosts
      ensures multiset(allHosts) == multiset(old(availableHosts)) + Values(old(leasedHosts))
      ensures old(availableHosts) <= allHosts
      ensures availableHosts == [] && leasedHosts == map[]
    {
      allHosts, availableHosts := availableHosts, [];
      while leasedHosts != map[]
        invariant multiset(allHosts) + Values(leasedHosts) == multiset(old(availableHosts)) + Values(old(leasedHosts))
        invariant old(availableHosts) <= allHosts && availableHosts == []
        decreases |leasedHosts|
      {
        var id :| id in leasedHosts;
        ValuesRemove(leasedHosts, id);
        allHosts := allHosts + [leasedHosts[id]];
        leasedHosts := leasedHosts - {id};
      }
    }

    // ---- The port processor and the clock ----

    method ReceivePortReturn()
      requires portManager.Valid() && Enabled(View(), ReceivePort)
      modifies portManager
      ensures portManager.Valid()
      ensures View() == Next(config, old(View()), ReceivePort)
    {
      portManager.ReceiveReturn();
    }

    method RequeuePortReturn()
      requires portManager.Valid() && Enabled(View(), RequeuePort)
      modifies portManager, portManager.availablePorts
      ensures portManager.Valid()
      ensures View() == Next(config, old(View()), RequeuePort)
    {
      var _ := portManager.RequeueReturn();
    }

    method AdvanceClock(now: nat)
      requires clock <= now
      modifies this`clock
      ensures View() == Next(config, old(View()), Tick(now))
      ensures clock == now
    {
      clock := now;
    }

    // ---- Any other task takes a step ----

    method PerformRequest(l: Label)
      requires Valid() && Enabled(View(), l) && FromRequest(l)
      modifies this, portManager, portManager.availablePorts
      ensures portManager.Valid()
      ensures View() == Next(config, old(View()), l)
    {
      hide Next, PortLaw, ContainerLaw, LeaseLaw, CapacityLaw, HealthLaw;
      match l {
        case CheckFlag(task) => var _ := CheckShutdown(task);
        case LeaseLock(task) => var _ := TakeAvailable(task);
        case SpawnPort => var _ := AllocateForSpawn();
        case LeaseCreated(ok) => var _ := FinishCallerSpawn(ok);
        case ProbePassed(id) => var _ := ConfirmProbe(id);
        case ProbeFailed(id) => var _ := DiscardProbed(id);
        case CancelWaiting(task) => CancelCall(task);
        case CancelProbing(id) => CancelProbe(id);
        case DropLease(id) => DropHostLease(id);
      }
    }

    method PerformWorker(l: Label)
      requires portManager.Valid() && Enabled(View(), l) && FromWorker(l)
      modifies this
      ensures portManager.Valid()
      ensures View() == Next(config, old(View()), l)
    {
      hide Next;
      match l {
        case ReceiveLease => var _ := ReceiveRelease();
        case ReturnLock => var _ := BeginReturn();
        case ReturnChecked(alive) => FinishReturnHost(alive);
        case ReturnUnlock => UnlockAfterReturn();
        case ReceiveCleanup => ReceiveCleanupRequest();
        case StopDone => FinishStopContainer();
        case Reap(readings) => var _ := PartitionExpired(readings);
        case ScaleLock => var _ := BeginScaling();
        case ScaleCreated(ok) => FinishScalingSpawn(ok);
        case ScaleUnlock => UnlockAfterScaling();
      }
    }

    method PerformOther(l: Label)
      requires Valid() && Enabled(View(), l) && !FromRequest(l) && !FromWorker(l)
      modifies this, portManager, portManager.availablePorts
      ensures portManager.Valid()
      ensures View() == Next(config, old(View()), l)
    {
      hide Next, PortLaw, ContainerLaw, LeaseLaw, CapacityLaw, HealthLaw;
      match l {
        case DropHost(host) => DropHostInstance(host);
        case DropPort(port) =>
          Runs.FreedIsLive(config, View(), port);
          DropPortField(port);
        case ReceivePort => ReceivePortReturn();
        case RequeuePort => RequeuePortReturn();
        case Tick(now) => AdvanceClock(now);
        case SetFlag => StoreFlag();
        case AbortWorkers => Abort();
        case Collect => var _ := CollectAllHosts();
      }
    }

    method Perform(l: Label)
      requires Valid() && Enabled(View(), l)
      modifies this, portManager, portManager.availablePorts
      ensures Valid()
      ensures View() == Next(config, old(View()), l)
    {
      hide Next, Inv;
      InvStep(config, View(), l);
      if FromRequest(l) {
        PerformRequest(l);
      } else if FromWorker(l) {
        PerformWorker(l);
      } else {
        PerformOther(l);
      }
    }

    /** Another task takes a step. */
    method PerformForeign(me: Me, l: Label)
      requires Valid() && Enabled(View(), l) && Foreign(me, l)
      modifies this, portManager, portManager.availablePorts
      ensures Valid() && View() == Next(config, old(View()), l)
      ensures Keeps(me, old(View()), View()) && Onward(old(View()), View())
    {
      hide Next, Enabled, Inv, Keeps, Onward, Foreign;
      InvLeases(config, View());
      StepKeeps(config, View(), l, me);
      StepOnward(config, View(), l);
      Perform(l);
    }

    /** Other tasks run: any schedule of labels that are not the caller's own. */
    method Others(me: Me, schedule: seq<Label>) returns (ghost trace: seq<Label>)
      requires Valid()
      modifies this, portManager, portManager.availablePorts
      ensures Valid()
      ensures View() == Run(config, old(View()), trace)
      ensures Keeps(me, old(View()), View()) && Onward(old(View()), View())
      ensures forall l :: l in trace ==> Foreign(me, l)
    {
      hide Next, Enabled, Inv, Foreign;
      trace := [];
      for i := 0 to |schedule|
        invariant Valid()
        invariant View() == Run(config, old(View()), trace)
        invariant Keeps(me, old(View()), View()) && Onward(old(View()), View())
        invariant forall l :: l in trace ==> Foreign(me, l)
      {
        var l := schedule[i];
        if Foreign(me, l) && Enabled(View(), l) {
          ghost var before := View();
          RunSnoc(config, old(View()), trace, l);
          trace := trace + [l];
          PerformForeign(me, l);
          Composes(me, old(View()), before, View());
        }
      }
    }

    /** Waiting for the lock: whoever holds it goes on until it is released. */
    method FinishHolder(me: Me, answers: nat -> bool) returns (ghost trace: seq<Label>)
      requires Valid() && !me.Holder? && (me.Returner? ==> workersAlive && !Rechecking(lock))
      modifies this, portManager, portManager.availablePorts
      ensures Valid() && lock.Free?
      ensures View() == Run(config, old(View()), trace)
      ensures Keeps(me, old(View()), View()) && Onward(old(View()), View())
      ensures forall l :: l in trace ==> Foreign(me, l)
    {
      hide Next, Enabled, Inv, Keeps, Onward, Foreign, Run, HolderLabel, LockWork;
      ghost var s0 := View();
      Started(config, s0);
      KeepsItself(me, s0);
      trace := [];
      var n: nat := 0;
      while !lock.Free?
        invariant Valid() && View() == Run(config, s0, trace)
        invariant Keeps(me, s0, View()) && Onward(s0, View())
        invariant forall l :: l in trace ==> Foreign(me, l)
        invariant me.Returner? ==> workersAlive && !Rechecking(lock)
        decreases LockWork(lock)
      {
        ghost var before := View();
        var l := HolderLabel(lock, answers(n));
        InvLeases(config, before);
        HolderEnabled(before, answers(n));
        HolderWorks(config, before, answers(n));
        HolderIsForeign(me, lock, answers(n));
        RunSnoc(config, s0, trace, l);
        PerformForeign(me, l);
        trace := trace + [l];
        Composes(me, s0, before, View());
        if me.Returner? { ReturnerKeeps(before, View()); }
        n := n + 1;
      }
    }

    static lemma KeepsItself(me: Me, s: State)
      ensures Keeps(me, s, s)
    {
    }

    static lemma HolderIsForeign(me: Me, lock: Lock, answer: bool)
      requires !lock.Free? && !me.Holder? && (me.Returner? ==> !Rechecking(lock))
      ensures Foreign(me, HolderLabel(lock, answer))
    {
    }

    /** Waiting for the lock behind any other tasks, then behind whoever holds it when they are done. */
    method AwaitLock(me: Me, schedule: seq<Label>, answers: nat -> bool) returns (ghost trace: seq<Label>)
      requires Valid() && !me.Holder? && (me.Returner? ==> workersAlive && !Rechecking(lock))
      modifies this, portManager, portManager.availablePorts
      ensures Valid() && lock.Free?
      ensures View() == Run(config, old(View()), trace)
      ensures Keeps(me, old(View()), View()) && Onward(old(View()), View())
      ensures forall l :: l in trace ==> Foreign(me, l)
    {
      hide Next, Enabled, Inv, Keeps, Onward, Foreign, Run, HolderLabel, LockWork, Valid;
      ghost var s0 := View();
      trace := Others(me, schedule);
      ghost var s1 := View();
      if me.Returner? { ReturnerKeeps(s0, s1); }
      ghost var more := FinishHolder(me, answers);
      Composes(me, s0, s1, View());
      Joined(config, s0, trace, more);
      trace := trace + more;
    }

    /** Nobody else checks the flag in the name of a request. */
    static lemma OthersNeverCheck(me: Me, trace: seq<Label>, task: TaskId)
      requires forall l :: l in trace ==> Foreign(me, l)
      requires me == Caller(task) || me == Resting(task) || (me.Prober? && me.task == task)
               || (me.Holder? && me.lock.Spawning? && me.lock.task == task)
      ensures CheckFlag(task) !in trace
    {
      assert !Foreign(me, CheckFlag(task));
    }

    // ---- lease_host ----

    /** Up to ten health checks, fifty milliseconds apart. */
    method WaitForContainerReady(health: nat -> Probe) returns (verdict: Verdict, probes: nat, slept: nat)
      ensures verdict.Ready? ==> 1 <= probes <= MAX_PROBES && health(probes).Healthy?
      ensures !verdict.Ready? ==> probes == MAX_PROBES && !health(MAX_PROBES).Healthy?
      ensures forall i :: 1 <= i < probes ==> !health(i).Healthy?
      ensures verdict.Errored? <==> probes == MAX_PROBES && health(MAX_PROBES).Unreachable?
      ensures slept == PROBE_INTERVAL * (probes - 1)
    {
      probes, slept := 0, 0;
      for attempt := 1 to MAX_PROBES + 1
        invariant probes == attempt - 1 && slept == PROBE_INTERVAL * (if probes < MAX_PROBES then probes else MAX_PROBES - 1)
        invariant forall i :: 1 <= i < attempt ==> !health(i).Healthy?
        invariant attempt > MAX_PROBES ==> !health(MAX_PROBES).Unreachable?
      {
        probes := attempt;
        match health(attempt) {
          case Healthy =>
            return Ready, probes, slept;
          case Unhealthy =>
          case Unreachable =>
            if attempt == MAX_PROBES {
              return Errored, probes, slept;
            }
        }
        if attempt < MAX_PROBES {
          slept := slept + PROBE_INTERVAL;
        }
      }
      verdict := TimedOut;
    }

    /** The wait of a caller for the lock, unless its request is dropped while it waits. */
    method WaitForLock(task: TaskId, world: World) returns (got: bool, ghost trace: seq<Label>)
      requires Valid() && task in leases.waiting
      modifies this, portManager, portManager.availablePorts
      ensures Valid() && View() == Run(config, old(View()), trace) && Onward(old(View()), View())
      ensures CheckFlag(task) !in trace
      ensures got <==> world.dropped != Some(ForLock)
      ensures if got then lock.Free? && task in leases.waiting else Idle(View(), task)
      ensures Issued(history, task) == Issued(old(history), task)
    {
      hide Next, Inv, Run, Onward, Keeps, Issued, Foreign;
      ghost var s0 := View();
      got := world.dropped != Some(ForLock);
      if got {
        trace := AwaitLock(Caller(task), world.turns(0), (k: nat) => world.holder(0, k));
        OthersNeverCheck(Caller(task), trace, task);
        CallerKeeps(task, s0, View());
      } else {
        trace := Others(Caller(task), world.turns(0));
        OthersNeverCheck(Caller(task), trace, task);
        CallerKeeps(task, s0, View());
        InvLeases(config, View());
        Took(config, s0, trace, CancelWaiting(task));
        CancelCall(task);
        trace := trace + [CancelWaiting(task)];
      }
    }

    /** `allocate_port` inside a caller's spawn: others run first, but not in the pool. */
    method ReservePort(task: TaskId, schedule: seq<Label>)
        returns (port: Option<Port>, ghost pre: seq<Label>, ghost trace: seq<Label>)
      requires Valid() && lock == Spawning(task, NeedPort)
      modifies this, portManager, portManager.availablePorts
      ensures Valid() && View() == Run(config, old(View()), trace) && Onward(old(View()), View())
      ensures CheckFlag(task) !in trace
      ensures trace == pre + [SpawnPort]
      ensures var t := Run(config, old(View()), pre);
              && t.pool.lock == Spawning(task, NeedPort)
              && port == (if t.ports.queue == [] then None else Some(t.ports.queue[0]))
              && View() == Try(config, t, SpawnPort)
      ensures availableHosts == old(availableHosts) && leasedHosts == old(leasedHosts)
      ensures lock == if port.Some? then Spawning(task, HavePort(port.value)) else Free
      ensures port.None? ==> portManager.availablePorts.queue == []
      ensures history.issued == old(history).issued && task !in leases.waiting
    {
      hide Next, Inv, Run, Onward, Keeps, Foreign;
      ghost var s0 := View();
      pre := Others(Holder(lock), schedule);
      OthersNeverCheck(Holder(Spawning(task, NeedPort)), pre, task);
      HolderKeeps(Spawning(task, NeedPort), s0, View());
      InvLeases(config, View());
      assert View().pool == s0.pool;
      Took(config, s0, pre, SpawnPort);
      port := AllocateForSpawn();
      trace := pre + [SpawnPort];
    }

    /** `create_container` inside a caller's spawn, then the insert. */
    method CreateAndInsert(task: TaskId, port: Port, schedule: seq<Label>, docker: bool)
        returns (id: Option<LeaseId>, claim: Claim, ghost pre: seq<Label>, ghost trace: seq<Label>)
      requires Valid() && lock == Spawning(task, HavePort(port))
      modifies this, portManager, portManager.availablePorts
      ensures Valid() && View() == Run(config, old(View()), trace) && Onward(old(View()), View())
      ensures CheckFlag(task) !in trace
      ensures trace == pre + [LeaseCreated(docker)]
      ensures var t := Run(config, old(View()), pre);
              && t.pool.lock == Spawning(task, HavePort(port))
              && id == (if docker then Some(t.leases.next) else None) && claim == Claim(t.cleanup.next, port)
      ensures id.Some? <==> docker
      ensures id.Some? ==> old(nextLease) <= id.value < nextLease
      ensures id.Some? ==> id.value in leases.probing && leases.probing[id.value] == claim
      ensures id.None? ==> port in cleanup.freed
      ensures history.issued == old(history).issued + (if id.Some? then {Issue(id.value, task)} else {})
      ensures Idle(View(), task)
    {
      hide Next, Inv, Run, Onward, Keeps, Foreign;
      ghost var s0 := View();
      pre := Others(Holder(lock), schedule);
      OthersNeverCheck(Holder(Spawning(task, HavePort(port))), pre, task);
      HolderKeeps(Spawning(task, HavePort(port)), s0, View());
      InvLeases(config, View());
      assert lock == Spawning(task, HavePort(port)) && old(nextLease) <= nextLease;
      Took(config, s0, pre, LeaseCreated(docker));
      claim := Claim(nextContainer, port);
      id := FinishCallerSpawn(docker);
      trace := pre + [LeaseCreated(docker)];
    }

    /** A request dropped while it spawns: the lock is released, and its port, if it had one, is sent back. */
    method DropSpawn(task: TaskId, schedule: seq<Label>) returns (ghost trace: seq<Label>)
      requires Valid() && lock.Spawning? && lock.task == task
      modifies this, portManager, portManager.availablePorts
      ensures Valid() && View() == Run(config, old(View()), trace) && Onward(old(View()), View())
      ensures CheckFlag(task) !in trace
      ensures Idle(View(), task) && lock.Free? && history.issued == old(history).issued
      ensures availableHosts == old(availableHosts) && leasedHosts == old(leasedHosts)
      ensures old(lock).stage.HavePort? ==> GivenBack(old(portManager.View()), portManager.View(), old(lock).stage.port)
    {
      hide Next, Inv, Run, Onward, Keeps, GivenBack, PortsOnward;
      ghost var s0 := View();
      var stage := lock.stage;
      trace := CancelSpawn(task, schedule);
      if stage.HavePort? {
        ghost var s1 := View();
        PortsGoOn(s0, s1);
        ghost var more := ReturnPort(stage.port);
        GivenBackSince(s0.ports, s1.ports, View().ports, stage.port);
        Joined(config, s0, trace, more);
        trace := trace + more;
      }
    }

    method CancelSpawn(task: TaskId, schedule: seq<Label>) returns (ghost trace: seq<Label>)
      requires Valid() && lock.Spawning? && lock.task == task
      modifies this, portManager, portManager.availablePorts
      ensures Valid() && View() == Run(config, old(View()), trace) && Onward(old(View()), View())
      ensures CheckFlag(task) !in trace
      ensures Idle(View(), task) && lock.Free? && history.issued == old(history).issued
      ensures availableHosts == old(availableHosts) && leasedHosts == old(leasedHosts)
      ensures old(lock).stage.HavePort? ==> old(lock).stage.port in cleanup.freed
    {
      hide Next, Inv, Run, Onward, Keeps, Foreign;
      ghost var s0 := View();
      trace := Others(Holder(lock), schedule);
      OthersNeverCheck(Holder(s0.pool.lock), trace, task);
      HolderKeeps(s0.pool.lock, s0, View());
      InvLeases(config, View());
      assert View().pool == s0.pool;
      Took(config, s0, trace, CancelWaiting(task));
      CancelCall(task);
      trace := trace + [CancelWaiting(task)];
    }

    /** An `AllocatedPort` goes out of scope: the port of a failed spawn, or of a host being destroyed. */
    method ReturnPort(port: Port) returns (ghost trace: seq<Label>)
      requires Valid() && port in cleanup.freed
      modifies this`cleanup, portManager
      ensures Valid() && View() == Run(config, old(View()), trace) && Onward(old(View()), View())
      ensures port in portManager.channel || port in portManager.leaked
      ensures trace == [DropPort(port)]
      ensures cleanup.doomed == old(cleanup).doomed && cleanup.uncleaned == old(cleanup).uncleaned
      ensures GivenBack(old(portManager.View()), portManager.View(), port)
    {
      hide Next, Inv, Run, Onward, GivenBack;
      ghost var s0 := View();
      Started(config, s0);
      Took(config, s0, [], DropPort(port));
      Runs.FreedIsLive(config, s0, port);
      DropPortField(port);
      trace := [] + [DropPort(port)];
    }

    /** `spawn_new_host` for a caller, and the insert. */
    method SpawnAndInsert(task: TaskId, world: World) returns (r: LeaseBegun, ghost trace: seq<Label>)
      requires Valid() && lock == Spawning(task, NeedPort)
      modifies this, portManager, portManager.availablePorts
      ensures Valid() && View() == Run(config, old(View()), trace) && Onward(old(View()), View())
      ensures CheckFlag(task) !in trace
      ensures Spawned(config, old(View()), task, world, trace, r)
      ensures Idle(View(), task) && Issued(history, task) == Issued(old(history), task) + AsSet(Inserts(r))
      ensures r.Probing? ==> old(nextLease) <= r.id < nextLease && r.id in leases.probing && leases.probing[r.id] == r.claim
      ensures r.Done? ==>
                match r.outcome
                case NoAvailablePorts => portManager.availablePorts.queue == []
                case DockerFailed => !world.docker
                case Cancelled => world.dropped == Some(ForPort) || world.dropped == Some(ForDocker)
                case _ => false
    {
      hide Next, Inv, Run, Onward, Issued, GivenBack, Try, AwaitedDocker;
      ghost var s0 := View();
      if world.dropped == Some(ForPort) {
        trace := DropSpawn(task, world.turns(1));
        IssuedInserted(s0.history, history, None, task);
        return Done(Cancelled), trace;
      }
      var port;
      ghost var pre;
      port, pre, trace := ReservePort(task, world.turns(1));
      IssuedInserted(s0.history, history, None, task);
      if port.None? {
        r := Done(NoAvailablePorts);
        PortJoins(config, s0, task, world, pre, [], r);
        assert trace + [] == trace;
        return;
      }
      ghost var s1, more := View(), [];
      NextOnward(s0, s1);
      r, more := WaitForDocker(task, port.value, world);
      PortJoins(config, s0, task, world, pre, more, r);
      Joined(config, s0, trace, more);
      trace := trace + more;
    }

    method WaitForDocker(task: TaskId, port: Port, world: World) returns (r: LeaseBegun, ghost trace: seq<Label>)
      requires Valid() && lock == Spawning(task, HavePort(port))
      modifies this, portManager, portManager.availablePorts
      ensures Valid() && View() == Run(config, old(View()), trace) && Onward(old(View()), View())
      ensures CheckFlag(task) !in trace
      ensures AwaitedDocker(config, old(View()), task, port, world, trace, r)
      ensures Idle(View(), task) && Issued(history, task) == Issued(old(history), task) + AsSet(Inserts(r))
      ensures r.Probing? ==> old(nextLease) <= r.id < nextLease && r.id in leases.probing && leases.probing[r.id] == r.claim
      ensures r.Done? ==>
                || (r.outcome == DockerFailed && !world.docker)
                || (r.outcome == Cancelled && world.dropped == Some(ForDocker))
      ensures r.Done? ==> GivenBack(old(portManager.View()), portManager.View(), port)
    {
      hide Next, Inv, Run, Onward, Issued, GivenBack;
      ghost var s0 := View();
      if world.dropped == Some(ForDocker) {
        r := Done(Cancelled);
        trace := DropSpawn(task, world.turns(2));
        IssuedInserted(s0.history, history, None, task);
      } else {
        r, trace := AwaitDocker(task, port, world);
      }
    }

    /** The wait for Docker inside a caller's spawn, and both arms after it. */
    method AwaitDocker(task: TaskId, port: Port, world: World) returns (r: LeaseBegun, ghost trace: seq<Label>)
      requires Valid() && lock == Spawning(task, HavePort(port))
      modifies this, portManager, portManager.availablePorts
      ensures Valid() && View() == Run(config, old(View()), trace) && Onward(old(View()), View())
      ensures CheckFlag(task) !in trace
      ensures world.dropped != Some(ForDocker) ==> AwaitedDocker(config, old(View()), task, port, world, trace, r)
      ensures Idle(View(), task) && Issued(history, task) == Issued(old(history), task) + AsSet(Inserts(r))
      ensures r == Done(DockerFailed) || r.Probing?
      ensures if r.Probing?
              then old(nextLease) <= r.id < nextLease && r.id in leases.probing && leases.probing[r.id] == r.claim
              else !world.docker && GivenBack(old(portManager.View()), portManager.View(), port)
    {
      hide Next, Inv, Run, Onward, Issued, GivenBack, PortsOnward;
      ghost var s0 := View();
      var id, claim;
      ghost var pre, rest;
      id, claim, pre, trace := CreateAndInsert(task, port, world.turns(2), world.docker);
      rest := [LeaseCreated(world.docker)];
      IssuedInserted(s0.history, history, id, task);
      if world.docker {
        r := Probing(id.value, claim);
      } else {
        ghost var s1 := View();
        PortsGoOn(s0, s1);
        ghost var more := ReturnPort(port);
        GivenBackSince(s0.ports, s1.ports, View().ports, port);
        Joined(config, s0, trace, more);
        rest := rest + more;
        assert trace + more == pre + rest;
        trace := trace + more;
        r := Done(DockerFailed);
      }
      if world.dropped != Some(ForDocker) { DockerJoins(config, s0, task, port, world, pre, rest, r); }
    }

    static lemma IssuedInserted(h: History, h': History, id: Option<LeaseId>, task: TaskId)
      requires h'.issued == h.issued + (if id.Some? then {Issue(id.value, task)} else {})
      ensures Issued(h', task) == Issued(h, task) + AsSet(id)
    {
      if id.Some? { IssuedAdds(h, h', id.value, task, task); }
    }

    /** `lease_host` from the moment it has the lock up to the insert. */
    method LeaseWithLock(task: TaskId, world: World) returns (r: LeaseBegun, ghost trace: seq<Label>)
      requires Valid() && Enabled(View(), LeaseLock(task))
      modifies this, portManager, portManager.availablePorts
      ensures Valid() && View() == Run(config, old(View()), trace) && Onward(old(View()), View())
      ensures CheckFlag(task) !in trace
      ensures Locked(config, old(View()), task, world, trace, r)
      ensures Idle(View(), task) && Issued(history, task) == Issued(old(history), task) + AsSet(Inserts(r))
      ensures r.Probing? ==> old(nextLease) <= r.id < nextLease && r.id in leases.probing && leases.probing[r.id] == r.claim
      ensures r.Done? ==>
                match r.outcome
                case Leased(id, claim) => old(nextLease) <= id < nextLease && id in leases.live && leases.live[id] == claim
                case MaxInstancesReached => |leasedHosts| >= config.maxInstances && availableHosts == []
                case NoAvailablePorts => portManager.availablePorts.queue == []
                case DockerFailed => !world.docker
                case Cancelled => world.dropped == Some(ForPort) || world.dropped == Some(ForDocker)
                case _ => false
    {
      hide Next, Inv, Run, Onward, Issued, Spawned, Locked;
      ghost var s0 := View();
      Started(config, s0);
      Took(config, s0, [], LeaseLock(task));
      var start := TakeAvailable(task);
      IssuedInserted(s0.history, history, if start.Inserted? then Some(start.id) else None, task);
      trace := [] + [LeaseLock(task)];
      assert trace == [LeaseLock(task)];
      match start {
        case Inserted(id, claim, tested) =>
          r := if tested then Done(Leased(id, claim)) else Probing(id, claim);
          LockedReuses(config, s0, task, world, r);
        case AtCapacity =>
          r := Done(MaxInstancesReached);
          LockedRefuses(config, s0, task, world);
        case MustSpawn =>
          ghost var s1 := View();
          ghost var more;
          r, more := SpawnAndInsert(task, world);
          NextOnward(s0, s1);
          Joined(config, s0, trace, more);
          LockedSpawns(config, s0, task, world, more, r);
          trace := trace + more;
      }
    }

    /** `lease_host` up to the point where a host is inserted: the flag check, the lock, and if need be
        a spawn under the lock. Other tasks run at each wait. */
    method BeginLease(task: TaskId, world: World) returns (r: LeaseBegun, ghost trace: seq<Label>)
      requires Valid() && Enabled(View(), CheckFlag(task))
      modifies this, portManager, portManager.availablePorts
      ensures Valid() && View() == Run(config, old(View()), trace) && Onward(old(View()), View())
      ensures Begun(config, old(View()), task, world, trace, r) && CheckFlag(task) !in trace[1..]
      ensures r == Done(ShuttingDown) <==> old(shutdownFlag)
      ensures Idle(View(), task) && Issued(history, task) == Issued(old(history), task) + AsSet(Inserts(r))
      ensures r.Probing? ==> old(nextLease) <= r.id < nextLease && r.id in leases.probing && leases.probing[r.id] == r.claim
      ensures r.Done? ==>
                match r.outcome
                case Leased(id, claim) => old(nextLease) <= id < nextLease && id in leases.live && leases.live[id] == claim
                case ShuttingDown => old(shutdownFlag) && View() == old(View())
                case MaxInstancesReached => |leasedHosts| >= config.maxInstances && availableHosts == []
                case NoAvailablePorts => portManager.availablePorts.queue == []
                case DockerFailed => !world.docker
                case Cancelled => world.dropped.Some? && world.dropped != Some(ForProbe)
                case _ => false
    {
      hide Next, Inv, Run, Onward, Issued, Locked;
      ghost var s0 := View();
      Started(config, s0);
      Took(config, s0, [], CheckFlag(task));
      var rejected := CheckShutdown(task);
      trace := [] + [CheckFlag(task)];
      if rejected {
        return Done(ShuttingDown), trace;
      }
      ghost var more;
      var got;
      got, more := WaitForLock(task, world);
      Joined(config, s0, trace, more);
      trace := trace + more;
      Waited(task, more);
      if !got {
        return Done(Cancelled), trace;
      }
      ghost var s1 := View();
      NextOnward(s0, s1);
      r, more := LeaseWithLock(task, world);
      LockJoins(config, s0, task, world, trace, more, r);
      Joined(config, s0, trace, more);
      trace := trace + more;
    }

    /** `lease_host` after the insert of an untested host: probe it with the lock released, then relock. */
    method ProbeLease(task: TaskId, id: LeaseId, claim: Claim, world: World)
        returns (outcome: LeaseOutcome, discarded: Option<Claim>, probes: nat, slept: nat, ghost trace: seq<Label>)
      requires Valid() && id in leases.probing && leases.probing[id] == claim && Idle(View(), task)
      modifies this, portManager, portManager.availablePorts
      ensures Valid() && View() == Run(config, old(View()), trace) && Onward(old(View()), View())
      ensures CheckFlag(task) !in trace
      ensures Answered(config, old(View()), id, claim, world, trace, LeaseResult(outcome, Some(id), discarded, probes, slept))
      ensures discarded.Some? ==>
                && Delivered(cleanupRequests, cleanup.uncleaned, discarded.value.container)
                && GivenBack(old(portManager.View()), portManager.View(), discarded.value.port)
      ensures Idle(View(), task) && Issued(history, task) == Issued(old(history), task)
      ensures 1 <= probes <= MAX_PROBES && slept == PROBE_INTERVAL * (probes - 1)
      ensures forall i :: 1 <= i < probes ==> !world.health(i).Healthy?
      ensures outcome.Cancelled? <==> world.dropped == Some(ForProbe)
      ensures match outcome
              case Leased(i, c) =>
                i == id && c == claim && id in leases.live && leases.live[id] == claim && world.health(probes).Healthy?
              case InvalidLease => collected && id !in leasedHosts && world.health(probes).Healthy?
              case ContainerNotReady => id !in leasedHosts && probes == MAX_PROBES && world.health(probes).Unhealthy?
              case HealthCheckFailed => id !in leasedHosts && probes == MAX_PROBES && world.health(probes).Unreachable?
              case Cancelled => id in leases.abandoned
              case _ => false
      ensures discarded.Some? ==> outcome.ContainerNotReady? || outcome.HealthCheckFailed?
      ensures discarded.Some? ==>
                discarded.value.container in history.failed && discarded.value.container !in old(history).failed
      ensures (outcome.ContainerNotReady? || outcome.HealthCheckFailed?) && !collected ==> discarded == Some(claim)
    {
      hide Next, Inv, Run, Onward, Keeps, Issued, Idle, Foreign, GivenBack, PortsOnward, Delivered;
      ghost var s0 := View();
      var verdict;
      verdict, probes, slept := WaitForContainerReady(world.health);
      ghost var more;
      if world.dropped == Some(ForProbe) {
        trace := Others(Prober(id, task), world.turns(3));
        OthersNeverCheck(Prober(id, task), trace, task);
        ProberKeeps(id, task, s0, View());
        outcome, discarded := Cancelled, None;
        more := AbandonProbing(id, task);
      } else {
        trace := AwaitLock(Prober(id, task), world.turns(3), (k: nat) => world.holder(1, k));
        OthersNeverCheck(Prober(id, task), trace, task);
        ProberKeeps(id, task, s0, View());
        FailedOnward(s0, View());
        ghost var s1 := View();
        PortsGoOn(s0, s1);
        outcome, discarded, more := Relock(task, id, claim, verdict);
        RelockTaken(s1, id, claim, verdict, world, more, LeaseResult(outcome, Some(id), discarded, probes, slept));
        RelockJoins(config, s0, id, claim, world, trace, more, LeaseResult(outcome, Some(id), discarded, probes, slept));
        if discarded.Some? { GivenBackSince(s0.ports, s1.ports, View().ports, discarded.value.port); }
      }
      Joined(config, s0, trace, more);
      trace := trace + more;
    }

    lemma RelockTaken(s: State, id: LeaseId, claim: Claim, verdict: Verdict, world: World, trace: seq<Label>, r: LeaseResult)
      requires s.pool.lock.Free? && id in s.leases.probing && ProbedAs(world.health, r.probes, r.slept)
      requires verdict.Ready? <==> world.health(r.probes).Healthy?
      requires verdict.Errored? <==> world.health(r.probes).Unreachable?
      requires RelockAs(s, id, claim, verdict, trace, r.outcome, r.discarded)
      ensures Relocked(config, s, id, claim, world, trace, 0, r)
    {
      assert trace[..0] == [];
    }

    method AbandonProbing(id: LeaseId, task: TaskId) returns (ghost trace: seq<Label>)
      requires Valid() && id in leases.probing && Idle(View(), task)
      modifies this`leases
      ensures Valid() && View() == Run(config, old(View()), trace) && Onward(old(View()), View())
      ensures trace == [CancelProbing(id)]
      ensures id in leases.abandoned && Idle(View(), task)
    {
      hide Next, Inv, Run, Onward;
      Started(config, View());
      Took(config, View(), [], CancelProbing(id));
      CancelProbe(id);
      trace := [] + [CancelProbing(id)];
    }

    /** The arms after a probe. */
    method Relock(task: TaskId, id: LeaseId, claim: Claim, verdict: Verdict)
        returns (outcome: LeaseOutcome, discarded: Option<Claim>, ghost trace: seq<Label>)
      requires Valid() && lock.Free? && id in leases.probing && leases.probing[id] == claim && Idle(View(), task)
      modifies this`leasedHosts, this`leases, this`cleanup, this`cleanupRequests, this`history, portManager
      ensures Valid() && View() == Run(config, old(View()), trace) && Onward(old(View()), View())
      ensures CheckFlag(task) !in trace
      ensures RelockAs(old(View()), id, claim, verdict, trace, outcome, discarded)
      ensures discarded.Some? ==>
                && Delivered(cleanupRequests, cleanup.uncleaned, discarded.value.container)
                && GivenBack(old(portManager.View()), portManager.View(), discarded.value.port)
      ensures Idle(View(), task) && Issued(history, task) == Issued(old(history), task)
      ensures match outcome
              case Leased(i, c) => i == id && c == claim && id in leases.live && leases.live[id] == claim && verdict.Ready?
              case InvalidLease => collected && id !in leasedHosts && verdict.Ready?
              case ContainerNotReady => id !in leasedHosts && verdict.TimedOut?
              case HealthCheckFailed => id !in leasedHosts && verdict.Errored?
              case _ => false
      ensures discarded.Some? ==> outcome.ContainerNotReady? || outcome.HealthCheckFailed?
      ensures discarded.Some? ==>
                discarded.value.container in history.failed && discarded.value.container !in old(history).failed
      ensures (outcome.ContainerNotReady? || outcome.HealthCheckFailed?) && !collected ==> discarded == Some(claim)
    {
      hide Next, Inv, Run, Onward, Issued, Valid, GivenBack, Delivered;
      discarded := None;
      if verdict.Ready? {
        outcome, trace := HandOut(id, claim);
      } else {
        ghost var before := history;
        discarded, trace := GiveUpProbe(id, claim);
        IssuedInserted(before, history, None, task);
        outcome := if verdict.Errored? then HealthCheckFailed else ContainerNotReady;
      }
    }

    /** The arm after a passed probe. */
    method HandOut(id: LeaseId, claim: Claim) returns (outcome: LeaseOutcome, ghost trace: seq<Label>)
      requires Valid() && Enabled(View(), ProbePassed(id)) && leases.probing[id] == claim
      modifies this`leasedHosts, this`leases
      ensures Valid() && View() == Run(config, old(View()), trace) && Onward(old(View()), View())
      ensures trace == [ProbePassed(id)] && (outcome.Leased? <==> id in old(leasedHosts))
      ensures leases.waiting == old(leases).waiting
      ensures outcome == Leased(id, claim) || outcome == InvalidLease
      ensures if outcome.Leased? then id in leases.live && leases.live[id] == claim else collected && id !in leasedHosts
    {
      hide Next, Inv, Run, Onward;
      RelockMissesIffCollected(config, View(), id);
      Started(config, View());
      Took(config, View(), [], ProbePassed(id));
      var found := ConfirmProbe(id);
      trace := [] + [ProbePassed(id)];
      outcome := if found then Leased(id, claim) else InvalidLease;
    }

    /** The two failing arms after a probe: the host is removed and dropped, container then port. */
    method GiveUpProbe(id: LeaseId, claim: Claim) returns (discarded: Option<Claim>, ghost trace: seq<Label>)
      requires Valid() && Enabled(View(), ProbeFailed(id)) && leases.probing[id] == claim
      modifies this`leasedHosts, this`leases, this`cleanup, this`cleanupRequests, this`history, portManager
      ensures Valid() && View() == Run(config, old(View()), trace) && Onward(old(View()), View())
      ensures trace != [] && trace[0] == ProbeFailed(id) && (forall task :: CheckFlag(task) !in trace)
      ensures discarded == if id in old(leasedHosts) then Some(ClaimOf(old(leasedHosts)[id])) else None
      ensures discarded.Some? ==>
                && Delivered(cleanupRequests, cleanup.uncleaned, discarded.value.container)
                && GivenBack(old(portManager.View()), portManager.View(), discarded.value.port)
      ensures id !in leasedHosts && leases.waiting == old(leases).waiting && history.issued == old(history).issued
      ensures discarded.Some? ==>
                discarded.value.container in history.failed && discarded.value.container !in old(history).failed
      ensures !collected ==> discarded == Some(claim)
    {
      hide Next, Inv, Run, Onward, GivenBack, Delivered;
      ghost var s0 := View();
      if id in leasedHosts {
        DiscardIsNew(config, s0, id);
      } else {
        RelockMissesIffCollected(config, s0, id);
      }
      Started(config, s0);
      Took(config, s0, [], ProbeFailed(id));
      var deadHost := DiscardProbed(id);
      trace := [] + [ProbeFailed(id)];
      discarded := None;
      if deadHost.Some? {
        discarded := Some(ClaimOf(deadHost.value));
        ghost var more := DestroyHost(deadHost.value);
        Joined(config, s0, trace, more);
        trace := trace + more;
      }
    }

    /** Both destructors of a host, in their order. */
    method DestroyHost(host: Host) returns (ghost trace: seq<Label>)
      requires Valid() && host in cleanup.doomed
      modifies this`cleanup, this`cleanupRequests, portManager
      ensures Valid() && View() == Run(config, old(View()), trace) && Onward(old(View()), View())
      ensures host.port in portManager.channel || host.port in portManager.leaked
      ensures trace == [DropHost(host), DropPort(host.port)]
      ensures GivenBack(old(portManager.View()), portManager.View(), host.port)
      ensures Delivered(cleanupRequests, cleanup.uncleaned, host.container)
      ensures old(cleanupRequests) <= cleanupRequests && old(cleanup).uncleaned <= cleanup.uncleaned
      ensures cleanup.doomed == old(cleanup).doomed - multiset{host}
    {
      hide Next, Inv, Run, Onward, Valid, GivenBack;
      ghost var s0 := View();
      trace := SendForCleanup(host);
      ghost var more := ReturnPort(host.port);
      Joined(config, s0, trace, more);
      trace := trace + more;
    }

    method SendForCleanup(host: Host) returns (ghost trace: seq<Label>)
      requires Valid() && host in cleanup.doomed
      modifies this`cleanup, this`cleanupRequests
      ensures Valid() && View() == Run(config, old(View()), trace) && Onward(old(View()), View())
      ensures trace == [DropHost(host)]
      ensures host.port in cleanup.freed && cleanup.doomed == old(cleanup).doomed - multiset{host}
      ensures Delivered(cleanupRequests, cleanup.uncleaned, host.container)
      ensures old(cleanupRequests) <= cleanupRequests && old(cleanup).uncleaned <= cleanup.uncleaned
    {
      hide Next, Inv, Run, Onward;
      ghost var s0 := View();
      Started(config, s0);
      Took(config, s0, [], DropHost(host));
      DropHostInstance(host);
      trace := [] + [DropHost(host)];
    }

    /** `lease_host`, whole. Any schedule of other tasks may run at each of its waits. */
    method LeaseHost(task: TaskId, world: World)
        returns (outcome: LeaseOutcome, mine: Option<LeaseId>, discarded: Option<Claim>,
                 probes: nat, slept: nat, ghost trace: seq<Label>)
      requires Valid() && Enabled(View(), CheckFlag(task))
      modifies this, portManager, portManager.availablePorts
      ensures Valid() && View() == Run(config, old(View()), trace) && Onward(old(View()), View())
      ensures LeaseAs(config, old(View()), task, world, trace, LeaseResult(outcome, mine, discarded, probes, slept))
      // The call inserts `mine` and nothing else; what is left of it is a live lease, nothing, or, if the
      // request was dropped while probing, an entry nobody will give back.
      ensures Idle(View(), task) && Issued(history, task) == Issued(old(history), task) + AsSet(mine)
      ensures mine.Some? ==> old(nextLease) <= mine.value < nextLease
      ensures mine.Some? && !outcome.Leased? && !outcome.Cancelled? ==> mine.value !in leasedHosts
      ensures mine.Some? && outcome.Cancelled? ==> mine.value in leases.abandoned && world.dropped == Some(ForProbe)
      // A lease that is handed out is live, and if it was probed its last probe answered.
      ensures outcome.Leased? ==>
                mine == Some(outcome.id) && outcome.id in leases.live && leases.live[outcome.id] == outcome.claim
      ensures outcome.Leased? && probes > 0 ==> world.health(probes).Healthy?
      ensures probes <= MAX_PROBES && slept == PROBE_INTERVAL * (if probes > 0 then probes - 1 else 0)
      // Which failures are possible when.
      ensures outcome.Cancelled? ==> world.dropped.Some?
      ensures outcome.ShuttingDown? <==> old(shutdownFlag)
      ensures outcome.MaxInstancesReached? ==> |leasedHosts| >= config.maxInstances && availableHosts == []
      ensures outcome.NoAvailablePorts? ==> portManager.availablePorts.queue == []
      ensures outcome.DockerFailed? ==> !world.docker
      ensures outcome.InvalidLease? ==> collected
      ensures outcome.ContainerNotReady? ==> probes == MAX_PROBES && world.health(probes).Unhealthy?
      ensures outcome.HealthCheckFailed? ==> probes == MAX_PROBES && world.health(probes).Unreachable?
      ensures (outcome.ContainerNotReady? || outcome.HealthCheckFailed?) && !collected ==> discarded.Some?
      ensures discarded.Some? ==> outcome.ContainerNotReady? || outcome.HealthCheckFailed?
      ensures discarded.Some? ==>
                && Delivered(cleanupRequests, cleanup.uncleaned, discarded.value.container)
                && GivenBack(old(portManager.View()), portManager.View(), discarded.value.port)
      ensures discarded.Some? ==>
                discarded.value.container in history.failed && discarded.value.container !in old(history).failed
    {
      hide Next, Inv, Run, Onward, Issued, Begun, Answered, LeaseAs, GivenBack, PortsOnward, Delivered;
      ghost var s0 := View();
      var begun;
      begun, trace := BeginLease(task, world);
      mine, discarded, probes, slept := Inserts(begun), None, 0, 0;
      match begun {
        case Done(o) =>
          outcome := o;
          CallDone(config, s0, task, world, trace, o);
        case Probing(id, claim) =>
          FailedOnward(s0, View());
          ghost var more;
          ghost var mid := View();
          PortsGoOn(s0, mid);
          outcome, discarded, probes, slept, more := ProbeLease(task, id, claim, world);
          CallJoins(config, s0, task, world, trace, more, id, claim,
                    LeaseResult(outcome, mine, discarded, probes, slept));
          if discarded.Some? { GivenBackSince(s0.ports, mid.ports, View().ports, discarded.value.port); }
          NextOnward(mid, View());
          Joined(config, s0, trace, more);
          trace := trace + more;
      }
    }

    // ---- run_scaling_policy ----

    /** One turn of the scaling loop: a spawn with the lock held, other tasks running at both its waits. */
    method SpawnForScaling(docker: bool, first: seq<Label>, second: seq<Label>)
        returns (port: Option<Port>, ghost trace: seq<Label>)
      requires Valid() && lock.Scaling? && lock.left > 0 && lock.stage.NeedPort?
      modifies this, portManager, portManager.availablePorts
      ensures Valid() && View() == Run(config, old(View()), trace) && Onward(old(View()), View())
      ensures SpawnTried(config, old(View()), trace, docker, port)
      ensures lock == Scaling(old(lock).left - 1, NeedPort) && leasedHosts == old(leasedHosts)
      ensures if port.Some? && docker
              then exists h :: availableHosts == old(availableHosts) + [h] && h.port == port.value && !h.tested
              else availableHosts == old(availableHosts)
      ensures port.Some? && !docker ==> GivenBack(old(portManager.View()), portManager.View(), port.value)
    {
      hide Next, Inv, Run, Onward, Keeps, GivenBack, PortsOnward, SpawnTried, Try;
      ghost var s0 := View();
      ghost var pre, mid, more;
      port, pre, trace := ReserveScalingPort(first);
      if port.None? {
        RefusedTurn(config, s0, pre, docker);
      } else {
        ghost var s1 := View();
        PortsGoOn(s0, s1);
        mid, more := AnswerScaling(port.value, docker, second);
        GrantedTurn(config, s0, pre, mid, if docker then [] else [DropPort(port.value)], docker, port.value);
        if !docker { GivenBackSince(s0.ports, s1.ports, View().ports, port.value); }
        Joined(config, s0, trace, more);
        trace := trace + more;
      }
    }

    /** Docker's answer to a spawn of the scaling task, and if it failed the return of its port. */
    method AnswerScaling(port: Port, docker: bool, schedule: seq<Label>)
        returns (ghost pre: seq<Label>, ghost trace: seq<Label>)
      requires Valid() && lock.Scaling? && lock.left > 0 && lock.stage == HavePort(port)
      modifies this, portManager, portManager.availablePorts
      ensures Valid() && View() == Run(config, old(View()), trace) && Onward(old(View()), View())
      ensures trace == pre + [ScaleCreated(docker)] + if docker then [] else [DropPort(port)]
      ensures Run(config, old(View()), pre).pool.lock == old(lock)
      ensures lock == Scaling(old(lock).left - 1, NeedPort) && leasedHosts == old(leasedHosts)
      ensures if docker then exists h :: availableHosts == old(availableHosts) + [h] && h.port == port && !h.tested
              else availableHosts == old(availableHosts)
      ensures !docker ==> GivenBack(old(portManager.View()), portManager.View(), port)
    {
      hide Next, Inv, Run, Onward, Keeps, GivenBack, PortsOnward;
      ghost var s0 := View();
      pre, trace := CreateForScaling(port, docker, schedule);
      if docker {
        assert trace + [] == trace;
      } else {
        ghost var s1 := View();
        PortsGoOn(s0, s1);
        ghost var more := ReturnPort(port);
        GivenBackSince(s0.ports, s1.ports, View().ports, port);
        Joined(config, s0, trace, more);
        trace := trace + more;
      }
    }

    method ReserveScalingPort(schedule: seq<Label>)
        returns (port: Option<Port>, ghost pre: seq<Label>, ghost trace: seq<Label>)
      requires Valid() && lock.Scaling? && lock.left > 0 && lock.stage.NeedPort?
      modifies this, portManager, portManager.availablePorts
      ensures Valid() && View() == Run(config, old(View()), trace) && Onward(old(View()), View())
      ensures trace == pre + [SpawnPort]
      ensures var t := Run(config, old(View()), pre);
              && t.pool.lock == old(lock)
              && port == (if t.ports.queue == [] then None else Some(t.ports.queue[0]))
              && View() == Try(config, t, SpawnPort)
      ensures availableHosts == old(availableHosts) && leasedHosts == old(leasedHosts)
      ensures lock == if port.Some? then Scaling(old(lock).left, HavePort(port.value))
                      else Scaling(old(lock).left - 1, NeedPort)
    {
      hide Next, Inv, Run, Onward, Keeps;
      ghost var s0 := View();
      pre := Others(Holder(lock), schedule);
      HolderKeeps(s0.pool.lock, s0, View());
      assert View().pool == s0.pool;
      Took(config, s0, pre, SpawnPort);
      port := AllocateForSpawn();
      trace := pre + [SpawnPort];
    }

    method CreateForScaling(port: Port, docker: bool, schedule: seq<Label>)
        returns (ghost pre: seq<Label>, ghost trace: seq<Label>)
      requires Valid() && lock.Scaling? && lock.left > 0 && lock.stage == HavePort(port)
      modifies this, portManager, portManager.availablePorts
      ensures Valid() && View() == Run(config, old(View()), trace) && Onward(old(View()), View())
      ensures trace == pre + [ScaleCreated(docker)]
      ensures Run(config, old(View()), pre).pool.lock == old(lock)
      ensures lock == Scaling(old(lock).left - 1, NeedPort) && leasedHosts == old(leasedHosts)
      ensures if docker then exists h :: availableHosts == old(availableHosts) + [h] && h.port == port && !h.tested
              else availableHosts == old(availableHosts) && port in cleanup.freed
    {
      hide Next, Inv, Run, Onward, Keeps;
      ghost var s0 := View();
      pre := Others(Holder(lock), schedule);
      HolderKeeps(s0.pool.lock, s0, View());
      assert View().pool == s0.pool;
      Took(config, s0, pre, ScaleCreated(docker));
      FinishScalingSpawn(docker);
      trace := pre + [ScaleCreated(docker)];
      if docker {
        var n := |availableHosts| - 1;
        assert availableHosts == old(availableHosts) + [availableHosts[n]];
      }
    }

    /** The scaling loop: as many spawn attempts as hosts were missing, and what each was granted. */
    method ScaleUp(needed: nat, docker: nat -> bool, turns: (nat, nat) -> seq<Label>)
        returns (granted: seq<Option<Port>>, ghost log: seq<seq<Label>>, ghost trace: seq<Label>)
      requires Valid() && lock == Scaling(needed, NeedPort)
      modifies this, portManager, portManager.availablePorts
      ensures Valid() && View() == Run(config, old(View()), trace) && Onward(old(View()), View())
      ensures trace == Concat(log) && ScaledAs(config, old(View()), docker, log, granted) && |granted| == needed
      ensures lock == Scaling(0, NeedPort) && workersAlive
      ensures leasedHosts == old(leasedHosts) && old(availableHosts) <= availableHosts
      ensures OnPorts(availableHosts[|old(availableHosts)|..], Made(granted, docker))
      ensures AllGivenBack(old(portManager.View()), portManager.View(), Unmade(granted, docker))
    {
      hide Next, Inv, Run, Onward, Keeps, GivenBack, PortsOnward, AllGivenBack, SpawnTried, ScaledAs, Concat,
           Made, Unmade, OnPorts;
      ghost var s0 := View();
      granted, log, trace := [], [], [];
      ScalingStarts(s0, docker);
      for i := 0 to needed
        invariant Valid() && View() == Run(config, s0, trace) && Onward(s0, View())
        invariant trace == Concat(log) && ScaledAs(config, s0, docker, log, granted) && |granted| == |log| == i
        invariant lock == Scaling(needed - i, NeedPort) && leasedHosts == s0.pool.leased
        invariant s0.pool.available <= availableHosts
        invariant OnPorts(availableHosts[|s0.pool.available|..], Made(granted, docker))
        invariant AllGivenBack(s0.ports, View().ports, Unmade(granted, docker))
      {
        var n: nat := i;
        ghost var s1, more := View(), [];
        var port;
        port, more := SpawnForScaling(docker(n), turns(n, 0), turns(n, 1));
        PortsGoOn(s0, s1);
        PortsGoOn(s1, View());
        OneMoreGranted(granted, docker, port);
        OneMoreTried(config, s0, docker, log, granted, more, port);
        OneMoreSegment(config, s0, log, more);
        OneMoreGivenBack(s0.ports, s1.ports, View().ports, Unmade(granted, docker), if docker(n) then None else port);
        OneMoreOnPorts(s0.pool.available, s1.pool.available, availableHosts, Made(granted, docker),
                       if docker(n) then port else None);
        Joined(config, s0, trace, more);
        trace := trace + more;
        log := log + [more];
        granted := granted + [port];
      }
      InvLeases(config, View());
    }

    static lemma OneMoreOnPorts(start: seq<Host>, before: seq<Host>, after: seq<Host>, ports: seq<Port>, port: Option<Port>)
      requires start <= before && OnPorts(before[|start|..], ports)
      requires if port.Some? then exists h :: after == before + [h] && h.port == port.value && !h.tested else after == before
      ensures start <= after && OnPorts(after[|start|..], ports + AsSeq(port))
    {
      if port.Some? {
        var h :| after == before + [h] && h.port == port.value && !h.tested;
        assert after[|start|..] == before[|start|..] + [h];
      } else {
        assert ports + AsSeq(port) == ports;
      }
    }

    lemma ScalingStarts(s: State, docker: nat -> bool)
      ensures Run(config, s, []) == s && Onward(s, s) && Concat([]) == []
      ensures ScaledAs(config, s, docker, [], []) && AllGivenBack(s.ports, s.ports, Unmade([], docker))
      ensures OnPorts(s.pool.available[|s.pool.available|..], Made([], docker))
    {
      Started(config, s);
      NoneTried(config, s, docker);
    }

    /** The scaling task, the lock held from the count to the last attempt. */
    method RunScalingPolicy(docker: nat -> bool, turns: (nat, nat) -> seq<Label>)
        returns (granted: seq<Option<Port>>, ghost log: seq<seq<Label>>, ghost trace: seq<Label>)
      requires Valid() && lock.Free? && workersAlive
      modifies this, portManager, portManager.availablePorts
      ensures Valid() && View() == Run(config, old(View()), trace) && Onward(old(View()), View())
      ensures lock.Free? && workersAlive
      // As many attempts as hosts were missing; each takes its turn at the ports, then Docker answers it.
      ensures var total := |old(leasedHosts)| + |old(availableHosts)|;
              |granted| == if total < config.minInstances then config.minInstances - total else 0
      ensures trace == [ScaleLock] + Concat(log) + if granted == [] then [] else [ScaleUnlock]
      ensures ScaledAs(config, Run(config, old(View()), [ScaleLock]), docker, log, granted)
      // The attempts that Docker answered add hosts, in order; the others that got a port give it back.
      ensures leasedHosts == old(leasedHosts) && old(availableHosts) <= availableHosts
      ensures OnPorts(availableHosts[|old(availableHosts)|..], Made(granted, docker))
      ensures AllGivenBack(old(portManager.View()), portManager.View(), Unmade(granted, docker))
      ensures |availableHosts| + |Unmade(granted, docker)| + Refused(granted) == |old(availableHosts)| + |granted|
      // With no refusal and no failure the pool is filled up.
      ensures (forall i: nat :: i < |granted| ==> granted[i].Some? && docker(i)) ==>
                var total := |old(leasedHosts)| + |old(availableHosts)|;
                |leasedHosts| + |availableHosts| == if total < config.minInstances then config.minInstances else total
    {
      hide Next, Inv, Run, Onward, Keeps, GivenBack, PortsOnward, AllGivenBack, ScaledAs, Concat, Made, Unmade, Refused;
      ghost var s0 := View();
      granted, log, trace := BeginOrSkip(docker, turns);
      AttemptsAddUp(granted, docker);
      if forall i: nat :: i < |granted| ==> granted[i].Some? && docker(i) { AllMade(granted, docker); }
    }

    method BeginOrSkip(docker: nat -> bool, turns: (nat, nat) -> seq<Label>)
        returns (granted: seq<Option<Port>>, ghost log: seq<seq<Label>>, ghost trace: seq<Label>)
      requires Valid() && lock.Free? && workersAlive
      modifies this, portManager, portManager.availablePorts
      ensures Valid() && View() == Run(config, old(View()), trace) && Onward(old(View()), View())
      ensures lock.Free? && workersAlive
      ensures var total := |old(leasedHosts)| + |old(availableHosts)|;
              |granted| == if total < config.minInstances then config.minInstances - total else 0
      ensures trace == [ScaleLock] + Concat(log) + if granted == [] then [] else [ScaleUnlock]
      ensures ScaledAs(config, Run(config, old(View()), [ScaleLock]), docker, log, granted)
      ensures leasedHosts == old(leasedHosts) && old(availableHosts) <= availableHosts
      ensures OnPorts(availableHosts[|old(availableHosts)|..], Made(granted, docker))
      ensures AllGivenBack(old(portManager.View()), portManager.View(), Unmade(granted, docker))
    {
      hide Next, Inv, Run, Onward, Keeps, GivenBack, PortsOnward, AllGivenBack, ScaledAs, Concat, Made, Unmade, OnPorts;
      ghost var s0 := View();
      Started(config, s0);
      Took(config, s0, [], ScaleLock);
      var needed := BeginScaling();
      ghost var s1 := View();
      trace := [] + [ScaleLock];
      assert trace == [ScaleLock];
      ScalingStarts(s1, docker);
      granted, log := [], [];
      if needed > 0 {
        ghost var more;
        granted, log, more := ScaleUpAndUnlock(needed, docker, turns);
        Joined(config, s0, trace, more);
        trace := trace + more;
      }
    }

    method ScaleUpAndUnlock(needed: nat, docker: nat -> bool, turns: (nat, nat) -> seq<Label>)
        returns (granted: seq<Option<Port>>, ghost log: seq<seq<Label>>, ghost trace: seq<Label>)
      requires Valid() && lock == Scaling(needed, NeedPort)
      modifies this, portManager, portManager.availablePorts
      ensures Valid() && View() == Run(config, old(View()), trace) && Onward(old(View()), View())
      ensures trace == Concat(log) + [ScaleUnlock]
      ensures ScaledAs(config, old(View()), docker, log, granted) && |granted| == needed
      ensures lock.Free? && workersAlive && leasedHosts == old(leasedHosts) && old(availableHosts) <= availableHosts
      ensures OnPorts(availableHosts[|old(availableHosts)|..], Made(granted, docker))
      ensures AllGivenBack(old(portManager.View()), portManager.View(), Unmade(granted, docker))
    {
      hide Next, Inv, Run, Onward, AllGivenBack, ScaledAs, Concat, Made, Unmade, OnPorts;
      ghost var s0 := View();
      granted, log, trace := ScaleUp(needed, docker, turns);
      Took(config, s0, trace, ScaleUnlock);
      UnlockAfterScaling();
      trace := trace + [ScaleUnlock];
    }

    // ---- reap_expired_hosts ----

    /** A list of hosts goes out of scope: each is destroyed, in order. */
    method DestroyAll(hosts: seq<Host>) returns (ghost trace: seq<Label>)
      requires Valid() && multiset(hosts) <= cleanup.doomed
      modifies this`cleanup, this`cleanupRequests, portManager
      ensures Valid() && View() == Run(config, old(View()), trace) && Onward(old(View()), View())
      ensures AllDelivered(cleanupRequests, cleanup.uncleaned, hosts, |hosts|)
      ensures cleanup.doomed == old(cleanup).doomed - multiset(hosts)
      ensures AllGivenBack(old(portManager.View()), portManager.View(), PortsOf(hosts))
    {
      hide Next, Inv, Run, Onward, Valid, AllDelivered, Delivered, GivenBack, AllGivenBack, PortsOnward, PortsOf;
      ghost var s0, doomed := View(), cleanup.doomed;
      Started(config, s0);
      trace := [];
      assert hosts[..0] == [];
      NoneDelivered(hosts);
      for i := 0 to |hosts|
        invariant Valid() && View() == Run(config, s0, trace) && Onward(s0, View())
        invariant cleanup.doomed == doomed - multiset(hosts[..i])
        invariant AllDelivered(cleanupRequests, cleanup.uncleaned, hosts, i)
        invariant AllGivenBack(s0.ports, View().ports, PortsOf(hosts[..i]))
      {
        StillDoomed(hosts, i, doomed);
        ghost var s1, requests, uncleaned := View(), cleanupRequests, cleanup.uncleaned;
        ghost var more := DestroyHost(hosts[i]);
        PortsGoOn(s0, s1);
        PortsGoOn(s1, View());
        OneMoreGivenBack(s0.ports, s1.ports, View().ports, PortsOf(hosts[..i]), Some(hosts[i].port));
        OneMorePortOf(hosts, i);
        OneMoreDelivered(requests, uncleaned, cleanupRequests, cleanup.uncleaned, hosts, i);
        Joined(config, s0, trace, more);
        trace := trace + more;
      }
      assert hosts[..|hosts|] == hosts;
    }

    lemma NoneDelivered(hosts: seq<Host>)
      ensures AllDelivered(cleanupRequests, cleanup.uncleaned, hosts, 0)
      ensures AllGivenBack(View().ports, View().ports, PortsOf([]))
    {
    }

    static lemma OneMorePortOf(hosts: seq<Host>, n: nat)
      requires n < |hosts|
      ensures PortsOf(hosts[..n + 1]) == PortsOf(hosts[..n]) + AsSeq(Some(hosts[n].port))
    {
    }

    static lemma StillDoomed(hosts: seq<Host>, i: nat, doomed: multiset<Host>)
      requires i < |hosts| && multiset(hosts) <= doomed
      ensures hosts[i] in doomed - multiset(hosts[..i])
      ensures doomed - multiset(hosts[..i]) - multiset{hosts[i]} == doomed - multiset(hosts[..i + 1])
    {
      assert hosts == hosts[..i] + ([hosts[i]] + hosts[i + 1..]);
      assert multiset(hosts)[hosts[i]] == multiset(hosts[..i])[hosts[i]] + multiset([hosts[i]] + hosts[i + 1..])[hosts[i]];
      assert hosts[..i + 1] == hosts[..i] + [hosts[i]];
    }

    /** The reaper: split under the lock, then drop each expired host. */
    method ReapExpiredHosts(readings: seq<nat>)
        returns (expiredHosts: seq<Host>, ghost gone: seq<nat>, ghost stay: seq<nat>, ghost trace: seq<Label>)
      requires Valid() && |readings| == |availableHosts| && Enabled(View(), Reap(readings))
      modifies this, portManager
      ensures Valid() && View() == Run(config, old(View()), trace)
      // Both parts keep the order of the deque; a host is dropped exactly if older than the limit when read.
      ensures Picks(old(availableHosts), gone, expiredHosts) && Picks(old(availableHosts), stay, availableHosts)
      ensures forall i :: 0 <= i < |readings| ==> (i in gone <==> i !in stay)
      ensures forall i :: 0 <= i < |readings| ==> (i in gone <==> readings[i] > old(availableHosts)[i].createdAt + config.ttl)
      ensures leasedHosts == old(leasedHosts)
      ensures AllDelivered(cleanupRequests, cleanup.uncleaned, expiredHosts, |expiredHosts|)
      ensures AllGivenBack(old(portManager.View()), portManager.View(), PortsOf(expiredHosts))
    {
      hide Next, Inv, Run, Onward, Sift, Picks, GivenBack, AllGivenBack, PortsOf;
      ghost var s0 := View();
      gone, stay := SiftSplits(availableHosts, readings, config.ttl);
      Started(config, s0);
      Took(config, s0, [], Reap(readings));
      expiredHosts := PartitionExpired(readings);
      trace := [] + [Reap(readings)];
      ghost var more := DestroyAll(expiredHosts);
      Joined(config, s0, trace, more);
      trace := trace + more;
    }

    // ---- handle_container_cleanup ----

    /** The cleanup loop, until every request that was in the channel at the start has been dealt with; others
        run while it waits for Docker and may send more. */
    method HandleContainerCleanup(turns: nat -> seq<Label>) returns (ghost trace: seq<Label>)
      requires Valid() && workersAlive && cleanupInHand.None?
      modifies this, portManager, portManager.availablePorts
      ensures Valid() && View() == Run(config, old(View()), trace)
      ensures workersAlive && cleanupInHand.None?
      ensures cleanup.stopped == old(cleanup).stopped + multiset(old(cleanupRequests))
    {
      hide Next, Inv, Run, Onward, Valid;
      ghost var s0 := View();
      var requests := cleanupRequests;
      Started(config, s0);
      trace := [];
      assert requests[0..] <= cleanupRequests && multiset(requests[..0]) == multiset{};
      for i := 0 to |requests|
        invariant Valid() && View() == Run(config, s0, trace) && Onward(s0, View())
        invariant workersAlive && cleanupInHand.None?
        invariant requests[i..] <= cleanupRequests
        invariant cleanup.stopped == s0.cleanup.stopped + multiset(requests[..i])
      {
        var n: nat := i;
        ghost var stopped := cleanup.stopped;
        ghost var more := StopNext(requests[i..], turns(n));
        StoppedOneMore(s0.cleanup.stopped, requests, n, stopped, cleanup.stopped);
        Joined(config, s0, trace, more);
        trace := trace + more;
      }
      assert requests[..|requests|] == requests;
    }

    static lemma StoppedOneMore(base: multiset<ContainerId>, requests: seq<ContainerId>, n: nat,
                                before: multiset<ContainerId>, after: multiset<ContainerId>)
      requires n < |requests| && before == base + multiset(requests[..n]) && after == before + multiset{requests[n]}
      ensures after == base + multiset(requests[..n + 1])
      ensures requests[n..][0] == requests[n] && requests[n..][1..] == requests[n + 1..]
    {
      assert requests[..n + 1] == requests[..n] + [requests[n]];
    }

    /** One request: received, and stopped while others run. */
    method StopNext(ghost known: seq<ContainerId>, schedule: seq<Label>) returns (ghost trace: seq<Label>)
      requires Valid() && workersAlive && cleanupInHand.None? && known != [] && known <= cleanupRequests
      modifies this, portManager, portManager.availablePorts
      ensures Valid() && View() == Run(config, old(View()), trace) && Onward(old(View()), View())
      ensures workersAlive && cleanupInHand.None? && known[1..] <= cleanupRequests
      ensures cleanup.stopped == old(cleanup).stopped + multiset{known[0]}
    {
      hide Next, Inv, Run, Onward, Keeps, Valid;
      ghost var s0 := View();
      trace := ReceiveRequest();
      Behind(known, old(cleanupRequests), cleanupInHand, cleanupRequests);
      ghost var more := StopContainer(schedule);
      Joined(config, s0, trace, more);
      trace := trace + more;
    }

    static lemma Behind(known: seq<ContainerId>, channel: seq<ContainerId>, hand: Option<ContainerId>, rest: seq<ContainerId>)
      requires known != [] && known <= channel && hand.Some? && channel == [hand.value] + rest
      ensures hand == Some(known[0]) && known[1..] <= rest
    {
      assert rest == channel[1..] && channel[0] == hand.value;
    }

    method ReceiveRequest() returns (ghost trace: seq<Label>)
      requires Valid() && workersAlive && cleanupInHand.None? && cleanupRequests != []
      modifies this`cleanupRequests, this`cleanupInHand
      ensures Valid() && View() == Run(config, old(View()), trace) && Onward(old(View()), View())
      ensures cleanupInHand.Some? && old(cleanupRequests) == [cleanupInHand.value] + cleanupRequests
    {
      hide Next, Inv, Run, Onward;
      Started(config, View());
      Took(config, View(), [], ReceiveCleanup);
      ReceiveCleanupRequest();
      trace := [] + [ReceiveCleanup];
    }

    method StopContainer(schedule: seq<Label>) returns (ghost trace: seq<Label>)
      requires Valid() && workersAlive && cleanupInHand.Some?
      modifies this, portManager, portManager.availablePorts
      ensures Valid() && View() == Run(config, old(View()), trace) && Onward(old(View()), View())
      ensures workersAlive && cleanupInHand.None? && old(cleanupRequests) <= cleanupRequests
      ensures cleanup.stopped == old(cleanup).stopped + multiset{old(cleanupInHand).value}
    {
      hide Next, Inv, Run, Onward, Keeps;
      ghost var s0 := View();
      trace := Others(Cleaner, schedule);
      CleanerKeeps(s0, View());
      Took(config, s0, trace, StopDone);
      FinishStopContainer();
      trace := trace + [StopDone];
    }

    // ---- process_host_lease_returns ----

    /** The return loop, until every id that was in the channel at the start has been dealt with, others running
        at each of its waits. Every one of those ids is an entry of its own, which the loop removes; its
        host goes back to the pool exactly if it is unexpired when its age is read and still running. */
    method ProcessHostLeaseReturns(alive: nat -> bool, turns: (nat, nat) -> seq<Label>, holder: (nat, nat) -> bool)
        returns (settled: seq<Settled>, ghost log: seq<seq<Label>>, ghost trace: seq<Label>)
      requires Valid() && workersAlive && releaseInHand.None? && !Rechecking(lock)
      modifies this, portManager, portManager.availablePorts
      ensures Valid() && View() == Run(config, old(View()), trace) && Onward(old(View()), View())
      ensures workersAlive && releaseInHand.None? && !Rechecking(lock)
      ensures NoEntry(View(), old(leaseReleases)) && |settled| == |old(leaseReleases)|
      ensures trace == Concat(log) && AllSettled(config, old(View()), log, settled, old(leaseReleases), alive, clock)
    {
      hide Next, Inv, Run, Onward, Keeps, Valid, NoEntry, AllSettled, SettledIn, Rechecking, Concat;
      ghost var s0 := View();
      var ids := leaseReleases;
      Started(config, s0);
      ReturnsStart(ids, alive);
      ReleasesHaveEntries();
      assert ids[0..] == ids && ids[..0] == [];
      settled, log, trace := [], [], [];
      for i := 0 to |ids|
        invariant Valid() && View() == Run(config, s0, trace) && Onward(s0, View())
        invariant workersAlive && releaseInHand.None? && !Rechecking(lock)
        invariant ids[i..] <= leaseReleases && |settled| == i
        invariant forall x :: x in ids[i..] ==> x in leasedHosts && x in s0.pool.leased && leasedHosts[x] == s0.pool.leased[x]
        invariant NoEntry(View(), ids[..i])
        invariant trace == Concat(log) && AllSettled(config, s0, log, settled, ids, alive, clock)
      {
        var n: nat := i;
        assert ids[i..][0] == ids[i] && ids[i..][1..] == ids[i + 1..] && ids[..i + 1] == ids[..i] + [ids[i]];
        ghost var s1, more := View(), [];
        var one;
        one, more := ReturnOne(ids[i..], alive(n), (k: nat) => turns(n, k), (k: nat) => holder(n, k));
        NoEntryStays(s1, View(), ids[..i]);
        OneMoreGone(View(), ids[..i], ids[i]);
        ClockGoesOn(s0, s1);
        ClockGoesOn(s1, View());
        Joined(config, s0, trace, more);
        OneMoreSegment(config, s0, log, more);
        OneMoreSettled(config, s0, log, settled, ids, alive, s1.clock, clock, more, one);
        trace := trace + more;
        log := log + [more];
        settled := settled + [one];
      }
      assert ids[..|ids|] == ids;
    }

    lemma ReturnsStart(ids: seq<LeaseId>, alive: nat -> bool)
      ensures Concat([]) == [] && AllSettled(config, View(), [], [], ids, alive, clock) && NoEntry(View(), [])
    {
      NoneSettled(config, View(), ids, alive, clock);
    }

    lemma ReleasesHaveEntries()
      requires Valid() && workersAlive
      ensures forall x :: x in leaseReleases ==> x in leasedHosts
    {
      InvLeases(config, View());
      ChannelIsKeys(config, View());
    }

    /** One id: received, the lock awaited, the return settled. */
    method ReturnOne(known: seq<LeaseId>, alive: bool, turns: nat -> seq<Label>, holder: nat -> bool)
        returns (r: Settled, ghost trace: seq<Label>)
      requires Valid() && workersAlive && releaseInHand.None? && !Rechecking(lock) && known != [] && known <= leaseReleases
      modifies this, portManager, portManager.availablePorts
      ensures Valid() && View() == Run(config, old(View()), trace) && Onward(old(View()), View())
      ensures SettledIn(View(), r)
      ensures workersAlive && releaseInHand.None? && !Rechecking(lock) && known[1..] <= leaseReleases
      ensures known[0] in old(leasedHosts) && known[0] !in leasedHosts && known[0] < nextLease
      ensures forall x :: x in known[1..] ==> x in old(leasedHosts) && x in leasedHosts && leasedHosts[x] == old(leasedHosts)[x]
      ensures SettledWell(r, old(leasedHosts)[known[0]], alive, config.ttl, old(clock), clock)
    {
      hide Next, Inv, Run, Onward, Keeps, Valid, EntriesKept;
      ghost var s0 := View();
      ReleasesDiffer(known);
      ghost var more;
      trace := ReceiveNext(known, turns, holder);
      ghost var s1 := View();
      NextOnward(s0, s1);
      ClockGoesOn(s0, s1);
      r, more := SettleReturn(known[0], alive, turns(2));
      NextOnward(s1, View());
      ClockGoesOn(s1, View());
      KnownKept(s0, s1, leasedHosts, known);
      Joined(config, s0, trace, more);
      trace := trace + more;
    }

    /** The ids in the channel are different, and issued. */
    lemma ReleasesDiffer(known: seq<LeaseId>)
      requires Valid() && workersAlive && known != [] && known <= leaseReleases
      ensures known[0] !in known[1..] && known[0] < nextLease
      ensures forall x :: x in known ==> ToReturn(View(), x) && x in leasedHosts
    {
      InvLeases(config, View());
      ChannelIsKeys(config, View());
      LeaseLawIssues(View());
      hide Inv, LeaseLaw, ControlLaw;
      forall i | 1 <= i < |known| ensures known[i] != known[0] {
        UniqueSeq(leaseReleases, 0, i);
      }
      assert known[0] in leaseReleases;
    }

    static lemma KnownKept(s: State, t: State, leased: map<LeaseId, Host>, known: seq<LeaseId>)
      requires EntriesKept(s, t) && known != [] && known[0] !in known[1..] && leased == t.pool.leased - {known[0]}
      requires forall x :: x in known ==> ToReturn(s, x) && x in s.pool.leased
      ensures known[0] in t.pool.leased && t.pool.leased[known[0]] == s.pool.leased[known[0]]
      ensures forall x :: x in known[1..] ==> x in s.pool.leased && x in leased && leased[x] == s.pool.leased[x]
    {
      hide ToReturn;
      forall x | x in known[1..] ensures x in s.pool.leased && x in leased && leased[x] == s.pool.leased[x] {
        assert x in known;
      }
    }

    /** The processor receives an id and waits for the lock with it in hand. */
    method ReceiveNext(known: seq<LeaseId>, turns: nat -> seq<Label>, holder: nat -> bool) returns (ghost trace: seq<Label>)
      requires Valid() && workersAlive && releaseInHand.None? && !Rechecking(lock) && known != [] && known <= leaseReleases
      modifies this, portManager, portManager.availablePorts
      ensures Valid() && View() == Run(config, old(View()), trace) && Onward(old(View()), View())
      ensures workersAlive && lock.Free? && releaseInHand == Some(known[0]) && known[1..] <= leaseReleases
      ensures EntriesKept(old(View()), View())
    {
      hide Next, Inv, Run, Onward, Keeps, EntriesKept;
      ghost var s0 := View();
      trace := Others(Returner, turns(0));
      ReturnerKeeps(s0, View());
      ghost var s1 := View();
      ghost var more := ReceiveAndWait(turns(1), holder);
      EntriesCarried(s0, s1, View());
      Joined(config, s0, trace, more);
      trace := trace + more;
    }

    method ReceiveAndWait(schedule: seq<Label>, holder: nat -> bool) returns (ghost trace: seq<Label>)
      requires Valid() && workersAlive && releaseInHand.None? && !Rechecking(lock) && leaseReleases != []
      modifies this, portManager, portManager.availablePorts
      ensures Valid() && View() == Run(config, old(View()), trace) && Onward(old(View()), View())
      ensures workersAlive && lock.Free? && releaseInHand == Some(old(leaseReleases)[0])
      ensures old(leaseReleases)[1..] <= leaseReleases && EntriesKept(old(View()), View())
    {
      hide Next, Inv, Run, Onward, Keeps, EntriesKept;
      ghost var s0 := View();
      Started(config, s0);
      Took(config, s0, [], ReceiveLease);
      NextReceiveLease(config, s0);
      var id := ReceiveRelease();
      trace := [] + [ReceiveLease];
      ghost var s1 := View();
      ReceivedKept(s0, s1);
      ghost var more := AwaitLock(Returner, schedule, holder);
      ReturnerKeeps(s1, View());
      EntriesCarried(s0, s1, View());
      Joined(config, s0, trace, more);
      trace := trace + more;
    }

    /** `return_host_internal` from the moment it has the lock; others run during its Docker check. */
    method SettleReturn(id: LeaseId, alive: bool, schedule: seq<Label>) returns (r: Settled, ghost trace: seq<Label>)
      requires releaseInHand == Some(id) && lock.Free? && workersAlive && Valid()
      modifies this, portManager, portManager.availablePorts
      ensures Valid() && View() == Run(config, old(View()), trace) && Onward(old(View()), View())
      ensures workersAlive && lock.Free? && releaseInHand.None? && old(leaseReleases) <= leaseReleases
      ensures id in old(leasedHosts) && leasedHosts == old(leasedHosts) - {id}
      ensures r.host == old(leasedHosts)[id] && r.at == old(clock)
      ensures r.requeued <==> r.at <= r.host.createdAt + config.ttl && alive
      ensures availableHosts == old(availableHosts) + if r.requeued then [r.host] else []
      ensures !r.requeued ==>
                && Delivered(cleanupRequests, cleanup.uncleaned, r.host.container)
                && (r.host.port in portManager.channel || r.host.port in portManager.leaked)
    {
      hide Next, Inv, Run, Onward, Delivered, Valid;
      ghost var s0 := View();
      var host := EntryOf(id);
      var at := clock;
      trace := TakeBack(id);
      ghost var more;
      if lock.Checking? {
        more := CheckReturned(alive, schedule);
      } else {
        more := DestroyHost(host);
      }
      r := Settled(host, at, at <= host.createdAt + config.ttl && alive);
      Joined(config, s0, trace, more);
      trace := trace + more;
    }

    method EntryOf(id: LeaseId) returns (host: Host)
      requires releaseInHand == Some(id) && lock.Free? && workersAlive && Valid()
      ensures id in leasedHosts && host == leasedHosts[id]
    {
      hide Inv;
      ReturnFindsEntry(config, View());
      host := leasedHosts[id];
    }

    /** Removing the entry under the lock. */
    method TakeBack(id: LeaseId) returns (ghost trace: seq<Label>)
      requires releaseInHand == Some(id) && lock.Free? && workersAlive && Valid() && id in leasedHosts
      modifies this`leasedHosts, this`lock, this`releaseInHand, this`leases, this`cleanup
      ensures Valid() && View() == Run(config, old(View()), trace) && Onward(old(View()), View())
      ensures releaseInHand.None? && leasedHosts == old(leasedHosts) - {id}
      ensures var host := old(leasedHosts)[id];
              if clock > host.createdAt + config.ttl then lock.Free? && host in cleanup.doomed else lock == Checking(host)
    {
      hide Next, Inv, Run, Onward;
      ghost var s0 := View();
      Started(config, s0);
      Took(config, s0, [], ReturnLock);
      var _ := BeginReturn();
      trace := [] + [ReturnLock];
    }

    /** The Docker check on a returned host, its lock still held, and both arms after it. */
    method CheckReturned(alive: bool, schedule: seq<Label>) returns (ghost trace: seq<Label>)
      requires Valid() && lock.Checking? && workersAlive && releaseInHand.None?
      modifies this, portManager, portManager.availablePorts
      ensures Valid() && View() == Run(config, old(View()), trace) && Onward(old(View()), View())
      ensures workersAlive && lock.Free? && releaseInHand.None? && old(leaseReleases) <= leaseReleases
      ensures leasedHosts == old(leasedHosts)
      ensures availableHosts == old(availableHosts) + if alive then [old(lock).host] else []
      ensures !alive ==>
                && Delivered(cleanupRequests, cleanup.uncleaned, old(lock).host.container)
                && (old(lock).host.port in portManager.channel || old(lock).host.port in portManager.leaked)
    {
      hide Next, Inv, Run, Onward, Keeps, Delivered, Valid;
      ghost var s0 := View();
      trace := Others(Returner, schedule);
      ReturnerKeeps(s0, View());
      assert View().pool == s0.pool;
      ghost var more := ActOnCheck(alive);
      Joined(config, s0, trace, more);
      trace := trace + more;
    }

    method ActOnCheck(alive: bool) returns (ghost trace: seq<Label>)
      requires Valid() && lock.Checking?
      modifies this`availableHosts, this`lock, this`cleanup, this`cleanupRequests, portManager
      ensures Valid() && View() == Run(config, old(View()), trace) && Onward(old(View()), View())
      ensures lock.Free? && availableHosts == old(availableHosts) + if alive then [old(lock).host] else []
      ensures !alive ==>
                && Delivered(cleanupRequests, cleanup.uncleaned, old(lock).host.container)
                && (old(lock).host.port in portManager.channel || old(lock).host.port in portManager.leaked)
    {
      hide Next, Inv, Run, Onward, Delivered;
      ghost var s0 := View();
      var host := lock.host;
      Started(config, s0);
      Took(config, s0, [], ReturnChecked(alive));
      FinishReturnHost(alive);
      trace := [] + [ReturnChecked(alive)];
      if !alive {
        ghost var more := DropUnderLock(host);
        Joined(config, s0, trace, more);
        trace := trace + more;
      }
    }

    /** A returned host that is no longer running is dropped before the lock is. */
    method DropUnderLock(host: Host) returns (ghost trace: seq<Label>)
      requires Valid() && lock.Unwinding? && host in cleanup.doomed
      modifies this`lock, this`cleanup, this`cleanupRequests, portManager
      ensures Valid() && View() == Run(config, old(View()), trace) && Onward(old(View()), View())
      ensures host.port in portManager.channel || host.port in portManager.leaked
      ensures lock.Free? && Delivered(cleanupRequests, cleanup.uncleaned, host.container)
    {
      hide Next, Inv, Run, Onward, Delivered;
      ghost var s0 := View();
      trace := DestroyHost(host);
      Took(config, s0, trace, ReturnUnlock);
      UnlockAfterReturn();
      trace := trace + [ReturnUnlock];
    }

    // ---- Shutdown ----

    /** Polling the number of leased hosts every hundred milliseconds for at most thirty seconds. */
    method WaitForRequestsToDrain(turns: nat -> seq<Label>, holder: (nat, nat) -> bool)
        returns (end: DrainEnd, rounds: nat, ghost polls: seq<seq<Label>>, ghost trace: seq<Label>)
      requires Valid()
      modifies this, portManager, portManager.availablePorts
      ensures Valid() && View() == Run(config, old(View()), trace) && Onward(old(View()), View())
      ensures workersAlive == old(workersAlive) && collected == old(collected) && lock.Free?
      ensures trace == Concat(polls) && DrainedAs(config, old(View()), polls, end) && rounds == |polls| <= 302
      ensures end.Drained? <==> leasedHosts == map[]
    {
      hide Next, Inv, Run, Onward, Keeps, Valid, DrainedAs, Polling, Concat;
      ghost var s0 := View();
      var start := clock;
      Started(config, s0);
      polls, trace, rounds := [], [], 0;
      NoPolls(config, s0);
      while true
        invariant Valid() && View() == Run(config, s0, trace) && Onward(s0, View())
        invariant workersAlive == s0.workers && collected == s0.collected && start == s0.clock
        invariant trace == Concat(polls) && Polling(config, s0, polls, 0) && |polls| == rounds
        invariant rounds <= DRAIN_TIMEOUT / DRAIN_INTERVAL + 1
        decreases DRAIN_TIMEOUT / DRAIN_INTERVAL + 1 - rounds
      {
        var n := rounds;
        ghost var more := DrainRound(start + DRAIN_INTERVAL * n, turns(n), (k: nat) => holder(n, k));
        Joined(config, s0, trace, more);
        OneMorePoll(config, s0, polls, more);
        OneMoreSegment(config, s0, polls, more);
        trace := trace + more;
        polls := polls + [more];
        rounds := rounds + 1;
        if |leasedHosts| == 0 {
          return Drained, rounds, polls, trace;
        }
        if clock - start > DRAIN_TIMEOUT {
          return DrainTimedOut, rounds, polls, trace;
        }
      }
    }

    /** Nobody but the shutdown aborts the workers or collects the hosts. */
    static lemma OthersNeverStop(trace: seq<Label>)
      requires forall l :: l in trace ==> Foreign(Shutdown, l)
      ensures AbortWorkers !in trace && Protocol.Collect !in trace
    {
      assert !Foreign(Shutdown, AbortWorkers) && !Foreign(Shutdown, Protocol.Collect);
    }

    /** One tick of the polling interval, then the wait for the lock. */
    method DrainRound(due: nat, schedule: seq<Label>, holder: nat -> bool) returns (ghost trace: seq<Label>)
      requires Valid()
      modifies this, portManager, portManager.availablePorts
      ensures Valid() && View() == Run(config, old(View()), trace) && Onward(old(View()), View())
      ensures AbortWorkers !in trace && Protocol.Collect !in trace
      ensures workersAlive == old(workersAlive) && collected == old(collected) && clock >= due && lock.Free?
    {
      hide Next, Inv, Run, Onward, Keeps, Foreign;
      ghost var s0 := View();
      Started(config, s0);
      var now := if clock < due then due else clock;
      Took(config, s0, [], Tick(now));
      AdvanceClock(now);
      ghost var s1 := View();
      trace := [] + [Tick(now)];
      ghost var more := AwaitLock(Shutdown, schedule, holder);
      ShutdownKeeps(s1, View());
      OthersNeverStop(more);
      Joined(config, s0, trace, more);
      trace := trace + more;
    }

    /** Aborting the workers, then `collect_all_hosts`, the lock awaited in between. */
    method StopAndCollect(schedule: seq<Label>, holder: nat -> bool)
        returns (allHosts: seq<Host>, ghost pre: seq<Label>, ghost trace: seq<Label>)
      requires Valid() && workersAlive && !collected && shutdownFlag
      modifies this, portManager, portManager.availablePorts
      ensures Valid() && View() == Run(config, old(View()), trace) && Onward(old(View()), View())
      ensures trace == pre + [Protocol.Collect] && pre != [] && pre[0] == AbortWorkers && Protocol.Collect !in pre
      ensures var t := Run(config, old(View()), pre);
              t.pool.lock.Free? && !t.workers && multiset(allHosts) == multiset(t.pool.available) + Values(t.pool.leased)
      ensures !workersAlive && collected && availableHosts == [] && leasedHosts == map[]
      ensures multiset(allHosts) <= cleanup.doomed
    {
      hide Next, Inv, Run, Onward, Keeps, Values;
      ghost var s0 := View();
      pre := StopWorkers(schedule, holder);
      Took(config, s0, pre, Protocol.Collect);
      allHosts := CollectAllHosts();
      trace := pre + [Protocol.Collect];
    }

    method StopWorkers(schedule: seq<Label>, holder: nat -> bool) returns (ghost trace: seq<Label>)
      requires Valid() && workersAlive && !collected && shutdownFlag
      modifies this, portManager, portManager.availablePorts
      ensures Valid() && View() == Run(config, old(View()), trace) && Onward(old(View()), View())
      ensures trace != [] && trace[0] == AbortWorkers && Protocol.Collect !in trace
      ensures !workersAlive && !collected && lock.Free?
    {
      hide Next, Inv, Run, Onward, Keeps, Foreign;
      ghost var s0 := View();
      Started(config, s0);
      Took(config, s0, [], AbortWorkers);
      Abort();
      ghost var s1 := View();
      trace := [] + [AbortWorkers];
      ghost var more := AwaitLock(Shutdown, schedule, holder);
      ShutdownKeeps(s1, View());
      OthersNeverStop(more);
      Joined(config, s0, trace, more);
      trace := trace + more;
    }

    /** Flag, drain, abort, collect, drop. The collected hosts are not stopped by being dropped: the abort
        closed the cleanup channel. If no call was racing when the flag was stored and the drain saw an
        empty map, the shutdown was graceful: nobody holds, waits for or has lost a lease of any kind. */
    method ShutdownAllContainers(turns: nat -> seq<Label>, last: seq<Label>, holder: (nat, nat) -> bool)
        returns (end: DrainEnd, allHosts: seq<Host>, ghost polls: seq<seq<Label>>, ghost rest: seq<Label>,
                 ghost trace: seq<Label>)
      requires Valid() && workersAlive && !collected
      modifies this, portManager, portManager.availablePorts
      ensures Valid() && View() == Run(config, old(View()), trace) && Onward(old(View()), View()) && shutdownFlag
      // From the flag store the drain runs to its end; only from there are the workers aborted and the hosts
      // collected, exactly those of both collections.
      ensures trace == [SetFlag] + Concat(polls) + rest
      ensures DrainedAs(config, Run(config, old(View()), [SetFlag]), polls, end)
      ensures CollectedAs(config, Run(config, old(View()), [SetFlag] + Concat(polls)), rest, allHosts)
      ensures collected && !workersAlive && availableHosts == [] && leasedHosts == map[]
      ensures forall i :: 0 <= i < |allHosts| ==> allHosts[i].container in cleanup.uncleaned
      ensures AllGivenBack(old(portManager.View()), portManager.View(), PortsOf(allHosts))
      ensures end.Drained? && Runs.Racing(old(View())) == 0 ==> NothingOut(View())
    {
      hide Next, Inv, Run, Onward, Keeps, DrainedAs, CollectedAs, Concat, Runs.Racing, NothingOut, AllGivenBack, PortsOf;
      ghost var s0 := View();
      Started(config, s0);
      FlagRaces(s0);
      Took(config, s0, [], SetFlag);
      StoreFlag();
      trace := [] + [SetFlag];
      assert trace == [SetFlag];
      ghost var s1, more := View(), [];
      var rounds;
      end, rounds, polls, more := WaitForRequestsToDrain(turns, holder);
      FailedOnward(s1, View());
      Joined(config, s0, trace, more);
      trace := trace + more;
      ghost var s2 := View();
      QuietFromHere(s1, more);
      allHosts, rest := CollectAndDrop(last, (k: nat) => holder(rounds, k));
      FailedOnward(s2, View());
      if end.Drained? && Runs.Racing(s0) == 0 { GracefulStays(config, s2, rest); }
      PortsGoOn(s0, s2);
      AllGivenBackSince(s0.ports, s2.ports, View().ports, PortsOf(allHosts));
      Joined(config, s0, trace, rest);
      trace := trace + rest;
    }

    static lemma FlagRaces(s: State)
      ensures Runs.Racing(s.(shutdown := true)) == Runs.Racing(s)
    {
    }

    /** What the drain leaves behind it, if no call was racing when it began. */
    lemma QuietFromHere(s: State, trace: seq<Label>)
      requires Valid() && View() == Run(config, s, trace) && s.shutdown && !collected
      ensures Runs.Racing(s) == 0 ==> Runs.Racing(View()) == 0 && shutdownFlag && View().leases.orphaned == {}
    {
      InvLeases(config, View());
      hide Inv, LeaseLaw, Run, Runs.Racing;
      if Runs.Racing(s) == 0 { Runs.NoKeyAdded(config, s, trace); }
    }

    lemma AbortIsEnabled()
      requires workersAlive && shutdownFlag
      ensures Enabled(View(), AbortWorkers)
    {
    }

    /** Abort, collect, and the collected hosts dropped one by one. */
    method CollectAndDrop(last: seq<Label>, holder: nat -> bool) returns (allHosts: seq<Host>, ghost trace: seq<Label>)
      requires Valid() && workersAlive && !collected && shutdownFlag
      modifies this, portManager, portManager.availablePorts
      ensures Valid() && View() == Run(config, old(View()), trace) && Onward(old(View()), View())
      ensures CollectedAs(config, old(View()), trace, allHosts)
      ensures collected && !workersAlive && availableHosts == [] && leasedHosts == map[]
      ensures forall i :: 0 <= i < |allHosts| ==> allHosts[i].container in cleanup.uncleaned
      ensures AllGivenBack(old(portManager.View()), portManager.View(), PortsOf(allHosts))
    {
      hide Next, Inv, Run, Onward, Keeps, AllDelivered, Delivered, CollectedAs, Values, AllGivenBack, PortsOf, Enabled;
      ghost var s0 := View();
      ghost var pre;
      AbortIsEnabled();
      allHosts, pre, trace := StopAndCollect(last, holder);
      ghost var s1 := View();
      ghost var more := DestroyAll(allHosts);
      PortsGoOn(s0, s1);
      AllGivenBackSince(s0.ports, s1.ports, View().ports, PortsOf(allHosts));
      CollectJoins(config, s0, pre, more, allHosts);
      Joined(config, s0, trace, more);
      trace := trace + more;
      ClosedMeansUncleaned(allHosts);
    }

    lemma ClosedMeansUncleaned(hosts: seq<Host>)
      requires Valid() && !workersAlive && AllDelivered(cleanupRequests, cleanup.uncleaned, hosts, |hosts|)
      ensures forall i :: 0 <= i < |hosts| ==> hosts[i].container in cleanup.uncleaned
    {
      InvLeases(config, View());
      hide Inv;
      assert cleanupRequests == [];
      forall i | 0 <= i < |hosts| ensures hosts[i].container in cleanup.uncleaned {
        assert Delivered(cleanupRequests, cleanup.uncleaned, hosts[i].container);
      }
    }
  }
}
