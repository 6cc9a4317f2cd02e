/** The gateway's use of the pool: leasing with retries, and the life of a lease inside a request. */
module GatewayServers {
  import opened Bags
  import opened PortSpec
  import opened QueueSets
  import opened Protocol
  import opened Invariant
  import opened Interference
  import opened LeaseRuns
  import opened RetryRuns
  import opened HostPoolManagers

  const MAX_ATTEMPTS: nat := 3
  const BACKOFF: nat := 50

  ghost predicate AllFailed(s: State, discards: seq<Claim>) {
    && (forall i :: 0 <= i < |discards| ==> discards[i].container in s.history.failed)
    && (forall i, j :: 0 <= i < j < |discards| ==> discards[i].container != discards[j].container)
  }

  /** None of the discarded containers had been discarded before. */
  ghost predicate NoneFailed(s: State, discards: seq<Claim>) {
    forall i :: 0 <= i < |discards| ==> discards[i].container !in s.history.failed
  }

  lemma FailedStays(s: State, t: State, discards: seq<Claim>)
    requires AllFailed(s, discards) && Onward(s, t)
    ensures AllFailed(t, discards)
  {
    FailedOnward(s, t);
    hide Onward;
  }

  lemma OneMoreFailed(s0: State, s: State, t: State, discards: seq<Claim>, x: Option<Claim>)
    requires AllFailed(s, discards) && NoneFailed(s0, discards) && Onward(s0, s) && Onward(s, t)
    requires x.Some? ==> x.value.container in t.history.failed && x.value.container !in s.history.failed
    ensures AllFailed(t, discards + AsSeq(x)) && NoneFailed(s0, discards + AsSeq(x))
  {
    FailedStays(s, t, discards);
    FailedOnward(s0, s);
    hide Onward;
    var all := discards + AsSeq(x);
    forall i, j | 0 <= i < j < |all| ensures all[i].container != all[j].container {
      if j == |discards| { assert discards[i].container in s.history.failed; }
    }
  }

  /** What the attempts of a request have recorded: its entries and the hosts it discarded. */
  ghost predicate Recorded(s0: State, t: State, task: TaskId, mine: seq<LeaseId>, discards: seq<Claim>) {
    && Onward(s0, t) && Idle(t, task) && Issued(t.history, task) == Issued(s0.history, task) + Elements(mine)
    && AllFailed(t, discards) && NoneFailed(s0, discards)
  }

  /** After attempts that were all not ready, and a pause. */
  ghost predicate Going(c: Config, s0: State, t: State, task: TaskId, worlds: nat -> World, trace: seq<Label>,
                        log: seq<Attempt>, pause: seq<Label>, mine: seq<LeaseId>, discards: seq<Claim>,
                        probes: nat, slept: nat, further: nat) {
    && t == Run(c, s0, trace) && Recorded(s0, t, task, mine, discards) && NoEntry(t, mine)
    && (!t.collected ==> |discards| == |log|)
    && Logged(c, s0, task, worlds, trace, log, pause) && Tallied(log, mine, discards, probes, slept, further)
  }

  /** After the last attempt. */
  ghost predicate Finished(c: Config, s0: State, t: State, task: TaskId, worlds: nat -> World, trace: seq<Label>,
                           log: seq<Attempt>, mine: seq<LeaseId>, discards: seq<Claim>, probes: nat, slept: nat) {
    && t == Run(c, s0, trace) && Recorded(s0, t, task, mine, discards)
    && RetryAs(c, s0, task, worlds, trace, log) && Tallied(log, mine, discards, probes, slept, 0)
  }

  lemma NothingYet(c: Config, s: State, task: TaskId, worlds: nat -> World)
    requires Idle(s, task)
    ensures Going(c, s, s, task, worlds, [], [], [], [], [], 0, 0, 0)
  {
    hide Idle, Issued, Onward, Run, Logged, Tallied;
    NoAttempts(c, s, task, worlds);
    Started(c, s);
    assert Issued(s.history, task) == Issued(s.history, task) + Elements([]);
  }

  /** The log after one more attempt. */
  lemma AttemptTaken(c: Config, s0: State, s1: State, t: State, task: TaskId, worlds: nat -> World, trace: seq<Label>,
                     log: seq<Attempt>, a: Attempt, mine: seq<LeaseId>, discards: seq<Claim>, probes: nat, slept: nat)
    requires Going(c, s0, s1, task, worlds, trace, log, a.pause, mine, discards, probes, slept, 50 * |log|) && |log| < 3
    requires t == Run(c, s1, a.call) && LeaseAs(c, s1, task, worlds(|log| + 1), a.call, a.result)
    requires Recorded(s0, t, task, mine + AsSeq(a.result.mine), discards + AsSeq(a.result.discarded))
    ensures var all, mine', discards' := log + [a], mine + AsSeq(a.result.mine), discards + AsSeq(a.result.discarded);
            var o, p, q := a.result.outcome, probes + a.result.probes, slept + a.result.slept;
            && (o.ContainerNotReady? && |all| < 3 && NoEntry(t, mine') && (!t.collected ==> |discards'| == |all|) ==>
                  Going(c, s0, t, task, worlds, trace + a.call, all, [], mine', discards', p, q, 0))
            && (!o.ContainerNotReady? || |all| == 3 ==>
                  Finished(c, s0, t, task, worlds, trace + a.call, all, mine', discards', p, q))
  {
    hide Run, Recorded, NoEntry, Logged, Tallied, LeaseAs, RetryAs;
    RunConcat(c, s0, trace, a.call);
    OneMoreAttempt(c, s0, task, worlds, trace, log, a, mine, discards, probes, slept);
  }

  /** The log after a pause. */
  lemma Paused(c: Config, s0: State, s1: State, t: State, task: TaskId, worlds: nat -> World, trace: seq<Label>,
               log: seq<Attempt>, pause: seq<Label>, mine: seq<LeaseId>, discards: seq<Claim>, probes: nat, slept: nat)
    requires Going(c, s0, s1, task, worlds, trace, log, [], mine, discards, probes, slept, 0) && log != []
    requires t == Run(c, s1, pause) && Onward(s1, t) && forall l :: l in pause ==> !Calls(l, task)
    requires Recorded(s0, t, task, mine, discards) && NoEntry(t, mine)
    ensures Going(c, s0, t, task, worlds, trace + pause, log, pause, mine, discards, probes, slept + 50 * |log|, 50 * |log|)
  {
    hide Run, Recorded, NoEntry, Logged, Tallied, Calls, Onward;
    RunConcat(c, s0, trace, pause);
    FailedOnward(s1, t);
    OneMorePause(c, s0, task, worlds, trace, log, pause, mine, discards, probes, slept);
  }

  lemma OneMoreMine(mine: seq<LeaseId>, id: Option<LeaseId>)
    ensures Elements(mine + AsSeq(id)) == Elements(mine) + AsSet(id)
    ensures mine + AsSeq(id) == if id.Some? then mine + [id.value] else mine
  {
  }

  class GatewayServer {
    const pool: HostPoolManager

    constructor (pool: HostPoolManager)
      ensures this.pool == pool
    {
      this.pool := pool;
    }

    /** Three attempts with a growing pause, retrying only hosts that are not ready. `mine` are the ids
        of the entries its attempts inserted and `discards` the hosts they discarded. */
    method LeaseHostWithRetry(task: TaskId, worlds: nat -> World, pauses: nat -> seq<Label>)
        returns (outcome: LeaseOutcome, mine: seq<LeaseId>, discards: seq<Claim>, notReady: nat,
                 probes: nat, slept: nat, ghost log: seq<Attempt>, ghost trace: seq<Label>)
      requires pool.Valid() && Idle(pool.View(), task)
      modifies pool, pool.portManager, pool.portManager.availablePorts
      ensures pool.Valid() && pool.View() == Run(pool.config, old(pool.View()), trace)
      ensures Onward(old(pool.View()), pool.View()) && Idle(pool.View(), task)
      // Its run is that of its attempts, and the last of them has the answer.
      ensures RetryAs(pool.config, old(pool.View()), task, worlds, trace, log)
      ensures outcome == log[|log| - 1].result.outcome
      ensures |log| == notReady + if outcome.ContainerNotReady? then 0 else 1
      ensures mine == MineOf(log) && discards == DiscardsOf(log) && probes == ProbesOf(log) && slept == SleptOf(log)
      // At most 30 probes and 1500 ms of sleep, and exactly so many when every host was not ready.
      ensures probes <= 30 && slept <= 1500 && (outcome.ContainerNotReady? ==> probes == 30 && slept == 1500)
      ensures multiset(trace)[CheckFlag(task)] == |log|
      // The attempts insert exactly `mine`, of which nothing is left after a failure.
      ensures Issued(pool.history, task) == Issued(old(pool.history), task) + Elements(mine)
      ensures !outcome.Leased? && !outcome.Cancelled? ==> NoEntry(pool.View(), mine)
      ensures outcome.Leased? ==>
                outcome.id in mine && outcome.id in pool.leases.live && pool.leases.live[outcome.id] == outcome.claim
      // One new discarded host for each attempt that ended with a host not ready.
      ensures AllFailed(pool.View(), discards) && NoneFailed(old(pool.View()), discards)
      ensures !pool.collected ==> |discards| == notReady + if outcome.HealthCheckFailed? then 1 else 0
      // What each refusal leaves visible.
      ensures outcome.MaxInstancesReached? ==> |pool.leasedHosts| >= pool.config.maxInstances && pool.availableHosts == []
      ensures outcome.NoAvailablePorts? ==> pool.portManager.availablePorts.queue == []
      ensures outcome.DockerFailed? ==> !worlds(|log|).docker
      ensures outcome.Cancelled? ==> worlds(|log|).dropped.Some?
      ensures outcome.ShuttingDown? ==> pool.shutdownFlag
      ensures outcome.InvalidLease? ==> pool.collected
    {
      hide Next, Inv, Run, Onward, AllFailed, NoneFailed, NoEntry, Issued, Elements, RetryAs, Going, Finished,
           MineOf, DiscardsOf, ProbesOf, SleptOf, Idle, HostPoolManager.Valid, HostPoolManager.View;
      ghost var s0 := pool.View();
      Viewed();
      var lastError: Option<LeaseOutcome> := None;
      ghost var pause, more := [], [];
      mine, discards, notReady, probes, slept, log, trace := [], [], 0, 0, 0, [], [];
      NothingYet(pool.config, s0, task, worlds);
      for attempt := 1 to MAX_ATTEMPTS + 1
        invariant pool.Valid() && notReady == attempt - 1 == |log|
        invariant attempt > 1 ==> lastError == Some(ContainerNotReady) && NotReadySoFar(log)
        invariant if notReady < MAX_ATTEMPTS
                  then Going(pool.config, s0, pool.View(), task, worlds, trace, log, pause, mine, discards, probes, slept,
                             50 * notReady)
                  else Finished(pool.config, s0, pool.View(), task, worlds, trace, log, mine, discards, probes, slept)
        invariant notReady == MAX_ATTEMPTS ==> NoEntry(pool.View(), mine) && (!pool.collected ==> |discards| == notReady)
      {
        var n: nat := attempt;
        var p, q;
        outcome, mine, discards, p, q, log, more :=
          TakeAttempt(s0, task, worlds, n, trace, log, pause, mine, discards, probes, slept);
        trace, probes, slept := trace + more, probes + p, slept + q;
        if !outcome.ContainerNotReady? {
          Totals(s0, task, worlds, trace, log, mine, discards, probes, slept);
          return;
        }
        lastError := Some(ContainerNotReady);
        notReady := notReady + 1;
        if attempt < MAX_ATTEMPTS {
          pause := Pause(s0, task, worlds, pauses(n), trace, log, mine, discards, probes, slept);
          trace, slept := trace + pause, slept + BACKOFF * attempt;
        }
      }
      Totals(s0, task, worlds, trace, log, mine, discards, probes, slept);
      outcome := lastError.value;
    }

    lemma Viewed()
      ensures pool.View().history == pool.history
    {
    }

    lemma Totals(s: State, task: TaskId, worlds: nat -> World, trace: seq<Label>, log: seq<Attempt>,
                 mine: seq<LeaseId>, discards: seq<Claim>, probes: nat, slept: nat)
      requires Finished(pool.config, s, pool.View(), task, worlds, trace, log, mine, discards, probes, slept)
      ensures pool.View() == Run(pool.config, s, trace) && Onward(s, pool.View()) && Idle(pool.View(), task)
      ensures Issued(pool.history, task) == Issued(s.history, task) + Elements(mine)
      ensures AllFailed(pool.View(), discards) && NoneFailed(s, discards)
      ensures RetryAs(pool.config, s, task, worlds, trace, log)
      ensures mine == MineOf(log) && discards == DiscardsOf(log) && probes == ProbesOf(log) && slept == SleptOf(log)
      ensures probes <= 30 && slept <= 1500 && (NotReadySoFar(log) ==> probes == 30 && slept == 1500)
      ensures multiset(trace)[CheckFlag(task)] == |log| && log != []
    {
      hide Onward, Issued, Elements, AllFailed, NoneFailed, RetryAs, Run;
      RetryBound(pool.config, s, task, worlds, trace, log);
    }

    /** One attempt after others whose hosts were not ready. */
    method TakeAttempt(ghost s0: State, task: TaskId, worlds: nat -> World, n: nat, ghost trace: seq<Label>,
                       ghost log: seq<Attempt>, ghost pause: seq<Label>, mine: seq<LeaseId>, discards: seq<Claim>,
                       ghost probes: nat, ghost slept: nat)
        returns (outcome: LeaseOutcome, mine': seq<LeaseId>, discards': seq<Claim>, probed: nat, waited: nat,
                 ghost log': seq<Attempt>, ghost more: seq<Label>)
      requires pool.Valid() && n == |log| + 1 <= 3
      requires Going(pool.config, s0, pool.View(), task, worlds, trace, log, pause, mine, discards, probes, slept, 50 * |log|)
      modifies pool, pool.portManager, pool.portManager.availablePorts
      ensures pool.Valid() && |log'| == |log| + 1 && outcome == log'[|log|].result.outcome
      ensures outcome.ContainerNotReady? && |log'| < 3 ==>
                Going(pool.config, s0, pool.View(), task, worlds, trace + more, log', [], mine', discards',
                      probes + probed, slept + waited, 0)
      ensures !outcome.ContainerNotReady? || |log'| == 3 ==>
                Finished(pool.config, s0, pool.View(), task, worlds, trace + more, log', mine', discards',
                         probes + probed, slept + waited)
      ensures outcome.Leased? ==>
                outcome.id in mine' && outcome.id in pool.leases.live && pool.leases.live[outcome.id] == outcome.claim
      ensures !pool.collected ==>
                |discards'| == |log| + if outcome.ContainerNotReady? || outcome.HealthCheckFailed? then 1 else 0
      ensures !outcome.Leased? && !outcome.Cancelled? ==> NoEntry(pool.View(), mine')
      ensures outcome.MaxInstancesReached? ==> |pool.leasedHosts| >= pool.config.maxInstances && pool.availableHosts == []
      ensures outcome.NoAvailablePorts? ==> pool.portManager.availablePorts.queue == []
      ensures outcome.DockerFailed? ==> !worlds(|log'|).docker
      ensures outcome.Cancelled? ==> worlds(|log'|).dropped.Some?
      ensures outcome.ShuttingDown? ==> pool.shutdownFlag
      ensures outcome.InvalidLease? ==> pool.collected
    {
      hide Next, Inv, Run, Recorded, Logged, Tallied, NoEntry, LeaseAs, Finished, Going;
      ghost var s1 := pool.View();
      GoingOn(s0, task, worlds, trace, log, pause, mine, discards, probes, slept, 50 * |log|);
      var r;
      r, mine', discards', more := LeaseOnce(s0, task, worlds(n), mine, discards);
      log' := log + [Attempt(pause, more, r)];
      outcome, probed, waited := r.outcome, r.probes, r.slept;
      AttemptTaken(pool.config, s0, s1, pool.View(), task, worlds, trace, log, Attempt(pause, more, r),
                   mine, discards, probes, slept);
    }

    lemma GoingOn(s0: State, task: TaskId, worlds: nat -> World, trace: seq<Label>, log: seq<Attempt>, pause: seq<Label>,
                  mine: seq<LeaseId>, discards: seq<Claim>, probes: nat, slept: nat, further: nat)
      requires Going(pool.config, s0, pool.View(), task, worlds, trace, log, pause, mine, discards, probes, slept, further)
      ensures Recorded(s0, pool.View(), task, mine, discards) && NoEntry(pool.View(), mine)
      ensures !pool.collected ==> |discards| == |log|
    {
      hide Recorded, NoEntry, Logged, Tallied, Run;
    }

    /** One call of the pool, recorded. */
    method LeaseOnce(ghost s0: State, task: TaskId, world: World, mine: seq<LeaseId>, discards: seq<Claim>)
        returns (r: LeaseResult, mine': seq<LeaseId>, discards': seq<Claim>, ghost trace: seq<Label>)
      requires pool.Valid() && Recorded(s0, pool.View(), task, mine, discards) && NoEntry(pool.View(), mine)
      modifies pool, pool.portManager, pool.portManager.availablePorts
      ensures pool.Valid() && pool.View() == Run(pool.config, old(pool.View()), trace)
      ensures LeaseAs(pool.config, old(pool.View()), task, world, trace, r)
      ensures mine' == mine + AsSeq(r.mine) && discards' == discards + AsSeq(r.discarded)
      ensures Recorded(s0, pool.View(), task, mine', discards') && (old(pool.collected) ==> pool.collected)
      ensures r.outcome.Leased? ==>
                r.outcome.id in mine' && r.outcome.id in pool.leases.live && pool.leases.live[r.outcome.id] == r.outcome.claim
      ensures !pool.collected ==>
                |discards'| == |discards| + if r.outcome.ContainerNotReady? || r.outcome.HealthCheckFailed? then 1 else 0
      ensures !r.outcome.Leased? && !r.outcome.Cancelled? ==> NoEntry(pool.View(), mine')
      ensures r.outcome.MaxInstancesReached? ==> |pool.leasedHosts| >= pool.config.maxInstances && pool.availableHosts == []
      ensures r.outcome.NoAvailablePorts? ==> pool.portManager.availablePorts.queue == []
      ensures r.outcome.DockerFailed? ==> !world.docker
      ensures r.outcome.Cancelled? ==> world.dropped.Some?
      ensures r.outcome.ShuttingDown? ==> pool.shutdownFlag
      ensures r.outcome.InvalidLease? ==> pool.collected
    {
      hide Next, Inv, Run, Onward, Keeps, AllFailed, NoneFailed, NoEntry, Issued, Elements, LeaseAs, GivenBack, Delivered;
      ghost var s1 := pool.View();
      var outcome, id, discarded, probes, slept;
      outcome, id, discarded, probes, slept, trace := pool.LeaseHost(task, world);
      r := LeaseResult(outcome, id, discarded, probes, slept);
      discards', mine' := discards + AsSeq(discarded), mine + AsSeq(id);
      OneMoreFailed(s0, s1, pool.View(), discards, discarded);
      NoEntryStays(s1, pool.View(), mine);
      if id.Some? && !outcome.Leased? && !outcome.Cancelled? { OneMoreGone(pool.View(), mine, id.value); }
      OneMoreMine(mine, id);
      FailedOnward(s1, pool.View());
      OnwardComposes(s0, s1, pool.View());
    }

    /** Other tasks run during a backoff. */
    method Pause(ghost s0: State, task: TaskId, ghost worlds: nat -> World, schedule: seq<Label>,
                 ghost trace: seq<Label>, ghost log: seq<Attempt>, ghost mine: seq<LeaseId>, ghost discards: seq<Claim>,
                 ghost probes: nat, ghost slept: nat)
        returns (ghost pause: seq<Label>)
      requires pool.Valid() && log != []
      requires Going(pool.config, s0, pool.View(), task, worlds, trace, log, [], mine, discards, probes, slept, 0)
      modifies pool, pool.portManager, pool.portManager.availablePorts
      ensures pool.Valid()
      ensures Going(pool.config, s0, pool.View(), task, worlds, trace + pause, log, pause, mine, discards, probes,
                    slept + 50 * |log|, 50 * |log|)
    {
      hide Next, Inv, Run, Onward, Keeps, AllFailed, NoneFailed, NoEntry, Issued, Elements, Calls, Going;
      ghost var s1 := pool.View();
      GoingOn(s0, task, worlds, trace, log, [], mine, discards, probes, slept, 0);
      pause := pool.Others(Resting(task), schedule);
      RestingKeeps(task, s1, pool.View());
      FailedStays(s1, pool.View(), discards);
      NoEntryStays(s1, pool.View(), mine);
      OnwardComposes(s0, s1, pool.View());
      Paused(pool.config, s0, s1, pool.View(), task, worlds, trace, log, pause, mine, discards, probes, slept);
    }

    /** The life of a lease inside one request: whatever the container answers, and also when the request
        times out, the lease is dropped exactly once, and not before the request is over. A request that gets
        no lease does nothing more. */
    method ForwardToLambda(task: TaskId, worlds: nat -> World, pauses: nat -> seq<Label>, inFlight: seq<Label>)
        returns (outcome: LeaseOutcome, ghost log: seq<Attempt>, ghost served: seq<Label>, ghost trace: seq<Label>)
      requires pool.Valid() && Idle(pool.View(), task)
      modifies pool, pool.portManager, pool.portManager.availablePorts
      ensures pool.Valid() && pool.View() == Run(pool.config, old(pool.View()), trace)
      ensures RetryAs(pool.config, old(pool.View()), task, worlds, Flatten(log), log)
      ensures outcome == log[|log| - 1].result.outcome
      ensures trace == Flatten(log) + if outcome.Leased? then served + [DropLease(outcome.id)] else []
      ensures outcome.Leased? ==>
                && DropLease(outcome.id) !in served
                && var t := Run(pool.config, old(pool.View()), Flatten(log) + served);
                   outcome.id in t.leases.live && t.leases.live[outcome.id] == outcome.claim
      ensures outcome.Leased? ==> outcome.id !in pool.leases.live
      ensures outcome.Leased? ==> outcome.id in pool.leaseReleases || outcome.id in pool.leases.lost
    {
      hide Next, Inv, Run, Onward, Keeps, Idle, AllFailed, NoneFailed, NoEntry, RetryAs, Flatten, Issued;
      ghost var s0 := pool.View();
      var mine, discards, notReady, probes, slept;
      outcome, mine, discards, notReady, probes, slept, log, trace := LeaseHostWithRetry(task, worlds, pauses);
      served := [];
      LoggedTrace(s0, task, worlds, trace, log);
      if outcome.Leased? {
        ghost var s1 := pool.View();
        served := pool.Others(Lessee(outcome.id), inFlight);
        LesseeKeeps(outcome.id, s1, pool.View());
        OnlyLesseeDrops(outcome.id, served);
        Joined(pool.config, s0, trace, served);
        trace := trace + served;
        Took(pool.config, s0, trace, DropLease(outcome.id));
        pool.DropHostLease(outcome.id);
        trace := trace + [DropLease(outcome.id)];
      }
    }

    lemma LoggedTrace(s: State, task: TaskId, worlds: nat -> World, trace: seq<Label>, log: seq<Attempt>)
      requires RetryAs(pool.config, s, task, worlds, trace, log)
      ensures trace == Flatten(log) && trace + [] == trace && log != []
    {
    }

    static lemma OnlyLesseeDrops(id: LeaseId, trace: seq<Label>)
      requires forall l :: l in trace ==> Foreign(Lessee(id), l)
      ensures DropLease(id) !in trace
    {
      assert !Foreign(Lessee(id), DropLease(id));
    }
  }
}
