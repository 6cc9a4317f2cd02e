/** What one call of `lease_host` is, told from the run it performs: which of its own stretches the run takes, in
    which states, and the result each of them forces. Nothing here refers to how the call is programmed. */
module LeaseRuns {
  import opened Bags
  import opened PortSpec
  import opened Protocol

  datatype Probe = Healthy | Unhealthy | Unreachable

  /** What `lease_host` returns, or that the request was dropped at one of its waits. */
  datatype LeaseOutcome =
    | Leased(id: LeaseId, claim: Claim)
    | ShuttingDown
    | MaxInstancesReached
    | NoAvailablePorts
    | DockerFailed
    | ContainerNotReady
    | HealthCheckFailed
    | InvalidLease
    | Cancelled

  /** The waits of `lease_host`, at each of which its request may be dropped. */
  datatype Wait = ForLock | ForPort | ForDocker | ForProbe

  /** What surrounds one call: the other tasks that run at each of its waits, Docker's answers to whoever holds
      the lock it waits for, Docker's answer to itself, the health checks, and the wait at which its
      request is dropped, if it is. */
  datatype World = World(
    turns: nat -> seq<Label>,
    holder: (nat, nat) -> bool,
    docker: bool,
    health: nat -> Probe,
    dropped: Option<Wait>)

  /** How far a call has come when its host, if any, is inserted. */
  datatype LeaseBegun = Probing(id: LeaseId, claim: Claim) | Done(outcome: LeaseOutcome)

  /** What a call returns, the id it inserted, the host it discarded, and its probes and sleeps. */
  datatype LeaseResult = LeaseResult(
    outcome: LeaseOutcome,
    mine: Option<LeaseId>,
    discarded: Option<Claim>,
    probes: nat,
    slept: nat)

  function Inserts(b: LeaseBegun): Option<LeaseId> {
    match b
    case Probing(id, _) => Some(id)
    case Done(Leased(id, _)) => Some(id)
    case Done(_) => None
  }

  function ClaimOf(h: Host): Claim {
    Claim(h.container, h.port)
  }

  ghost function Mid(c: Config, s: State, trace: seq<Label>, n: nat): State
    requires n <= |trace|
  {
    Run(c, s, trace[..n])
  }

  // ---- Up to the insert ----

  /** The n-th label is Docker's answer to the spawn of the request. */
  ghost predicate DockerAnswered(c: Config, s: State, task: TaskId, port: Port, world: World, trace: seq<Label>,
                                 n: nat, b: LeaseBegun) {
    && n < |trace| && trace[n] == LeaseCreated(world.docker)
    && var t := Mid(c, s, trace, n);
    && t.pool.lock == Spawning(task, HavePort(port))
    && b == if world.docker then Probing(t.leases.next, Claim(t.cleanup.next, port)) else Done(DockerFailed)
  }

  /** A request that ends here without a host has given its port back. */
  ghost predicate AwaitedDocker(c: Config, s: State, task: TaskId, port: Port, world: World, trace: seq<Label>, b: LeaseBegun) {
    && (if world.dropped == Some(ForDocker) then b == Done(Cancelled)
        else exists n: nat :: DockerAnswered(c, s, task, port, world, trace, n, b))
    && (b.Done? ==> GivenBack(s.ports, Run(c, s, trace).ports, port))
  }

  /** The n-th label is the request's turn at the port queue: refused if that is empty, else granted its head. */
  ghost predicate PortAnswered(c: Config, s: State, task: TaskId, world: World, trace: seq<Label>, n: nat, b: LeaseBegun) {
    && n < |trace| && trace[n] == SpawnPort
    && var t := Mid(c, s, trace, n);
    && t.pool.lock == Spawning(task, NeedPort)
    && if t.ports.queue == [] then b == Done(NoAvailablePorts)
       else AwaitedDocker(c, Try(c, t, SpawnPort), task, t.ports.queue[0], world, trace[n + 1..], b)
  }

  ghost predicate Spawned(c: Config, s: State, task: TaskId, world: World, trace: seq<Label>, b: LeaseBegun) {
    if world.dropped == Some(ForPort) then b == Done(Cancelled)
    else exists n: nat :: PortAnswered(c, s, task, world, trace, n, b)
  }

  /** From the moment the request has the lock: the oldest available host is its own, at once if tested; an
      empty deque at capacity refuses it; an empty deque below capacity makes it spawn. */
  ghost predicate Locked(c: Config, s: State, task: TaskId, world: World, trace: seq<Label>, b: LeaseBegun) {
    && trace != [] && trace[0] == LeaseLock(task) && Enabled(s, LeaseLock(task))
    && if s.pool.available != [] then
         var h := s.pool.available[0];
         b == if h.tested then Done(Leased(s.leases.next, ClaimOf(h))) else Probing(s.leases.next, ClaimOf(h))
       else if |s.pool.leased| >= c.maxInstances then b == Done(MaxInstancesReached)
       else Spawned(c, Try(c, s, LeaseLock(task)), task, world, trace[1..], b)
  }

  ghost predicate LockTaken(c: Config, s: State, task: TaskId, world: World, trace: seq<Label>, n: nat, b: LeaseBegun) {
    n < |trace| && Locked(c, Mid(c, s, trace, n), task, world, trace[n..], b)
  }

  /** From the flag check to the insert or the refusal. */
  ghost predicate Begun(c: Config, s: State, task: TaskId, world: World, trace: seq<Label>, b: LeaseBegun) {
    && trace != [] && trace[0] == CheckFlag(task)
    && if s.shutdown then trace == [CheckFlag(task)] && b == Done(ShuttingDown)
       else if world.dropped == Some(ForLock) then b == Done(Cancelled)
       else exists n: nat :: LockTaken(c, s, task, world, trace, n, b)
  }

  // ---- After the insert ----

  /** The probes end at the first healthy answer, or at the tenth; there are fifty milliseconds between two. */
  ghost predicate ProbedAs(health: nat -> Probe, probes: nat, slept: nat) {
    && 1 <= probes <= 10 && slept == 50 * (probes - 1)
    && (forall i :: 1 <= i < probes ==> !health(i).Healthy?)
    && (probes < 10 ==> health(probes).Healthy?)
  }

  /** The n-th label is the caller's relock: it finds its entry and is leased the host, or gives the host up. */
  ghost predicate Relocked(c: Config, s: State, id: LeaseId, claim: Claim, world: World, trace: seq<Label>,
                           n: nat, r: LeaseResult) {
    && n < |trace|
    && var t := Mid(c, s, trace, n);
    && t.pool.lock.Free? && id in t.leases.probing
    && if world.health(r.probes).Healthy? then
         && trace[n] == ProbePassed(id) && r.discarded.None?
         && r.outcome == if id in t.pool.leased then Leased(id, claim) else InvalidLease
       else
         && trace[n] == ProbeFailed(id)
         && r.outcome == (if world.health(r.probes).Unreachable? then HealthCheckFailed else ContainerNotReady)
         && r.discarded == if id in t.pool.leased then Some(ClaimOf(t.pool.leased[id])) else None
  }

  ghost predicate Answered(c: Config, s: State, id: LeaseId, claim: Claim, world: World, trace: seq<Label>, r: LeaseResult) {
    && r.mine == Some(id) && ProbedAs(world.health, r.probes, r.slept)
    && if world.dropped == Some(ForProbe) then r.outcome == Cancelled && r.discarded.None?
       else exists n: nat :: Relocked(c, s, id, claim, world, trace, n, r)
  }

  // ---- The whole call ----

  ghost predicate LeaseParts(c: Config, s: State, task: TaskId, world: World, trace: seq<Label>, r: LeaseResult,
                             n: nat, b: LeaseBegun) {
    && n <= |trace| && Begun(c, s, task, world, trace[..n], b)
    && match b
       case Done(outcome) => n == |trace| && r == LeaseResult(outcome, Inserts(b), None, 0, 0)
       case Probing(id, claim) => Answered(c, Mid(c, s, trace, n), id, claim, world, trace[n..], r)
  }

  /** The run of one call from state s, and what it returns. */
  ghost predicate LeaseAs(c: Config, s: State, task: TaskId, world: World, trace: seq<Label>, r: LeaseResult) {
    && (exists n: nat, b :: LeaseParts(c, s, task, world, trace, r, n, b))
    && CheckFlag(task) !in trace[1..]
  }

  // ---- Putting parts together ----

  lemma Split<T>(a: seq<T>, b: seq<T>)
    ensures (a + b)[..|a|] == a && (a + b)[|a|..] == b
  {
  }

  lemma DockerJoins(c: Config, s: State, task: TaskId, port: Port, world: World, pre: seq<Label>, rest: seq<Label>,
                    b: LeaseBegun)
    requires world.dropped != Some(ForDocker) && rest != [] && rest[0] == LeaseCreated(world.docker)
    requires var t := Run(c, s, pre);
             && t.pool.lock == Spawning(task, HavePort(port))
             && b == if world.docker then Probing(t.leases.next, Claim(t.cleanup.next, port)) else Done(DockerFailed)
    requires b.Done? ==> GivenBack(s.ports, Run(c, s, pre + rest).ports, port)
    ensures AwaitedDocker(c, s, task, port, world, pre + rest, b)
  {
    hide GivenBack;
    Split(pre, rest);
    assert (pre + rest)[|pre|] == rest[0];
    assert DockerAnswered(c, s, task, port, world, pre + rest, |pre|, b);
  }

  lemma PortJoins(c: Config, s: State, task: TaskId, world: World, pre: seq<Label>, rest: seq<Label>, b: LeaseBegun)
    requires world.dropped != Some(ForPort)
    requires var t := Run(c, s, pre);
             && t.pool.lock == Spawning(task, NeedPort)
             && if t.ports.queue == [] then b == Done(NoAvailablePorts)
                else AwaitedDocker(c, Try(c, t, SpawnPort), task, t.ports.queue[0], world, rest, b)
    ensures Spawned(c, s, task, world, pre + [SpawnPort] + rest, b)
  {
    hide AwaitedDocker;
    var trace := pre + [SpawnPort] + rest;
    assert trace[..|pre|] == pre && trace[|pre|] == SpawnPort && trace[|pre| + 1..] == rest;
    assert PortAnswered(c, s, task, world, trace, |pre|, b);
  }

  lemma Waited(task: TaskId, rest: seq<Label>)
    requires CheckFlag(task) !in rest
    ensures CheckFlag(task) !in ([CheckFlag(task)] + rest)[1..]
  {
    assert ([CheckFlag(task)] + rest)[1..] == rest;
  }

  lemma LockedReuses(c: Config, s: State, task: TaskId, world: World, b: LeaseBegun)
    requires Enabled(s, LeaseLock(task)) && s.pool.available != []
    requires var h := s.pool.available[0];
             b == if h.tested then Done(Leased(s.leases.next, ClaimOf(h))) else Probing(s.leases.next, ClaimOf(h))
    ensures Locked(c, s, task, world, [LeaseLock(task)], b)
  {
  }

  lemma LockedRefuses(c: Config, s: State, task: TaskId, world: World)
    requires Enabled(s, LeaseLock(task)) && s.pool.available == [] && |s.pool.leased| >= c.maxInstances
    ensures Locked(c, s, task, world, [LeaseLock(task)], Done(MaxInstancesReached))
  {
  }

  lemma LockedSpawns(c: Config, s: State, task: TaskId, world: World, rest: seq<Label>, b: LeaseBegun)
    requires Enabled(s, LeaseLock(task)) && s.pool.available == [] && |s.pool.leased| < c.maxInstances
    requires Spawned(c, Next(c, s, LeaseLock(task)), task, world, rest, b)
    ensures Locked(c, s, task, world, [LeaseLock(task)] + rest, b)
  {
    hide Spawned, Next;
    assert ([LeaseLock(task)] + rest)[1..] == rest;
  }

  lemma LockJoins(c: Config, s: State, task: TaskId, world: World, pre: seq<Label>, rest: seq<Label>, b: LeaseBegun)
    requires !s.shutdown && world.dropped != Some(ForLock) && pre != [] && pre[0] == CheckFlag(task)
    requires Locked(c, Run(c, s, pre), task, world, rest, b)
    requires CheckFlag(task) !in pre[1..] && CheckFlag(task) !in rest
    ensures Begun(c, s, task, world, pre + rest, b) && CheckFlag(task) !in (pre + rest)[1..]
  {
    assert (pre + rest)[1..] == pre[1..] + rest;
    Split(pre, rest);
    assert rest != [];
    hide Locked;
    assert LockTaken(c, s, task, world, pre + rest, |pre|, b);
  }

  lemma RelockJoins(c: Config, s: State, id: LeaseId, claim: Claim, world: World, pre: seq<Label>, rest: seq<Label>,
                    r: LeaseResult)
    requires world.dropped != Some(ForProbe) && r.mine == Some(id) && ProbedAs(world.health, r.probes, r.slept)
    requires Relocked(c, Run(c, s, pre), id, claim, world, rest, 0, r)
    ensures Answered(c, s, id, claim, world, pre + rest, r)
  {
    Split(pre, rest);
    assert rest[..0] == [];
    assert (pre + rest)[|pre|] == rest[0];
    assert Relocked(c, s, id, claim, world, pre + rest, |pre|, r);
  }

  lemma CallDone(c: Config, s: State, task: TaskId, world: World, trace: seq<Label>, outcome: LeaseOutcome)
    requires Begun(c, s, task, world, trace, Done(outcome)) && CheckFlag(task) !in trace[1..]
    ensures LeaseAs(c, s, task, world, trace, LeaseResult(outcome, Inserts(Done(outcome)), None, 0, 0))
  {
    hide Begun;
    var r := LeaseResult(outcome, Inserts(Done(outcome)), None, 0, 0);
    assert trace[..|trace|] == trace;
    assert LeaseParts(c, s, task, world, trace, r, |trace|, Done(outcome));
  }

  lemma CallJoins(c: Config, s: State, task: TaskId, world: World, pre: seq<Label>, rest: seq<Label>,
                  id: LeaseId, claim: Claim, r: LeaseResult)
    requires Begun(c, s, task, world, pre, Probing(id, claim)) && CheckFlag(task) !in pre[1..] && CheckFlag(task) !in rest
    requires Answered(c, Run(c, s, pre), id, claim, world, rest, r)
    ensures LeaseAs(c, s, task, world, pre + rest, r)
  {
    Split(pre, rest);
    assert pre != [];
    assert (pre + rest)[1..] == pre[1..] + rest;
    hide Begun, Answered;
    assert LeaseParts(c, s, task, world, pre + rest, r, |pre|, Probing(id, claim));
  }
}
