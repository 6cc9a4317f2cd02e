/** What a leasing with retries is, told from the run it performs: a log of attempts, each a call of `lease_host`,
    with the pause before it. */
module RetryRuns {
  import opened Bags
  import opened Protocol
  import opened Interference
  import opened LeaseRuns

  /** The pause before an attempt, the run of its call, and what that returned. */
  datatype Attempt = Attempt(pause: seq<Label>, call: seq<Label>, result: LeaseResult)

  function Flatten(log: seq<Attempt>): seq<Label>
    decreases |log|
  {
    if log == [] then []
    else
      var n := |log| - 1;
      Flatten(log[..n]) + (log[n].pause + log[n].call)
  }

  function NotReadySoFar(log: seq<Attempt>): bool {
    log == [] || log[|log| - 1].result.outcome.ContainerNotReady?
  }

  /** Only an attempt whose host was not ready is followed by another; there is no pause before the first, and
      the request does nothing in a pause. */
  ghost predicate Attempts(c: Config, s: State, task: TaskId, worlds: nat -> World, log: seq<Attempt>)
    decreases |log|
  {
    log == [] ||
    var n := |log| - 1;
    var t := Run(c, s, Flatten(log[..n]));
    && Attempts(c, s, task, worlds, log[..n]) && NotReadySoFar(log[..n])
    && (n == 0 ==> log[n].pause == []) && (forall l :: l in log[n].pause ==> !Calls(l, task))
    && LeaseAs(c, Run(c, t, log[n].pause), task, worlds(n + 1), log[n].call, log[n].result)
  }

  /** Three attempts if none of them finds a ready host, else as many as it takes to get another answer. */
  ghost predicate RetryAs(c: Config, s: State, task: TaskId, worlds: nat -> World, trace: seq<Label>, log: seq<Attempt>) {
    && Attempts(c, s, task, worlds, log) && trace == Flatten(log)
    && 1 <= |log| <= 3 && (NotReadySoFar(log) ==> |log| == 3)
  }

  // ---- What the attempts amount to ----

  function MineOf(log: seq<Attempt>): seq<LeaseId>
    decreases |log|
  {
    if log == [] then [] else MineOf(log[..|log| - 1]) + AsSeq(log[|log| - 1].result.mine)
  }

  function DiscardsOf(log: seq<Attempt>): seq<Claim>
    decreases |log|
  {
    if log == [] then [] else DiscardsOf(log[..|log| - 1]) + AsSeq(log[|log| - 1].result.discarded)
  }

  function ProbesOf(log: seq<Attempt>): nat
    decreases |log|
  {
    if log == [] then 0 else ProbesOf(log[..|log| - 1]) + log[|log| - 1].result.probes
  }

  /** The sleeps of the calls, and fifty milliseconds more in each pause than in the one before. */
  function SleptOf(log: seq<Attempt>): nat
    decreases |log|
  {
    if log == [] then 0
    else
      var n := |log| - 1;
      SleptOf(log[..n]) + 50 * n + log[n].result.slept
  }

  /** Attempts so far, all not ready, and the pause after them. */
  ghost predicate Logged(c: Config, s: State, task: TaskId, worlds: nat -> World, trace: seq<Label>,
                         log: seq<Attempt>, pause: seq<Label>) {
    && Attempts(c, s, task, worlds, log) && trace == Flatten(log) + pause && NotReadySoFar(log)
    && (log == [] ==> pause == []) && forall l :: l in pause ==> !Calls(l, task)
  }

  /** What they amount to, with a further sleep. */
  ghost predicate Tallied(log: seq<Attempt>, mine: seq<LeaseId>, discards: seq<Claim>, probes: nat, slept: nat, further: nat) {
    && mine == MineOf(log) && discards == DiscardsOf(log)
    && probes == ProbesOf(log) && slept == SleptOf(log) + further
  }

  lemma NoAttempts(c: Config, s: State, task: TaskId, worlds: nat -> World)
    ensures Logged(c, s, task, worlds, [], [], []) && Tallied([], [], [], 0, 0, 0)
  {
  }

  lemma OneMoreLogged(c: Config, s: State, task: TaskId, worlds: nat -> World, trace: seq<Label>, log: seq<Attempt>, a: Attempt)
    requires Logged(c, s, task, worlds, trace, log, a.pause)
    requires LeaseAs(c, Run(c, s, trace), task, worlds(|log| + 1), a.call, a.result)
    ensures var all := log + [a];
            && Attempts(c, s, task, worlds, all) && trace + a.call == Flatten(all)
            && (a.result.outcome.ContainerNotReady? ==> Logged(c, s, task, worlds, trace + a.call, all, []))
  {
    hide LeaseAs, Run;
    var all := log + [a];
    assert all[..|log|] == log && all[|log|] == a;
    RunConcat(c, s, Flatten(log), a.pause);
    assert Flatten(all) + [] == Flatten(all);
  }

  lemma OneMoreTallied(log: seq<Attempt>, a: Attempt, mine: seq<LeaseId>, discards: seq<Claim>, probes: nat, slept: nat)
    requires Tallied(log, mine, discards, probes, slept, 50 * |log|)
    ensures Tallied(log + [a], mine + AsSeq(a.result.mine), discards + AsSeq(a.result.discarded),
                    probes + a.result.probes, slept + a.result.slept, 0)
  {
    assert (log + [a])[..|log|] == log;
  }

  /** One more attempt, after the pause that follows the others. */
  lemma OneMoreAttempt(c: Config, s: State, task: TaskId, worlds: nat -> World, trace: seq<Label>, log: seq<Attempt>,
                       a: Attempt, mine: seq<LeaseId>, discards: seq<Claim>, probes: nat, slept: nat)
    requires Logged(c, s, task, worlds, trace, log, a.pause) && Tallied(log, mine, discards, probes, slept, 50 * |log|)
    requires LeaseAs(c, Run(c, s, trace), task, worlds(|log| + 1), a.call, a.result) && |log| < 3
    ensures var all, o := log + [a], a.result.outcome;
            && Tallied(all, mine + AsSeq(a.result.mine), discards + AsSeq(a.result.discarded),
                       probes + a.result.probes, slept + a.result.slept, 0)
            && (o.ContainerNotReady? ==> Logged(c, s, task, worlds, trace + a.call, all, []))
            && (!o.ContainerNotReady? || |all| == 3 ==> RetryAs(c, s, task, worlds, trace + a.call, all))
  {
    hide LeaseAs, Run, Attempts, Logged, Tallied, Flatten;
    OneMoreLogged(c, s, task, worlds, trace, log, a);
    OneMoreTallied(log, a, mine, discards, probes, slept);
  }

  lemma OneMorePause(c: Config, s: State, task: TaskId, worlds: nat -> World, trace: seq<Label>, log: seq<Attempt>,
                     pause: seq<Label>, mine: seq<LeaseId>, discards: seq<Claim>, probes: nat, slept: nat)
    requires Logged(c, s, task, worlds, trace, log, []) && Tallied(log, mine, discards, probes, slept, 0)
    requires log != [] && forall l :: l in pause ==> !Calls(l, task)
    ensures Logged(c, s, task, worlds, trace + pause, log, pause)
    ensures Tallied(log, mine, discards, probes, slept + 50 * |log|, 50 * |log|)
  {
    hide Attempts, Flatten;
  }

  // ---- What follows from that ----

  /** A call that ends before its insert never ends with a host that is not ready. */
  lemma BegunOutcome(c: Config, s: State, task: TaskId, world: World, trace: seq<Label>, b: LeaseBegun)
    requires Begun(c, s, task, world, trace, b) && b.Done?
    ensures var o := b.outcome;
            o.Leased? || o.ShuttingDown? || o.MaxInstancesReached? || o.NoAvailablePorts? || o.DockerFailed? || o.Cancelled?
  {
    if !s.shutdown && world.dropped != Some(ForLock) {
      var n: nat :| LockTaken(c, s, task, world, trace, n, b);
      LockedOutcome(c, Mid(c, s, trace, n), task, world, trace[n..], b);
    }
  }

  lemma LockedOutcome(c: Config, s: State, task: TaskId, world: World, trace: seq<Label>, b: LeaseBegun)
    requires Locked(c, s, task, world, trace, b) && b.Done?
    ensures var o := b.outcome;
            o.Leased? || o.MaxInstancesReached? || o.NoAvailablePorts? || o.DockerFailed? || o.Cancelled?
  {
    if s.pool.available == [] && |s.pool.leased| < c.maxInstances && world.dropped != Some(ForPort) {
      hide Try, Run;
      var after, rest := Try(c, s, LeaseLock(task)), trace[1..];
      var n: nat :| PortAnswered(c, after, task, world, rest, n, b);
      var t := Mid(c, after, rest, n);
      if t.ports.queue != [] && world.dropped != Some(ForDocker) {
        var m: nat :| DockerAnswered(c, Try(c, t, SpawnPort), task, t.ports.queue[0], world, rest[n + 1..], m, b);
      }
    }
  }

  /** The sleeps of a call are those between its probes, at most ten; all ten precede a host that is not
      ready. */
  lemma CallBound(c: Config, s: State, task: TaskId, world: World, trace: seq<Label>, r: LeaseResult)
    requires LeaseAs(c, s, task, world, trace, r)
    ensures r.probes <= 10 && r.slept == 50 * (if r.probes > 0 then r.probes - 1 else 0)
    ensures r.outcome.ContainerNotReady? ==> r.probes == 10
    ensures trace != [] && trace[0] == CheckFlag(task) && CheckFlag(task) !in trace[1..]
  {
    hide Run, Begun;
    var n: nat, b :| LeaseParts(c, s, task, world, trace, r, n, b);
    BegunHead(c, s, task, world, trace[..n], b);
    if b.Done? {
      BegunOutcome(c, s, task, world, trace[..n], b);
    } else if world.dropped != Some(ForProbe) {
      var m: nat :| Relocked(c, Mid(c, s, trace, n), b.id, b.claim, world, trace[n..], m, r);
    }
  }

  lemma BegunHead(c: Config, s: State, task: TaskId, world: World, trace: seq<Label>, b: LeaseBegun)
    requires Begun(c, s, task, world, trace, b)
    ensures trace != [] && trace[0] == CheckFlag(task)
  {
  }

  /** The request checks the shutdown flag once for each attempt and not otherwise. */
  lemma {:induction false} OneCheckEach(c: Config, s: State, task: TaskId, worlds: nat -> World, log: seq<Attempt>)
    requires Attempts(c, s, task, worlds, log)
    ensures multiset(Flatten(log))[CheckFlag(task)] == |log|
    decreases |log|
  {
    hide LeaseAs, Run, Calls;
    if log != [] {
      var n := |log| - 1;
      var a := log[n];
      OneCheckEach(c, s, task, worlds, log[..n]);
      CallBound(c, Run(c, Run(c, s, Flatten(log[..n])), a.pause), task, worlds(n + 1), a.call, a.result);
      OneCheckMore(Flatten(log[..n]), a.pause, a.call, task);
    }
  }

  lemma OneCheckMore(before: seq<Label>, pause: seq<Label>, call: seq<Label>, task: TaskId)
    requires forall l :: l in pause ==> !Calls(l, task)
    requires call != [] && call[0] == CheckFlag(task) && CheckFlag(task) !in call[1..]
    ensures multiset(before + (pause + call))[CheckFlag(task)] == multiset(before)[CheckFlag(task)] + 1
  {
    assert CheckFlag(task) !in pause by { assert Calls(CheckFlag(task), task); }
    hide Calls;
    assert call == [CheckFlag(task)] + call[1..];
  }

  /** At most ten probes and four hundred and fifty milliseconds for each attempt, and the pauses. */
  lemma {:induction false} AttemptsBound(c: Config, s: State, task: TaskId, worlds: nat -> World, log: seq<Attempt>)
    requires Attempts(c, s, task, worlds, log) && |log| <= 3
    ensures ProbesOf(log) <= 10 * |log|
    ensures SleptOf(log) <= 450 * |log| + (if |log| == 3 then 150 else if |log| == 2 then 50 else 0)
    ensures NotReadySoFar(log) ==>
              && ProbesOf(log) == 10 * |log|
              && SleptOf(log) == 450 * |log| + (if |log| == 3 then 150 else if |log| == 2 then 50 else 0)
    decreases |log|
  {
    if log != [] {
      var n := |log| - 1;
      var a := log[n];
      AttemptsBound(c, s, task, worlds, log[..n]);
      CallBound(c, Run(c, Run(c, s, Flatten(log[..n])), a.pause), task, worlds(n + 1), a.call, a.result);
      hide LeaseAs, Run;
    }
  }

  /** One leasing makes at most 30 probes and sleeps at most 1500 ms, and exactly so many if no host was ready. */
  lemma RetryBound(c: Config, s: State, task: TaskId, worlds: nat -> World, trace: seq<Label>, log: seq<Attempt>)
    requires RetryAs(c, s, task, worlds, trace, log)
    ensures ProbesOf(log) <= 30 && SleptOf(log) <= 1500
    ensures NotReadySoFar(log) ==> ProbesOf(log) == 30 && SleptOf(log) == 1500
    ensures multiset(trace)[CheckFlag(task)] == |log| && 1 <= |log| <= 3 && trace == Flatten(log)
  {
    AttemptsBound(c, s, task, worlds, log);
    OneCheckEach(c, s, task, worlds, log);
    hide Attempts;
  }
}
