/** A run decides its result: the same run of a call, in the same world, cannot return two different things. */
module Decisions {
  import opened Bags
  import opened PortSpec
  import opened Protocol
  import opened Footprints
  import opened Leasing
  import opened Invariant
  import opened LeaseRuns

  // ---- A call takes each of its stretches once ----

  /** The request is past a wait: it cannot come back to it without checking the flag again. */
  predicate Past(s: State, task: TaskId, w: Wait) {
    && task !in s.leases.waiting
    && (w != ForLock ==> s.pool.lock != Spawning(task, NeedPort))
    && (w == ForDocker ==> Idle(s, task))
  }

  lemma WaitingShrinks(c: Config, s: State, l: Label, task: TaskId)
    requires Enabled(s, l) && l != CheckFlag(task) && task !in s.leases.waiting
    ensures task !in Next(c, s, l).leases.waiting
  {
    if l.CheckFlag? || l.LeaseLock? || l.CancelWaiting? {
      hide FreeStage;
    } else {
      WaitingStays(c, s, l);
      hide Next;
    }
  }

  lemma PastStays(c: Config, s: State, l: Label, task: TaskId, w: Wait)
    requires l != CheckFlag(task) && Past(s, task, w)
    ensures Past(Try(c, s, l), task, w)
  {
    hide Next;
    if Enabled(s, l) {
      WaitingShrinks(c, s, l, task);
      LockMoves(c, s, l);
    }
  }

  lemma {:induction false} PastRun(c: Config, s: State, trace: seq<Label>, task: TaskId, w: Wait)
    requires CheckFlag(task) !in trace && Past(s, task, w)
    ensures Past(Run(c, s, trace), task, w)
    decreases |trace|
  {
    hide Past, Try;
    if trace != [] {
      PastStays(c, s, trace[0], task, w);
      PastRun(c, Try(c, s, trace[0]), trace[1..], task, w);
    }
  }

  lemma MidMid(c: Config, s: State, trace: seq<Label>, n: nat, m: nat)
    requires n + m <= |trace|
    ensures Mid(c, Mid(c, s, trace, n), trace[n..], m) == Mid(c, s, trace, n + m)
  {
    assert trace[..n] + trace[n..][..m] == trace[..n + m];
    RunConcat(c, s, trace[..n], trace[n..][..m]);
  }

  lemma MidNext(c: Config, s: State, trace: seq<Label>, n: nat)
    requires n < |trace|
    ensures Mid(c, s, trace, n + 1) == Try(c, Mid(c, s, trace, n), trace[n])
  {
    hide Try;
    assert trace[..n] + [trace[n]] == trace[..n + 1];
    RunConcat(c, s, trace[..n], [trace[n]]);
    var t := Mid(c, s, trace, n);
    assert Run(c, t, [trace[n]]) == Run(c, Try(c, t, trace[n]), []);
  }

  /** After a stretch that takes the request past a wait, it is past it at every later point. */
  lemma PastFrom(c: Config, s: State, trace: seq<Label>, n: nat, m: nat, task: TaskId, w: Wait)
    requires n < m <= |trace| && CheckFlag(task) !in trace[n + 1..]
    requires Past(Try(c, Mid(c, s, trace, n), trace[n]), task, w)
    ensures Past(Mid(c, s, trace, m), task, w)
  {
    hide Past, Try, Run;
    MidNext(c, s, trace, n);
    MidMid(c, s, trace, n + 1, m - n - 1);
    PastRun(c, Mid(c, s, trace, n + 1), trace[n + 1..][..m - n - 1], task, w);
  }

  lemma PastAt(c: Config, s: State, trace: seq<Label>, n: nat, task: TaskId, w: Wait)
    requires n <= |trace| && CheckFlag(task) !in trace && Past(s, task, w)
    ensures Past(Mid(c, s, trace, n), task, w)
  {
    hide Past, Run;
    PastRun(c, s, trace[..n], task, w);
  }

  // ---- Up to the insert ----

  lemma DockerOnce(c: Config, s: State, task: TaskId, port: Port, world: World, trace: seq<Label>,
                   n: nat, b: LeaseBegun, m: nat, b': LeaseBegun)
    requires CheckFlag(task) !in trace && Past(s, task, ForPort)
    requires DockerAnswered(c, s, task, port, world, trace, n, b) && DockerAnswered(c, s, task, port, world, trace, m, b')
    ensures n >= m
  {
    hide Run;
    if n < m {
      PastAt(c, s, trace, n, task, ForPort);
      NextLeaseCreated(c, Mid(c, s, trace, n), world.docker);
      PastFrom(c, s, trace, n, m, task, ForDocker);
    }
  }

  lemma DockerDecides(c: Config, s: State, task: TaskId, port: Port, world: World, trace: seq<Label>,
                      b: LeaseBegun, b': LeaseBegun)
    requires CheckFlag(task) !in trace && Past(s, task, ForPort)
    requires AwaitedDocker(c, s, task, port, world, trace, b) && AwaitedDocker(c, s, task, port, world, trace, b')
    ensures b == b'
  {
    if world.dropped != Some(ForDocker) {
      var n: nat :| DockerAnswered(c, s, task, port, world, trace, n, b);
      var m: nat :| DockerAnswered(c, s, task, port, world, trace, m, b');
      hide Run, GivenBack;
      DockerOnce(c, s, task, port, world, trace, n, b, m, b');
      DockerOnce(c, s, task, port, world, trace, m, b', n, b);
    }
  }

  /** Taking a port, or being refused one, takes the request past that wait. */
  lemma PortTaken(c: Config, s: State, task: TaskId)
    requires s.pool.lock == Spawning(task, NeedPort) && Past(s, task, ForLock)
    ensures Past(Try(c, s, SpawnPort), task, ForPort)
  {
    hide Do;
  }

  lemma PortOnce(c: Config, s: State, task: TaskId, world: World, trace: seq<Label>,
                 n: nat, b: LeaseBegun, m: nat, b': LeaseBegun)
    requires CheckFlag(task) !in trace && Past(s, task, ForLock)
    requires PortAnswered(c, s, task, world, trace, n, b) && PortAnswered(c, s, task, world, trace, m, b')
    ensures n >= m
  {
    hide Run, Try, AwaitedDocker;
    if n < m {
      PastAt(c, s, trace, n, task, ForLock);
      PortTaken(c, Mid(c, s, trace, n), task);
      PastFrom(c, s, trace, n, m, task, ForPort);
    }
  }

  lemma PortDecides(c: Config, s: State, task: TaskId, world: World, trace: seq<Label>, b: LeaseBegun, b': LeaseBegun)
    requires CheckFlag(task) !in trace && Past(s, task, ForLock)
    requires Spawned(c, s, task, world, trace, b) && Spawned(c, s, task, world, trace, b')
    ensures b == b'
  {
    if world.dropped != Some(ForPort) {
      var n: nat :| PortAnswered(c, s, task, world, trace, n, b);
      var m: nat :| PortAnswered(c, s, task, world, trace, m, b');
      hide Run, Try, AwaitedDocker;
      PortOnce(c, s, task, world, trace, n, b, m, b');
      PortOnce(c, s, task, world, trace, m, b', n, b);
      var t := Mid(c, s, trace, n);
      if t.ports.queue != [] {
        PastAt(c, s, trace, n, task, ForLock);
        PortTaken(c, t, task);
        DockerDecides(c, Try(c, t, SpawnPort), task, t.ports.queue[0], world, trace[n + 1..], b, b');
      }
    }
  }

  lemma LockIsPast(c: Config, s: State, task: TaskId)
    requires Enabled(s, LeaseLock(task))
    ensures Past(Try(c, s, LeaseLock(task)), task, ForLock)
  {
    NextLeaseLock(c, s, task);
    hide Next;
  }

  lemma LockDecides(c: Config, s: State, task: TaskId, world: World, trace: seq<Label>, b: LeaseBegun, b': LeaseBegun)
    requires CheckFlag(task) !in trace
    requires Locked(c, s, task, world, trace, b) && Locked(c, s, task, world, trace, b')
    ensures b == b'
  {
    hide Spawned, Try;
    if s.pool.available == [] && |s.pool.leased| < c.maxInstances {
      LockIsPast(c, s, task);
      PortDecides(c, Try(c, s, LeaseLock(task)), task, world, trace[1..], b, b');
    }
  }

  lemma LockOnce(c: Config, s: State, task: TaskId, world: World, trace: seq<Label>,
                 n: nat, b: LeaseBegun, m: nat, b': LeaseBegun)
    requires trace != [] && trace[0] == CheckFlag(task) && CheckFlag(task) !in trace[1..]
    requires LockTaken(c, s, task, world, trace, n, b) && LockTaken(c, s, task, world, trace, m, b')
    ensures n >= m
  {
    hide Run, Try, Spawned;
    if n < m {
      assert trace[n..][0] == trace[n] && trace[m..][0] == trace[m];
      LockIsPast(c, Mid(c, s, trace, n), task);
      PastFrom(c, s, trace, n, m, task, ForLock);
    }
  }

  lemma BegunDecides(c: Config, s: State, task: TaskId, world: World, trace: seq<Label>, b: LeaseBegun, b': LeaseBegun)
    requires trace != [] && CheckFlag(task) !in trace[1..]
    requires Begun(c, s, task, world, trace, b) && Begun(c, s, task, world, trace, b')
    ensures b == b'
  {
    if !s.shutdown && world.dropped != Some(ForLock) {
      var n: nat :| LockTaken(c, s, task, world, trace, n, b);
      var m: nat :| LockTaken(c, s, task, world, trace, m, b');
      LockOnce(c, s, task, world, trace, n, b, m, b');
      LockOnce(c, s, task, world, trace, m, b', n, b);
      assert n > 0 by { assert trace[n..][0] == trace[n]; }
      hide Run, Locked;
      LockDecides(c, Mid(c, s, trace, n), task, world, trace[n..], b, b');
    }
  }

  // ---- A host to probe is decided by the time it is inserted ----

  lemma DockerExtends(c: Config, s: State, task: TaskId, port: Port, world: World, trace: seq<Label>, more: seq<Label>,
                      b: LeaseBegun)
    requires AwaitedDocker(c, s, task, port, world, trace, b) && b.Probing?
    ensures AwaitedDocker(c, s, task, port, world, trace + more, b)
  {
    var n: nat :| DockerAnswered(c, s, task, port, world, trace, n, b);
    hide Run;
    assert (trace + more)[..n] == trace[..n];
    assert DockerAnswered(c, s, task, port, world, trace + more, n, b);
  }

  lemma PortExtends(c: Config, s: State, task: TaskId, world: World, trace: seq<Label>, more: seq<Label>, b: LeaseBegun)
    requires Spawned(c, s, task, world, trace, b) && b.Probing?
    ensures Spawned(c, s, task, world, trace + more, b)
  {
    hide Run, Try, AwaitedDocker;
    var n: nat :| PortAnswered(c, s, task, world, trace, n, b);
    var t := Mid(c, s, trace, n);
    assert (trace + more)[..n] == trace[..n] && (trace + more)[n + 1..] == trace[n + 1..] + more;
    DockerExtends(c, Try(c, t, SpawnPort), task, t.ports.queue[0], world, trace[n + 1..], more, b);
    assert PortAnswered(c, s, task, world, trace + more, n, b);
  }

  lemma LockExtends(c: Config, s: State, task: TaskId, world: World, trace: seq<Label>, more: seq<Label>, b: LeaseBegun)
    requires Locked(c, s, task, world, trace, b) && b.Probing?
    ensures Locked(c, s, task, world, trace + more, b)
  {
    hide Spawned, Try;
    if s.pool.available == [] {
      assert (trace + more)[1..] == trace[1..] + more;
      PortExtends(c, Try(c, s, LeaseLock(task)), task, world, trace[1..], more, b);
    }
  }

  lemma BegunExtends(c: Config, s: State, task: TaskId, world: World, trace: seq<Label>, more: seq<Label>, b: LeaseBegun)
    requires Begun(c, s, task, world, trace, b) && b.Probing?
    ensures Begun(c, s, task, world, trace + more, b)
  {
    var n: nat :| LockTaken(c, s, task, world, trace, n, b);
    hide Run, Locked;
    assert (trace + more)[..n] == trace[..n] && (trace + more)[n..] == trace[n..] + more;
    LockExtends(c, Mid(c, s, trace, n), task, world, trace[n..], more, b);
    assert LockTaken(c, s, task, world, trace + more, n, b);
  }

  // ---- After the insert ----

  predicate NotProbing(s: State, id: LeaseId) {
    id !in s.leases.probing && id < s.leases.next
  }

  lemma NotProbingStays(c: Config, s: State, l: Label, id: LeaseId)
    requires NotProbing(s, id)
    ensures NotProbing(Try(c, s, l), id)
  {
    hide Next;
    if Enabled(s, l) { LeasesNow(c, s, l); }
  }

  lemma {:induction false} NotProbingRun(c: Config, s: State, trace: seq<Label>, id: LeaseId)
    requires NotProbing(s, id)
    ensures NotProbing(Run(c, s, trace), id)
    decreases |trace|
  {
    hide NotProbing, Try;
    if trace != [] {
      NotProbingStays(c, s, trace[0], id);
      NotProbingRun(c, Try(c, s, trace[0]), trace[1..], id);
    }
  }

  /** The relock, by its position in the whole run. */
  lemma RelockInRun(c: Config, s: State, id: LeaseId, claim: Claim, world: World, trace: seq<Label>, n: nat, m: nat,
                    r: LeaseResult)
    requires n <= |trace| && Relocked(c, Mid(c, s, trace, n), id, claim, world, trace[n..], m, r)
    ensures Relocked(c, s, id, claim, world, trace, n + m, r)
  {
    hide Run;
    MidMid(c, s, trace, n, m);
  }

  lemma ProbingIssued(c: Config, s: State, id: LeaseId)
    requires Inv(c, s) && id in s.leases.probing
    ensures id < s.leases.next
  {
    InvLeases(c, s);
    hide Inv;
    assert InOrder(s, id);
  }

  lemma RelockEnds(c: Config, s: State, l: Label, id: LeaseId)
    requires Inv(c, s) && id in s.leases.probing && s.pool.lock.Free? && (l == ProbePassed(id) || l == ProbeFailed(id))
    ensures NotProbing(Try(c, s, l), id)
  {
    hide Inv, Next;
    ProbingIssued(c, s, id);
    LeasesNow(c, s, l);
  }

  lemma RelockOnce(c: Config, s: State, id: LeaseId, claim: Claim, world: World, trace: seq<Label>,
                   n: nat, r: LeaseResult, m: nat, r': LeaseResult)
    requires Inv(c, s)
    requires Relocked(c, s, id, claim, world, trace, n, r) && Relocked(c, s, id, claim, world, trace, m, r')
    ensures n >= m
  {
    hide Run, Inv, Try;
    if n < m {
      InvRun(c, s, trace[..n]);
      RelockEnds(c, Mid(c, s, trace, n), trace[n], id);
      MidNext(c, s, trace, n);
      MidMid(c, s, trace, n + 1, m - n - 1);
      NotProbingRun(c, Mid(c, s, trace, n + 1), trace[n + 1..][..m - n - 1], id);
    }
  }

  lemma ProbesDecided(health: nat -> Probe, p: nat, q: nat, slept: nat, slept': nat)
    requires ProbedAs(health, p, slept) && ProbedAs(health, q, slept')
    ensures p == q && slept == slept'
  {
  }

  lemma AnswerDecided(c: Config, s: State, id: LeaseId, claim: Claim, world: World, trace: seq<Label>,
                      n: nat, r: LeaseResult, m: nat, r': LeaseResult)
    requires Inv(c, s) && n <= |trace| && m <= |trace|
    requires Answered(c, Mid(c, s, trace, n), id, claim, world, trace[n..], r)
    requires Answered(c, Mid(c, s, trace, m), id, claim, world, trace[m..], r')
    ensures r == r'
  {
    hide Run, Mid, Inv, ProbedAs, Relocked;
    ProbesDecided(world.health, r.probes, r'.probes, r.slept, r'.slept);
    if world.dropped != Some(ForProbe) {
      var k: nat :| Relocked(c, Mid(c, s, trace, n), id, claim, world, trace[n..], k, r);
      var k': nat :| Relocked(c, Mid(c, s, trace, m), id, claim, world, trace[m..], k', r');
      RelockInRun(c, s, id, claim, world, trace, n, k, r);
      RelockInRun(c, s, id, claim, world, trace, m, k', r');
      RelockOnce(c, s, id, claim, world, trace, n + k, r, m + k', r');
      RelockOnce(c, s, id, claim, world, trace, m + k', r', n + k, r);
      RelockDecides(c, s, id, claim, world, trace, n + k, r, r');
    }
  }

  lemma RelockDecides(c: Config, s: State, id: LeaseId, claim: Claim, world: World, trace: seq<Label>,
                      n: nat, r: LeaseResult, r': LeaseResult)
    requires r.mine == r'.mine && r.probes == r'.probes && r.slept == r'.slept
    requires Relocked(c, s, id, claim, world, trace, n, r) && Relocked(c, s, id, claim, world, trace, n, r')
    ensures r == r'
  {
    hide Run;
  }

  // ---- The whole call ----

  lemma BegunInRun(c: Config, s: State, task: TaskId, world: World, trace: seq<Label>, r: LeaseResult, n: nat, b: LeaseBegun)
    requires LeaseParts(c, s, task, world, trace, r, n, b)
    ensures trace != [] && Begun(c, s, task, world, trace, b)
  {
    hide Run;
    assert trace[..n] + trace[n..] == trace;
    if b.Done? {
      assert trace[..n] == trace;
    } else {
      BegunExtends(c, s, task, world, trace[..n], trace[n..], b);
    }
  }

  /** The flag, the moments at which the request gets the lock, a port, Docker's answer and the lock again, and its
      probes leave a call exactly one result. */
  lemma RunDecidesResult(c: Config, s: State, task: TaskId, world: World, trace: seq<Label>, r: LeaseResult, r': LeaseResult)
    requires Inv(c, s) && LeaseAs(c, s, task, world, trace, r) && LeaseAs(c, s, task, world, trace, r')
    ensures r == r'
  {
    hide Run, Inv, Begun, Answered;
    var n: nat, b :| LeaseParts(c, s, task, world, trace, r, n, b);
    var m: nat, b' :| LeaseParts(c, s, task, world, trace, r', m, b');
    BegunInRun(c, s, task, world, trace, r, n, b);
    BegunInRun(c, s, task, world, trace, r', m, b');
    BegunDecides(c, s, task, world, trace, b, b');
    if b.Probing? { AnswerDecided(c, s, b.id, b.claim, world, trace, n, r, m, r'); }
  }
}
