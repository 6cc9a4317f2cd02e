/** The pool never holds more hosts than `max_instances`, and what the lock and the worker flags allow. */
module Capacity {
  import opened Bags
  import opened PortSpec
  import opened Protocol
  import opened Footprints

  /** Hosts in the pool, counting the one in the lock holder's hand. */
  function Size(p: Pool): nat {
    |p.leased| + |p.available| + if p.lock.Checking? then 1 else 0
  }

  /** How much the current lock holder may still add. `lease_host` looks only at the leased hosts,
      which is enough because it spawns only when nothing is available. */
  ghost predicate CapacityLaw(c: Config, p: Pool) {
    match p.lock
    case Spawning(_, _) => p.available == [] && Size(p) + 1 <= c.maxInstances
    case Scaling(left, _) => Size(p) + left <= c.minInstances
    case _ => Size(p) <= c.maxInstances
  }

  /** Which flags and hands go together. */
  ghost predicate ControlLaw(s: State) {
    && (s.collected ==> !s.workers)
    && (!s.workers ==> s.shutdown)
    && (!s.workers ==> s.leases.channel == [] && s.leases.returning.None?)
    && (!s.workers ==> s.cleanup.channel == [] && s.cleanup.stopping.None?)
    && (!s.workers ==> s.pool.lock.Free? || s.pool.lock.Spawning?)
    && (!s.collected ==> s.leases.orphaned == {})
    && (s.pool.lock.Checking? || s.pool.lock.Unwinding? ==> s.leases.returning.None?)
    && (s.pool.lock.Spawning? ==> s.pool.lock.task !in s.leases.waiting)
    && (s.pool.lock.Scaling? && s.pool.lock.left == 0 ==> s.pool.lock.stage.NeedPort?)
  }

  lemma SmallerMap<K, V>(m: map<K, V>, k: K)
    requires k in m
    ensures |m - {k}| == |m| - 1
  {
    assert (m - {k}).Keys == m.Keys - {k};
  }

  lemma UpdatedMap<K, V>(m: map<K, V>, k: K, v: V)
    ensures |m[k := v]| == if k in m then |m| else |m| + 1
  {
    assert m[k := v].Keys == m.Keys + {k};
  }

  lemma {:induction false} SiftShorter(hosts: seq<Host>, readings: seq<nat>, ttl: nat)
    requires |hosts| == |readings|
    ensures |Sift(hosts, readings, ttl).1| <= |hosts|
  {
    if hosts != [] { SiftShorter(hosts[..|hosts| - 1], readings[..|hosts| - 1], ttl); }
  }

  lemma CapacityOfLease(c: Config, s: State, task: TaskId)
    requires c.Valid() && CapacityLaw(c, s.pool) && Enabled(s, LeaseLock(task))
    ensures CapacityLaw(c, LockForLease(c, s, task).pool)
  {
    hide Grant;
    if s.pool.available != [] { UpdatedMap(s.pool.leased, s.leases.next, s.pool.available[0]); }
  }

  lemma CapacityOfSpawn(c: Config, s: State, l: Label)
    requires c.Valid() && CapacityLaw(c, s.pool) && Enabled(s, l)
    requires l.SpawnPort? || l.LeaseCreated? || l.CancelWaiting?
    ensures CapacityLaw(c, Next(c, s, l).pool)
  {
    hide Grant, Do, FreeStage;
    if l.LeaseCreated? { UpdatedMap(s.pool.leased, s.leases.next, NewHost(s, s.pool.lock.stage.port)); }
  }

  lemma CapacityOfProbes(c: Config, s: State, l: Label)
    requires c.Valid() && CapacityLaw(c, s.pool) && Enabled(s, l)
    requires l.ProbePassed? || l.ProbeFailed?
    ensures CapacityLaw(c, Next(c, s, l).pool)
  {
    if l.id in s.pool.leased {
      UpdatedMap(s.pool.leased, l.id, s.pool.leased[l.id].(tested := true));
      SmallerMap(s.pool.leased, l.id);
    }
  }

  lemma CapacityOfCheck(c: Config, s: State, l: Label)
    requires c.Valid() && CapacityLaw(c, s.pool) && Enabled(s, l) && (l.ReturnChecked? || l.ReturnUnlock?)
    ensures CapacityLaw(c, Next(c, s, l).pool)
  {
  }

  lemma CapacityOfScaling(c: Config, s: State, l: Label)
    requires c.Valid() && CapacityLaw(c, s.pool) && Enabled(s, l) && (l.ScaleLock? || l.ScaleCreated? || l.ScaleUnlock?)
    ensures CapacityLaw(c, Next(c, s, l).pool)
  {
  }

  lemma CapacityOfReturn(c: Config, s: State)
    requires c.Valid() && CapacityLaw(c, s.pool) && Enabled(s, ReturnLock)
    ensures CapacityLaw(c, LockForReturn(c, s).pool)
  {
    if s.leases.returning.value in s.pool.leased {
      SmallerMap(s.pool.leased, s.leases.returning.value);
    }
  }

  lemma CapacityOfReap(c: Config, s: State, l: Label)
    requires CapacityLaw(c, s.pool) && Enabled(s, l) && l.Reap?
    ensures CapacityLaw(c, Next(c, s, l).pool)
  {
    SiftShorter(s.pool.available, l.readings, c.ttl);
    hide Sift, Values;
  }

  lemma CapacityOfShutdown(c: Config, s: State, l: Label)
    requires c.Valid() && CapacityLaw(c, s.pool) && Enabled(s, l)
    requires l.AbortWorkers? || l.Collect?
    ensures CapacityLaw(c, Next(c, s, l).pool)
  {
    hide Values;
  }

  predicate MovesPool(l: Label) {
    || l.LeaseLock? || l.SpawnPort? || l.LeaseCreated? || l.CancelWaiting? || l.ProbePassed? || l.ProbeFailed?
    || l.ReturnLock? || l.ReturnChecked? || l.ReturnUnlock? || l.ScaleLock? || l.ScaleCreated? || l.ScaleUnlock?
    || l.Reap? || l.AbortWorkers? || l.Collect?
  }

  lemma PoolStays(c: Config, s: State, l: Label)
    requires Enabled(s, l) && !MovesPool(l)
    ensures Next(c, s, l).pool == s.pool
  {
    hide Sift, Values, Do, Admit, Abort, CollectHosts, LockForReturn, PassProbe, FailProbe;
  }

  lemma CapacityStep(c: Config, s: State, l: Label)
    requires c.Valid() && CapacityLaw(c, s.pool) && Enabled(s, l)
    ensures CapacityLaw(c, Next(c, s, l).pool)
  {
    hide Next, CapacityLaw;
    match l {
      case LeaseLock(task) =>
        CapacityOfLease(c, s, task);
        NextLeaseLock(c, s, task);
      case SpawnPort => CapacityOfSpawn(c, s, l);
      case LeaseCreated(_) => CapacityOfSpawn(c, s, l);
      case CancelWaiting(_) => CapacityOfSpawn(c, s, l);
      case ProbePassed(_) => CapacityOfProbes(c, s, l);
      case ProbeFailed(_) => CapacityOfProbes(c, s, l);
      case ReturnLock =>
        CapacityOfReturn(c, s);
        NextReturnLock(c, s);
      case ReturnChecked(_) => CapacityOfCheck(c, s, l);
      case ReturnUnlock => CapacityOfCheck(c, s, l);
      case ScaleLock => CapacityOfScaling(c, s, l);
      case ScaleCreated(_) => CapacityOfScaling(c, s, l);
      case ScaleUnlock => CapacityOfScaling(c, s, l);
      case Reap(_) => CapacityOfReap(c, s, l);
      case AbortWorkers => CapacityOfShutdown(c, s, l);
      case Collect => CapacityOfShutdown(c, s, l);
      case _ => PoolStays(c, s, l);
    }
  }

  lemma ControlOfShutdown(c: Config, s: State, l: Label)
    requires ControlLaw(s) && Enabled(s, l) && (l.AbortWorkers? || l.Collect? || l.SetFlag?)
    ensures ControlLaw(Next(c, s, l))
  {
    hide Values;
  }

  lemma ControlOfInserts(c: Config, s: State, l: Label)
    requires ControlLaw(s) && Enabled(s, l) && (l.LeaseLock? || l.LeaseCreated? || l.CancelWaiting?)
    ensures ControlLaw(Next(c, s, l))
  {
    hide FreeStage;
  }

  lemma ControlOfRequests(c: Config, s: State, l: Label)
    requires ControlLaw(s) && Enabled(s, l) && FromRequest(l) && !l.LeaseLock? && !l.LeaseCreated? && !l.CancelWaiting?
    ensures ControlLaw(Next(c, s, l))
  {
    hide Do;
  }

  lemma ControlOfReturns(c: Config, s: State, l: Label)
    requires ControlLaw(s) && Enabled(s, l) && (l.ReturnLock? || l.ReturnChecked? || l.ReturnUnlock? || l.ReceiveLease?)
    ensures ControlLaw(Next(c, s, l))
  {
  }

  lemma ControlOfWorkers(c: Config, s: State, l: Label)
    requires ControlLaw(s) && Enabled(s, l) && FromWorker(l)
    requires !l.ReturnLock? && !l.ReturnChecked? && !l.ReturnUnlock? && !l.ReceiveLease?
    ensures ControlLaw(Next(c, s, l))
  {
    hide Sift;
  }

  lemma ControlOfOthers(c: Config, s: State, l: Label)
    requires ControlLaw(s) && Enabled(s, l) && !FromRequest(l) && !FromWorker(l)
    requires !l.AbortWorkers? && !l.Collect? && !l.SetFlag?
    ensures ControlLaw(Next(c, s, l))
  {
    hide Do;
  }

  lemma ControlStep(c: Config, s: State, l: Label)
    requires ControlLaw(s) && Enabled(s, l)
    ensures ControlLaw(Next(c, s, l))
  {
    hide Next, ControlLaw, Enabled;
    if l.AbortWorkers? || l.Collect? || l.SetFlag? {
      ControlOfShutdown(c, s, l);
    } else if l.LeaseLock? || l.LeaseCreated? || l.CancelWaiting? {
      ControlOfInserts(c, s, l);
    } else if FromRequest(l) {
      ControlOfRequests(c, s, l);
    } else if l.ReturnLock? || l.ReturnChecked? || l.ReturnUnlock? || l.ReceiveLease? {
      ControlOfReturns(c, s, l);
    } else if FromWorker(l) {
      ControlOfWorkers(c, s, l);
    } else {
      ControlOfOthers(c, s, l);
    }
  }

  /** While a task waits with the lock, nobody else touches the pool: only the holder's own next
      stretch, its cancellation, or the abort of the workers can. */
  predicate HolderMoves(lock: Lock, l: Label) {
    || l.SpawnPort? || l.LeaseCreated? || l.ScaleCreated? || l.ScaleUnlock? || l.ReturnChecked? || l.ReturnUnlock?
    || (l.CancelWaiting? && lock.Spawning? && lock.task == l.task)
    || (l.AbortWorkers? && !lock.Spawning?)
  }

  lemma LockExcludes(c: Config, s: State, l: Label)
    requires Enabled(s, l) && !s.pool.lock.Free? && !HolderMoves(s.pool.lock, l)
    ensures Next(c, s, l).pool == s.pool
  {
    hide Sift, Values, Do, Admit, CollectHosts, LockForReturn, PassProbe, FailProbe;
  }
}
