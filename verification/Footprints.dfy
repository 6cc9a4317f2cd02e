/** What each label of the protocol leaves alone, one component of the state at a time. */
module Footprints {
  import opened Bags
  import opened PortSpec
  import opened Protocol

  // ---- Flags and clock ----

  ghost predicate FlagsMoved(s: State, l: Label, t: State) {
    && t.workers == (s.workers && !l.AbortWorkers?)
    && t.shutdown == (s.shutdown || l.SetFlag?)
    && t.collected == (s.collected || l.Collect?)
    && (if l.Tick? || l.Reap? then s.clock <= t.clock else t.clock == s.clock)
  }

  lemma FlagsOfRequest(c: Config, s: State, l: Label)
    requires Enabled(s, l) && FromRequest(l)
    ensures FlagsMoved(s, l, Next(c, s, l))
  {
    hide Grant, Do, FreeStage;
  }

  lemma FlagsOfWorker(c: Config, s: State, l: Label)
    requires Enabled(s, l) && FromWorker(l)
    ensures FlagsMoved(s, l, Next(c, s, l))
  {
    hide Sift;
  }

  lemma FlagsOfOther(c: Config, s: State, l: Label)
    requires Enabled(s, l) && !FromRequest(l) && !FromWorker(l)
    ensures FlagsMoved(s, l, Next(c, s, l))
  {
    hide Values, Do, AbortCleanup, AbortLeases;
  }

  lemma FlagsMove(c: Config, s: State, l: Label)
    requires Enabled(s, l)
    ensures FlagsMoved(s, l, Next(c, s, l))
  {
    hide Next, FlagsMoved, Enabled;
    if FromRequest(l) {
      FlagsOfRequest(c, s, l);
    } else if FromWorker(l) {
      FlagsOfWorker(c, s, l);
    } else {
      FlagsOfOther(c, s, l);
    }
  }

  // ---- The lock ----

  predicate MovesLock(l: Label) {
    || l.LeaseLock? || l.SpawnPort? || l.LeaseCreated? || l.CancelWaiting? || l.ReturnLock? || l.ReturnChecked?
    || l.ReturnUnlock? || l.ScaleLock? || l.ScaleCreated? || l.ScaleUnlock? || l.AbortWorkers?
  }

  lemma LockStays(c: Config, s: State, l: Label)
    requires Enabled(s, l) && !MovesLock(l)
    ensures Next(c, s, l).pool.lock == s.pool.lock
  {
    hide LockForLease, TakePort, FinishSpawn, CancelCaller, LockForReturn, FinishReturn, LockForScaling, FinishScaleSpawn;
    hide Abort, Sift, Values, Do;
  }

  lemma LockAfterLease(c: Config, s: State, task: TaskId)
    requires s.pool.lock.Free?
    ensures var lock := LockForLease(c, s, task).pool.lock; lock.Free? || lock == Spawning(task, NeedPort)
  {
    hide Grant;
  }

  lemma LockAfterReturn(c: Config, s: State)
    requires s.leases.returning.Some? && s.pool.lock.Free?
    ensures var lock, id := LockForReturn(c, s).pool.lock, s.leases.returning.value;
            lock.Free? || (id in s.pool.leased && lock == Checking(s.pool.leased[id]))
  {
  }

  /** Every label but the lock's own takes it from free to one holder, from that holder to its next wait, or
      back to free. */
  ghost predicate LockMoved(s: State, l: Label, lock: Lock) {
    match l
    case LeaseLock(task) => lock.Free? || lock == Spawning(task, NeedPort)
    case SpawnPort => lock.Free? || (lock.Spawning? && s.pool.lock.Spawning? && lock.task == s.pool.lock.task) || lock.Scaling?
    case LeaseCreated(_) => lock.Free?
    case CancelWaiting(_) => lock.Free? || lock == s.pool.lock
    case ReturnLock => lock.Free? || lock.Checking?
    case ReturnChecked(alive) => lock == if alive then Free else Unwinding
    case ReturnUnlock => lock.Free?
    case ScaleLock => lock.Free? || (lock.Scaling? && lock.stage.NeedPort?)
    case ScaleCreated(_) => lock.Scaling?
    case ScaleUnlock => lock.Free?
    case AbortWorkers => lock == if s.pool.lock.Spawning? then s.pool.lock else Free
    case _ => lock == s.pool.lock
  }

  lemma LockMoves(c: Config, s: State, l: Label)
    requires Enabled(s, l)
    ensures LockMoved(s, l, Next(c, s, l).pool.lock)
  {
    if MovesLock(l) {
      hide LockForLease, LockForReturn, Grant, Do, AbortLeases, AbortCleanup, FreeStage;
      match l {
        case LeaseLock(task) => LockAfterLease(c, s, task);
        case ReturnLock => LockAfterReturn(c, s);
        case _ =>
      }
    } else {
      LockStays(c, s, l);
      hide Next;
    }
  }

  // ---- Callers waiting ----

  lemma WaitingOfRequest(c: Config, s: State, l: Label)
    requires Enabled(s, l) && FromRequest(l) && !l.CheckFlag? && !l.LeaseLock? && !l.CancelWaiting?
    ensures Next(c, s, l).leases.waiting == s.leases.waiting
  {
    hide Do;
  }

  lemma WaitingStays(c: Config, s: State, l: Label)
    requires Enabled(s, l) && !l.CheckFlag? && !l.LeaseLock? && !l.CancelWaiting?
    ensures Next(c, s, l).leases.waiting == s.leases.waiting
  {
    if FromRequest(l) {
      WaitingOfRequest(c, s, l);
      hide Next;
    } else {
      hide Sift, Values, Do, AbortCleanup;
    }
  }

  // ---- Ports ----

  lemma PortsStay(c: Config, s: State, l: Label)
    requires Enabled(s, l) && !l.SpawnPort? && !l.DropPort? && !l.ReceivePort? && !l.RequeuePort?
    ensures Next(c, s, l).ports == s.ports
  {
    if FromRequest(l) {
      hide Grant;
    } else {
      hide Sift, Values, AbortCleanup, AbortLeases;
    }
  }

  // ---- Cleanup and history ----

  predicate MovesCleanup(l: Label) {
    || l.LeaseCreated? || l.CancelWaiting? || l.ProbeFailed? || l.ReturnLock? || l.ReturnChecked? || l.Reap?
    || l.ScaleCreated? || l.DropHost? || l.DropPort? || l.ReceiveCleanup? || l.StopDone? || l.AbortWorkers? || l.Collect?
  }

  lemma CleanupStays(c: Config, s: State, l: Label)
    requires Enabled(s, l) && !MovesCleanup(l)
    ensures Next(c, s, l).cleanup == s.cleanup
  {
    hide FinishSpawn, CancelCaller, FailProbe, LockForReturn, FinishReturn, ReapAll, FinishScaleSpawn;
    hide SendContainer, SendPort, TakeCleanup, FinishStop, Abort, CollectHosts, Grant, Do;
  }

  predicate MovesHistory(l: Label) {
    l.LeaseLock? || l.LeaseCreated? || l.ProbeFailed? || l.ScaleCreated?
  }

  lemma HistoryFootprint(c: Config, s: State, l: Label)
    requires Enabled(s, l) && !MovesHistory(l)
    ensures Next(c, s, l).history == s.history
  {
    hide LockForLease, FinishSpawn, FailProbe, FinishScaleSpawn, Sift, Values, Do, AbortCleanup, AbortLeases;
  }
}
