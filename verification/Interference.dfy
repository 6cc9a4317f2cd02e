/** What a task can rely on while others run between its own stretches. */
module Interference {
  import opened Bags
  import opened PortSpec
  import opened Protocol
  import opened Footprints
  import opened Conservation
  import opened Leasing
  import opened Capacity
  import opened Health
  import opened Invariant
  import opened Runs

  /** Where a task lets others run: waiting for the lock, holding it, probing, using its lease, between
      two attempts, returning leases, stopping containers, or shutting down. */
  datatype Me =
    | Caller(task: TaskId)
    | Holder(lock: Lock)
    | Prober(id: LeaseId, task: TaskId)
    | Lessee(id: LeaseId)
    | Resting(task: TaskId)
    | Returner
    | Cleaner
    | Shutdown

  /** Labels that are somebody else's. */
  predicate Foreign(me: Me, l: Label) {
    match me
    case Caller(t) => !Calls(l, t)
    case Holder(lock) => !HolderMoves(lock, l) && (lock.Spawning? ==> !Calls(l, lock.task))
    case Prober(id, t) => !Calls(l, t) && l != ProbePassed(id) && l != ProbeFailed(id) && l != CancelProbing(id)
    case Lessee(id) => l != DropLease(id)
    case Resting(t) => !Calls(l, t)
    case Returner => !l.ReceiveLease? && !l.ReturnLock? && !l.ReturnChecked? && !l.ReturnUnlock? && !l.AbortWorkers?
    case Cleaner => !l.ReceiveCleanup? && !l.StopDone? && !l.AbortWorkers?
    case Shutdown => !l.AbortWorkers? && !l.Collect?
  }

  predicate Calls(l: Label, task: TaskId) {
    l == CheckFlag(task) || l == LeaseLock(task) || l == CancelWaiting(task)
  }

  /** The lease ids a request has inserted. */
  ghost function Issued(h: History, task: TaskId): set<LeaseId> {
    set i | i in h.issued && i.task == task :: i.id
  }

  /** A lease id without an entry never gets one again, and marks and flags are never taken back. */
  ghost predicate Onward(s: State, t: State) {
    && s.leases.next <= t.leases.next
    && (forall id :: id < s.leases.next && id !in s.pool.leased ==> id !in t.pool.leased)
    && s.history.failed <= t.history.failed
    && (s.collected ==> t.collected)
    && (s.shutdown ==> t.shutdown)
    && s.clock <= t.clock
    && PortsOnward(s.ports, t.ports)
  }

  /** Returns that were sent stay sent, in order, and leaked ports stay leaked. */
  ghost predicate PortsOnward(p: PortState, q: PortState) {
    p.sent <= q.sent && p.leaked <= q.leaked
  }

  lemma GivenBackStays(p: PortState, q: PortState, r: PortState, port: Port)
    requires GivenBack(p, q, port) && PortsOnward(q, r)
    ensures GivenBack(p, r, port)
  {
    if port in q.sent[|p.sent|..] {
      var i :| 0 <= i < |q.sent[|p.sent|..]| && q.sent[|p.sent|..][i] == port;
      assert r.sent[|p.sent|..][i] == port;
    }
  }

  lemma GivenBackSince(p: PortState, q: PortState, r: PortState, port: Port)
    requires PortsOnward(p, q) && GivenBack(q, r, port)
    ensures GivenBack(p, r, port)
  {
    if port in r.sent[|q.sent|..] {
      var i :| 0 <= i < |r.sent[|q.sent|..]| && r.sent[|q.sent|..][i] == port;
      assert r.sent[|p.sent|..][i + |q.sent| - |p.sent|] == port;
    }
  }

  /** An idle request is left idle, and nothing is inserted in its name. */
  ghost predicate Undisturbed(s: State, t: State, task: TaskId) {
    Idle(s, task) ==> Idle(t, task) && Issued(t.history, task) == Issued(s.history, task)
  }

  /** What a task that lets others run finds unchanged. */
  ghost predicate Keeps(me: Me, s: State, t: State) {
    match me
    case Caller(task) =>
      task in s.leases.waiting ==> task in t.leases.waiting && Issued(t.history, task) == Issued(s.history, task)
    case Holder(lock) => s.pool.lock == lock && !lock.Free? ==> t.pool == s.pool && t.history.issued == s.history.issued
    case Prober(id, task) =>
      && (id in s.leases.probing ==> id in t.leases.probing && t.leases.probing[id] == s.leases.probing[id])
      && Undisturbed(s, t, task)
    case Lessee(id) => id in s.leases.live ==> id in t.leases.live && t.leases.live[id] == s.leases.live[id]
    case Resting(task) => Undisturbed(s, t, task)
    case Returner => s.workers ==> ReturnsKept(s, t)
    case Cleaner => s.workers ==> CleanupKept(s, t)
    case Shutdown => t.workers == s.workers && t.collected == s.collected
  }

  /** An id that the return processor has in hand or is going to receive. */
  ghost predicate ToReturn(s: State, id: LeaseId) {
    id in s.leases.channel || s.leases.returning == Some(id)
  }

  ghost predicate Rechecking(lock: Lock) {
    lock.Checking? || lock.Unwinding?
  }

  /** The processor's ids wait for it in order, each with its entry; and only the processor checks hosts. */
  ghost predicate ReturnsKept(s: State, t: State) {
    && t.workers == s.workers
    && t.leases.returning == s.leases.returning && s.leases.channel <= t.leases.channel
    && (forall id :: ToReturn(s, id) ==> ToReturn(t, id))
    && (forall id :: ToReturn(s, id) && id in s.pool.leased ==> id in t.pool.leased && t.pool.leased[id] == s.pool.leased[id])
    && (Rechecking(s.pool.lock) ==> t.pool == s.pool)
    && (!Rechecking(s.pool.lock) ==> !Rechecking(t.pool.lock))
  }

  ghost predicate CleanupKept(s: State, t: State) {
    && t.workers == s.workers
    && t.cleanup.stopping == s.cleanup.stopping && t.cleanup.stopped == s.cleanup.stopped
    && s.cleanup.channel <= t.cleanup.channel
  }

  lemma KeysOnward(c: Config, s: State, l: Label)
    requires Enabled(s, l)
    ensures Next(c, s, l).pool.leased.Keys <= s.pool.leased.Keys + {s.leases.next}
  {
    hide Next;
    LeasesNow(c, s, l);
  }

  lemma SupplyOnward(c: Config, s: State, l: Label)
    requires Enabled(s, l)
    ensures s.leases.next <= Next(c, s, l).leases.next
  {
    hide Next;
    LeasesNow(c, s, l);
  }

  lemma IdsOnward(c: Config, s: State, l: Label)
    requires Enabled(s, l)
    ensures s.leases.next <= Next(c, s, l).leases.next
    ensures forall id :: id < s.leases.next && id !in s.pool.leased ==> id !in Next(c, s, l).pool.leased
  {
    hide Next;
    KeysOnward(c, s, l);
    SupplyOnward(c, s, l);
    forall id | id < s.leases.next && id !in s.pool.leased ensures id !in Next(c, s, l).pool.leased.Keys { }
  }

  lemma ClockOnward(c: Config, s: State, l: Label)
    requires Enabled(s, l)
    ensures s.clock <= Next(c, s, l).clock
  {
    FlagsMove(c, s, l);
    hide Next;
  }

  lemma StepOnward(c: Config, s: State, l: Label)
    requires LeaseLaw(s) && Enabled(s, l)
    ensures Onward(s, Next(c, s, l))
  {
    hide Next;
    IdsOnward(c, s, l);
    HistoryStays(c, s, l);
    WorkersStayDown(c, s, l);
    ClockOnward(c, s, l);
    PortsStep(c, s, l);
    HistoriesGrow(s.ports, PortStepOf(s, l));
  }

  lemma StepKeeps(c: Config, s: State, l: Label, me: Me)
    requires LeaseLaw(s) && ControlLaw(s) && Enabled(s, l) && Foreign(me, l)
    ensures Keeps(me, s, Next(c, s, l))
  {
    hide Next, LeaseLaw, Undisturbed, ReturnsKept, CleanupKept;
    match me {
      case Caller(t) => if t in s.leases.waiting { KeepsWaiting(c, s, l, t); }
      case Holder(lock) => if s.pool.lock == lock && !lock.Free? { KeepsHolding(c, s, l); }
      case Prober(id, t) =>
        if id in s.leases.probing { KeepsProbing(c, s, l, id); }
        KeepsIdle(c, s, l, t);
      case Lessee(id) => if id in s.leases.live { KeepsLive(c, s, l, id); }
      case Resting(t) => KeepsIdle(c, s, l, t);
      case Returner => if s.workers { KeepsReturns(c, s, l); }
      case Cleaner => if s.workers { KeepsCleanup(c, s, l); }
      case Shutdown => KeepsWorkers(c, s, l);
    }
  }

  lemma KeepsHolding(c: Config, s: State, l: Label)
    requires Enabled(s, l) && !s.pool.lock.Free? && !HolderMoves(s.pool.lock, l)
    ensures Next(c, s, l).pool == s.pool && Next(c, s, l).history.issued == s.history.issued
  {
    hide Next;
    LockExcludes(c, s, l);
    HistoryStays(c, s, l);
  }

  /** Only the request itself inserts in its name. */
  lemma IssuedByOthers(c: Config, s: State, l: Label, task: TaskId)
    requires Enabled(s, l) && l != LeaseLock(task) && !(l.LeaseCreated? && s.pool.lock.task == task)
    ensures Issued(Next(c, s, l).history, task) == Issued(s.history, task)
  {
    HistoryStays(c, s, l);
    if l.LeaseLock? {
      IssuedByLock(c, s, l.task, task);
    } else if l.LeaseCreated? {
      IssuedBySpawn(s, l.ok, task);
    } else {
      hide Next;
    }
  }

  lemma IssuedAdds(h: History, h': History, id: LeaseId, who: TaskId, task: TaskId)
    requires h'.issued == h.issued + {Issue(id, who)}
    ensures Issued(h', task) == if who == task then Issued(h, task) + {id} else Issued(h, task)
  {
    assert who == task ==> Issue(id, who) in h'.issued;
    forall x | x in Issued(h, task) ensures x in Issued(h', task) { assert Issue(x, task) in h'.issued; }
  }

  lemma IssuedByLock(c: Config, s: State, who: TaskId, task: TaskId)
    ensures Issued(LockForLease(c, s, who).history, task) ==
            if who == task && s.pool.available != [] then Issued(s.history, task) + {s.leases.next} else Issued(s.history, task)
  {
    if s.pool.available != [] {
      IssuedAdds(s.history, LockForLease(c, s, who).history, s.leases.next, who, task);
      hide Issued;
    }
  }

  lemma IssuedBySpawn(s: State, ok: bool, task: TaskId)
    requires Enabled(s, LeaseCreated(ok))
    ensures Issued(FinishSpawn(s, ok).history, task) ==
            if s.pool.lock.task == task && ok then Issued(s.history, task) + {s.leases.next} else Issued(s.history, task)
  {
    if ok {
      IssuedAdds(s.history, FinishSpawn(s, ok).history, s.leases.next, s.pool.lock.task, task);
      hide Issued;
    }
  }

  lemma KeepsIdle(c: Config, s: State, l: Label, task: TaskId)
    requires Enabled(s, l) && !Calls(l, task)
    ensures Undisturbed(s, Next(c, s, l), task)
  {
    if Idle(s, task) {
      IssuedByOthers(c, s, l, task);
      WaitersStay(c, s, l, task);
      SpawnerStays(c, s, l, task);
      hide Next, Issued;
    }
  }

  lemma WaitersStay(c: Config, s: State, l: Label, task: TaskId)
    requires Enabled(s, l) && !Calls(l, task)
    ensures task in Next(c, s, l).leases.waiting <==> task in s.leases.waiting
  {
    if l.CheckFlag? || l.LeaseLock? || l.CancelWaiting? {
    } else {
      WaitingStays(c, s, l);
      hide Next;
    }
  }

  lemma SpawnerStays(c: Config, s: State, l: Label, task: TaskId)
    requires Enabled(s, l) && Idle(s, task)
    ensures var lock := Next(c, s, l).pool.lock; !(lock.Spawning? && lock.task == task)
  {
    LockMoves(c, s, l);
    hide Next;
  }

  lemma KeepsCleanup(c: Config, s: State, l: Label)
    requires s.workers && Enabled(s, l) && Foreign(Cleaner, l)
    ensures CleanupKept(s, Next(c, s, l))
  {
    KeepsUp(c, s, l);
    if !MovesCleanup(l) {
      CleanupStays(c, s, l);
    } else if l.DropHost? {
    } else if FromRequest(l) {
      DroppedOfRequest(c, s, l);
    } else {
      DroppedOfOther(c, s, l);
    }
  }

  lemma KeepsUp(c: Config, s: State, l: Label)
    requires Enabled(s, l) && !l.AbortWorkers?
    ensures Next(c, s, l).workers == s.workers
  {
    FlagsMove(c, s, l);
    hide Next;
  }

  /** An id to be returned belongs to nobody else, so nobody else touches its entry. */
  lemma ToReturnIsOwned(s: State, id: LeaseId)
    requires LeaseLaw(s) && ControlLaw(s) && s.workers && ToReturn(s, id)
    ensures id in s.pool.leased && id !in s.leases.probing && id < s.leases.next
  {
    assert InOrder(s, id);
    assert id in s.leases.channel <==> id in multiset(s.leases.channel);
  }

  lemma EntryStays(c: Config, s: State, l: Label, id: LeaseId)
    requires Enabled(s, l) && !l.ReturnLock? && s.workers
    requires id in s.pool.leased && id !in s.leases.probing && id < s.leases.next
    ensures var t := Next(c, s, l); id in t.pool.leased && t.pool.leased[id] == s.pool.leased[id]
  {
    hide Next;
    LeasesNow(c, s, l);
  }

  lemma ChannelOnlyGrows(c: Config, s: State, l: Label)
    requires s.workers && Enabled(s, l) && Foreign(Returner, l)
    ensures Next(c, s, l).leases.returning == s.leases.returning && s.leases.channel <= Next(c, s, l).leases.channel
  {
    hide Next;
    LeasesNow(c, s, l);
  }

  lemma KeepsReturns(c: Config, s: State, l: Label)
    requires LeaseLaw(s) && ControlLaw(s) && s.workers && Enabled(s, l) && Foreign(Returner, l)
    ensures ReturnsKept(s, Next(c, s, l))
  {
    hide Next, LeaseLaw, ControlLaw;
    var t := Next(c, s, l);
    KeepsUp(c, s, l);
    ChannelOnlyGrows(c, s, l);
    forall id | ToReturn(s, id)
      ensures ToReturn(t, id) && (id in s.pool.leased ==> id in t.pool.leased && t.pool.leased[id] == s.pool.leased[id]) {
      ToReturnIsOwned(s, id);
      EntryStays(c, s, l, id);
    }
    LockMoves(c, s, l);
    if Rechecking(s.pool.lock) { LockExcludes(c, s, l); }
  }

  lemma KeepsWorkers(c: Config, s: State, l: Label)
    requires Enabled(s, l) && !l.AbortWorkers? && !l.Collect?
    ensures Next(c, s, l).workers == s.workers && Next(c, s, l).collected == s.collected
  {
    FlagsMove(c, s, l);
    hide Next;
  }

  lemma KeepsLive(c: Config, s: State, l: Label, id: LeaseId)
    requires LeaseLaw(s) && Enabled(s, l) && Foreign(Lessee(id), l) && id in s.leases.live
    ensures var t := Next(c, s, l); id in t.leases.live && t.leases.live[id] == s.leases.live[id]
  {
    hide Next, LeaseLaw, InOrder;
    LiveIsNotProbing(s, id);
    LeasesNow(c, s, l);
  }

  lemma LiveIsNotProbing(s: State, id: LeaseId)
    requires LeaseLaw(s) && id in s.leases.live
    ensures id !in s.leases.probing && id < s.leases.next
  {
    assert InOrder(s, id);
  }

  lemma KeepsWaiting(c: Config, s: State, l: Label, task: TaskId)
    requires ControlLaw(s) && Enabled(s, l) && !Calls(l, task) && task in s.leases.waiting
    ensures task in Next(c, s, l).leases.waiting && Issued(Next(c, s, l).history, task) == Issued(s.history, task)
  {
    WaitersStay(c, s, l, task);
    IssuedByOthers(c, s, l, task);
    hide Next, Issued;
  }

  /** No other task's code removes a probing caller: an id being returned is not being probed. */
  lemma KeepsProbing(c: Config, s: State, l: Label, id: LeaseId)
    requires LeaseLaw(s) && Enabled(s, l) && id in s.leases.probing
    requires l != ProbePassed(id) && l != ProbeFailed(id) && l != CancelProbing(id)
    ensures var t := Next(c, s, l); id in t.leases.probing && t.leases.probing[id] == s.leases.probing[id]
  {
    hide Next, LeaseLaw, InOrder;
    ProbingIsNotReturning(s, id);
    LeasesNow(c, s, l);
  }

  lemma ProbingIsNotReturning(s: State, id: LeaseId)
    requires LeaseLaw(s) && id in s.leases.probing
    ensures s.leases.returning != Some(id) && id < s.leases.next
  {
    assert InOrder(s, id);
  }

  /** Over any run: ids are never reused, and nothing recorded is forgotten. */
  lemma {:induction false} RunOnward(c: Config, s: State, schedule: seq<Label>)
    requires Inv(c, s)
    ensures Onward(s, Run(c, s, schedule))
    decreases |schedule|
  {
    hide Next, PortLaw, ContainerLaw, HealthLaw, CapacityLaw, ControlLaw, LeaseLaw;
    if schedule != [] {
      if Enabled(s, schedule[0]) {
        StepOnward(c, s, schedule[0]);
        InvStep(c, s, schedule[0]);
      }
      RunOnward(c, Try(c, s, schedule[0]), schedule[1..]);
    }
  }

  lemma RunSnoc(c: Config, s: State, schedule: seq<Label>, l: Label)
    ensures Run(c, s, schedule + [l]) == Try(c, Run(c, s, schedule), l)
  {
    RunConcat(c, s, schedule, [l]);
    var t := Run(c, s, schedule);
    hide Try;
    assert Run(c, t, [l]) == Run(c, Try(c, t, l), []) by { assert [l][1..] == []; }
  }

  lemma OnwardComposes(s: State, t: State, u: State)
    requires Onward(s, t) && Onward(t, u)
    ensures Onward(s, u)
  {
  }

  lemma Composes(me: Me, s: State, t: State, u: State)
    requires Keeps(me, s, t) && Keeps(me, t, u) && Onward(s, t) && Onward(t, u)
    ensures Keeps(me, s, u) && Onward(s, u)
  {
  }

  /** What waiting with the lock leaves alone. */
  lemma HolderKeeps(lock: Lock, s: State, t: State)
    requires Keeps(Holder(lock), s, t) && Onward(s, t) && s.pool.lock == lock && !lock.Free?
    ensures t.pool == s.pool && s.leases.next <= t.leases.next && t.history.issued == s.history.issued
  {
  }

  /** What waiting while probing leaves alone. */
  lemma ProberKeeps(id: LeaseId, task: TaskId, s: State, t: State)
    requires Keeps(Prober(id, task), s, t) && id in s.leases.probing && Idle(s, task)
    ensures id in t.leases.probing && t.leases.probing[id] == s.leases.probing[id]
    ensures Idle(t, task) && Issued(t.history, task) == Issued(s.history, task)
  {
  }

  lemma CallerKeeps(task: TaskId, s: State, t: State)
    requires Keeps(Caller(task), s, t) && task in s.leases.waiting
    ensures task in t.leases.waiting && Issued(t.history, task) == Issued(s.history, task)
  {
  }

  lemma RestingKeeps(task: TaskId, s: State, t: State)
    requires Keeps(Resting(task), s, t) && Idle(s, task)
    ensures Idle(t, task) && Issued(t.history, task) == Issued(s.history, task)
  {
  }

  lemma FailedOnward(s: State, t: State)
    requires Onward(s, t)
    ensures s.history.failed <= t.history.failed && (s.collected ==> t.collected) && (s.shutdown ==> t.shutdown)
  {
  }

  lemma LesseeKeeps(id: LeaseId, s: State, t: State)
    requires Keeps(Lessee(id), s, t) && id in s.leases.live
    ensures id in t.leases.live && t.leases.live[id] == s.leases.live[id]
  {
  }

  /** The ids to be returned keep their entries; more may follow. */
  ghost predicate EntriesKept(s: State, t: State) {
    && (forall id :: ToReturn(s, id) ==> ToReturn(t, id))
    && (forall id :: ToReturn(s, id) && id in s.pool.leased ==> id in t.pool.leased && t.pool.leased[id] == s.pool.leased[id])
  }

  lemma ReturnerKeeps(s: State, t: State)
    requires Keeps(Returner, s, t) && s.workers
    ensures t.workers && t.leases.returning == s.leases.returning && s.leases.channel <= t.leases.channel
    ensures EntriesKept(s, t)
    ensures if Rechecking(s.pool.lock) then t.pool == s.pool else !Rechecking(t.pool.lock)
  {
  }

  lemma EntriesCarried(s: State, t: State, u: State)
    requires EntriesKept(s, t) && EntriesKept(t, u)
    ensures EntriesKept(s, u)
  {
  }

  /** Receiving an id leaves the ids to be returned, and their entries, what they are. */
  lemma ReceivedKept(s: State, t: State)
    requires Enabled(s, ReceiveLease) && t == TakeLease(s)
    ensures EntriesKept(s, t)
  {
    forall id | ToReturn(s, id) ensures ToReturn(t, id) {
      if id in s.leases.channel {
        var i :| 0 <= i < |s.leases.channel| && s.leases.channel[i] == id;
        assert i > 0 ==> s.leases.channel[1..][i - 1] == id;
      }
    }
  }

  lemma CleanerKeeps(s: State, t: State)
    requires Keeps(Cleaner, s, t) && s.workers
    ensures t.workers && t.cleanup.stopping == s.cleanup.stopping && t.cleanup.stopped == s.cleanup.stopped
    ensures s.cleanup.channel <= t.cleanup.channel
  {
  }

  ghost predicate AllGivenBack(p: PortState, q: PortState, ports: seq<Port>) {
    forall i :: 0 <= i < |ports| ==> GivenBack(p, q, ports[i])
  }

  lemma OneMoreGivenBack(p: PortState, q: PortState, r: PortState, ports: seq<Port>, port: Option<Port>)
    requires AllGivenBack(p, q, ports) && PortsOnward(p, q) && PortsOnward(q, r)
    requires port.Some? ==> GivenBack(q, r, port.value)
    ensures AllGivenBack(p, r, ports + AsSeq(port))
  {
    forall i | 0 <= i < |ports + AsSeq(port)| ensures GivenBack(p, r, (ports + AsSeq(port))[i]) {
      if i < |ports| {
        assert GivenBack(p, q, ports[i]);
        GivenBackStays(p, q, r, ports[i]);
      } else {
        GivenBackSince(p, q, r, port.value);
      }
    }
  }

  lemma AllGivenBackSince(p: PortState, q: PortState, r: PortState, ports: seq<Port>)
    requires PortsOnward(p, q) && AllGivenBack(q, r, ports)
    ensures AllGivenBack(p, r, ports)
  {
    forall i | 0 <= i < |ports| ensures GivenBack(p, r, ports[i]) {
      GivenBackSince(p, q, r, ports[i]);
    }
  }

  lemma PortsGoOn(s: State, t: State)
    requires Onward(s, t)
    ensures PortsOnward(s.ports, t.ports)
  {
  }

  /** Issued ids that have lost their entries, for good. */
  ghost predicate NoEntry(s: State, ids: seq<LeaseId>) {
    forall i :: 0 <= i < |ids| ==> ids[i] < s.leases.next && ids[i] !in s.pool.leased
  }

  lemma NoEntryStays(s: State, t: State, ids: seq<LeaseId>)
    requires NoEntry(s, ids) && Onward(s, t)
    ensures NoEntry(t, ids)
  {
  }

  lemma OneMoreGone(s: State, ids: seq<LeaseId>, id: LeaseId)
    requires NoEntry(s, ids) && id < s.leases.next && id !in s.pool.leased
    ensures NoEntry(s, ids + [id])
  {
  }

  lemma ClockGoesOn(s: State, t: State)
    requires Onward(s, t)
    ensures s.clock <= t.clock
  {
  }

  lemma ShutdownKeeps(s: State, t: State)
    requires Keeps(Shutdown, s, t) && Onward(s, t)
    ensures t.workers == s.workers && t.collected == s.collected && s.clock <= t.clock && (s.shutdown ==> t.shutdown)
  {
  }

  lemma NextOnward(s: State, t: State)
    requires Onward(s, t)
    ensures s.leases.next <= t.leases.next
  {
  }

  lemma Started(c: Config, s: State)
    ensures Run(c, s, []) == s && Onward(s, s)
  {
  }

  /** Extending a trace by one step of one's own. */
  lemma Took(c: Config, s0: State, trace: seq<Label>, l: Label)
    requires Inv(c, Run(c, s0, trace)) && Onward(s0, Run(c, s0, trace)) && Enabled(Run(c, s0, trace), l)
    ensures var t := Next(c, Run(c, s0, trace), l);
            Run(c, s0, trace + [l]) == t && Inv(c, t) && Onward(s0, t) && Onward(Run(c, s0, trace), t)
  {
    hide Next, Inv;
    var s := Run(c, s0, trace);
    InvLeases(c, s);
    StepOnward(c, s, l);
    InvStep(c, s, l);
    RunSnoc(c, s0, trace, l);
    OnwardComposes(s0, s, Next(c, s, l));
  }

  /** Extending a trace by another. */
  lemma Joined(c: Config, s0: State, trace: seq<Label>, more: seq<Label>)
    requires Onward(s0, Run(c, s0, trace)) && Onward(Run(c, s0, trace), Run(c, Run(c, s0, trace), more))
    ensures Run(c, s0, trace + more) == Run(c, Run(c, s0, trace), more)
    ensures Onward(s0, Run(c, s0, trace + more))
  {
    RunConcat(c, s0, trace, more);
    OnwardComposes(s0, Run(c, s0, trace), Run(c, s0, trace + more));
  }

  /** A host about to be discarded for a failed probe was never discarded before. */
  lemma DiscardIsNew(c: Config, s: State, id: LeaseId)
    requires Inv(c, s) && id in s.pool.leased && id in s.leases.probing
    ensures Names(s.leases.probing[id], s.pool.leased[id])
    ensures s.pool.leased[id].container !in s.history.failed
  {
    assert InOrder(s, id);
    var h := s.pool.leased[id];
    assert h in Pooled(s.pool) by { ValuesRemove(s.pool.leased, id); }
    hide Pooled, Gone, PortLaw, ContainerLaw, LeaseLaw;
    GoneNotPooled(s, h);
  }
}
