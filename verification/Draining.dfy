/** When the leased map can empty itself: exactly when no entry is stranded. */
module Draining {
  import opened Bags
  import opened PortSpec
  import opened Protocol
  import opened Conservation
  import opened Leasing
  import opened Capacity
  import opened Health
  import opened Invariant
  import opened Runs

  ghost predicate Settled(s: State) {
    && s.pool.lock.Free? && s.leases.returning.None? && s.leases.channel == []
    && s.leases.live == map[] && s.leases.probing == map[]
  }

  /** Work still to do for the leases, and for the lock holder. */
  ghost function LeaseWork(s: State): nat {
    4 * |s.leases.probing| + 4 * |s.leases.live| + 3 * |s.leases.channel| + if s.leases.returning.Some? then 2 else 0
  }

  ghost function LockWork(lock: Lock): nat {
    match lock
    case Free => 0
    case Spawning(_, stage) => if stage.NeedPort? then 2 else 1
    case Scaling(left, stage) => 2 * left + if stage.NeedPort? then 2 else 1
    case Checking(_) => 2
    case Unwinding => 1
  }

  /** What the task that holds the lock does next, given Docker's answer if it waits for one. */
  function HolderLabel(lock: Lock, answer: bool): Label
    requires !lock.Free?
  {
    match lock
    case Spawning(_, stage) => if stage.HavePort? then LeaseCreated(answer) else SpawnPort
    case Scaling(left, stage) => if stage.HavePort? then ScaleCreated(answer) else if left > 0 then SpawnPort else ScaleUnlock
    case Checking(_) => ReturnChecked(answer)
    case Unwinding => ReturnUnlock
  }

  lemma HolderEnabled(s: State, answer: bool)
    requires ControlLaw(s) && !s.pool.lock.Free?
    ensures Enabled(s, HolderLabel(s.pool.lock, answer))
  {
  }

  /** Whoever holds the lock releases it after a bounded number of its own stretches. */
  lemma HolderWorks(c: Config, s: State, answer: bool)
    requires !s.pool.lock.Free? && Enabled(s, HolderLabel(s.pool.lock, answer))
    ensures LockWork(Next(c, s, HolderLabel(s.pool.lock, answer)).pool.lock) < LockWork(s.pool.lock)
  {
    hide Do, Grant;
  }

  /** A step towards an empty map: let the lock holder finish, then move the oldest obligation on. */
  ghost function Advance(s: State): Label
    requires !Settled(s)
  {
    if !s.pool.lock.Free? then HolderLabel(s.pool.lock, false)
    else if s.leases.returning.Some? then ReturnLock
    else if s.leases.channel != [] then ReceiveLease
    else if s.leases.live != map[] then DropLease(AnyKey(s.leases.live))
    else ProbeFailed(AnyKey(s.leases.probing))
  }

  lemma AdvanceEnabled(s: State)
    requires ControlLaw(s) && s.workers && !Settled(s)
    ensures Enabled(s, Advance(s))
  {
  }

  lemma AdvanceHolder(c: Config, s: State)
    requires ControlLaw(s) && s.workers && !s.pool.lock.Free? && Enabled(s, Advance(s))
    ensures var t := Next(c, s, Advance(s));
            && t.workers && t.leases == s.leases
            && LockWork(t.pool.lock) < LockWork(s.pool.lock)
  {
    HolderWorks(c, s, false);
    hide Do, Admit, LockWork;
  }

  lemma SendFields(s: State, id: LeaseId)
    requires id in s.leases.live && s.workers && s.leases.channel == []
    ensures var t := SendLease(s, id);
            t.workers && t.leases == s.leases.(live := s.leases.live - {id}, channel := [id])
  {
  }

  lemma FailKeepsWorkers(s: State, id: LeaseId)
    requires id in s.leases.probing
    ensures FailProbe(s, id).workers == s.workers
  {
  }

  lemma ReturnKeepsWorkers(c: Config, s: State)
    requires s.leases.returning.Some?
    ensures LockForReturn(c, s).workers == s.workers
  {
  }

  ghost predicate LessWork(s: State, t: State) {
    && t.workers && t.leases.abandoned == s.leases.abandoned && t.leases.lost == s.leases.lost
    && LeaseWork(t) < LeaseWork(s)
  }

  lemma ReturnIsLess(c: Config, s: State)
    requires s.workers && Enabled(s, ReturnLock) && s.leases.returning.value in s.pool.leased
    ensures LessWork(s, Next(c, s, ReturnLock))
  {
    hide LockForReturn;
    ReturnFields(c, s);
    ReturnKeepsWorkers(c, s);
  }

  lemma ReceiveIsLess(c: Config, s: State)
    requires Enabled(s, ReceiveLease)
    ensures LessWork(s, Next(c, s, ReceiveLease))
  {
  }

  lemma DropIsLess(c: Config, s: State, id: LeaseId)
    requires s.workers && s.leases.channel == [] && Enabled(s, DropLease(id))
    ensures LessWork(s, Next(c, s, DropLease(id)))
  {
    hide SendLease;
    SmallerMap(s.leases.live, id);
    SendFields(s, id);
  }

  lemma FailIsLess(c: Config, s: State, id: LeaseId)
    requires s.workers && Enabled(s, ProbeFailed(id)) && id in s.pool.leased
    ensures LessWork(s, Next(c, s, ProbeFailed(id)))
  {
    hide FailProbe;
    SmallerMap(s.leases.probing, id);
    FailFields(s, id);
    FailKeepsWorkers(s, id);
  }

  lemma AdvanceLease(c: Config, s: State)
    requires s.workers && s.pool.lock.Free? && !Settled(s) && Enabled(s, Advance(s))
    requires s.leases.probing != map[] ==> AnyKey(s.leases.probing) in s.pool.leased
    requires s.leases.returning.Some? ==> s.leases.returning.value in s.pool.leased
    ensures LessWork(s, Next(c, s, Advance(s)))
  {
    hide Next, LessWork;
    match Advance(s) {
      case ReturnLock => ReturnIsLess(c, s);
      case ReceiveLease => ReceiveIsLess(c, s);
      case DropLease(id) => DropIsLess(c, s, id);
      case ProbeFailed(id) => FailIsLess(c, s, id);
      case _ =>
    }
  }

  lemma SettledIsEmpty(c: Config, s: State)
    requires Inv(c, s) && !s.collected && Settled(s) && s.leases.abandoned == {} && s.leases.lost == {}
    ensures s.pool.leased == map[]
  {
    hide PortLaw, ContainerLaw, HealthLaw, CapacityLaw;
    forall id: LeaseId ensures id !in s.pool.leased { assert InOrder(s, id); }
  }

  lemma AdvanceFindsEntries(c: Config, s: State)
    requires Inv(c, s) && !s.collected
    ensures s.leases.probing != map[] ==> AnyKey(s.leases.probing) in s.pool.leased
    ensures s.leases.returning.Some? ==> s.leases.returning.value in s.pool.leased
  {
    hide PortLaw, ContainerLaw, HealthLaw, CapacityLaw;
    if s.leases.probing != map[] { assert InOrder(s, AnyKey(s.leases.probing)); }
    if s.leases.returning.Some? { assert InOrder(s, s.leases.returning.value); }
  }

  lemma AdvanceStep(c: Config, s: State) returns (t: State)
    requires Inv(c, s) && s.workers && !Settled(s) && s.leases.abandoned == {} && s.leases.lost == {}
    ensures Enabled(s, Advance(s)) && t == Next(c, s, Advance(s))
    ensures Inv(c, t) && t.workers && t.leases.abandoned == {} && t.leases.lost == {}
    ensures LeaseWork(t) < LeaseWork(s) || (LeaseWork(t) == LeaseWork(s) && LockWork(t.pool.lock) < LockWork(s.pool.lock))
  {
    hide Next, Advance, PortLaw, ContainerLaw, HealthLaw, CapacityLaw, LeaseLaw;
    AdvanceEnabled(s);
    t := Next(c, s, Advance(s));
    if s.pool.lock.Free? {
      AdvanceFindsEntries(c, s);
      AdvanceLease(c, s);
    } else {
      AdvanceHolder(c, s);
    }
    InvStep(c, s, Advance(s));
  }

  lemma {:induction false} DrainSchedule(c: Config, s: State) returns (schedule: seq<Label>)
    requires Inv(c, s) && s.workers && s.leases.abandoned == {} && s.leases.lost == {}
    ensures var t := Run(c, s, schedule); t.workers && t.pool.leased == map[] && Inv(c, t)
    decreases LeaseWork(s), LockWork(s.pool.lock)
  {
    hide Next, Advance, PortLaw, ContainerLaw, HealthLaw, CapacityLaw, LeaseLaw, LeaseWork, LockWork;
    if Settled(s) {
      SettledIsEmpty(c, s);
      schedule := [];
    } else {
      var t := AdvanceStep(c, s);
      var rest := DrainSchedule(c, t);
      schedule := [Advance(s)] + rest;
      assert schedule[1..] == rest;
      assert Run(c, s, schedule) == Run(c, t, rest);
    }
  }

  /** From any state a run can reach with the workers alive, the pool can still get every lease back
      before the final collection if and only if no entry is stranded by a cancelled probe or a failed
      send. */
  lemma DrainsIffNothingStranded(c: Config, s: State)
    requires Inv(c, s) && s.workers
    ensures (exists schedule :: !Run(c, s, schedule).collected && Run(c, s, schedule).pool.leased == map[])
            <==> s.leases.abandoned == {} && s.leases.lost == {}
  {
    hide Next, PortLaw, ContainerLaw, HealthLaw, CapacityLaw;
    if s.leases.abandoned == {} && s.leases.lost == {} {
      var schedule := DrainSchedule(c, s);
      assert !Run(c, s, schedule).collected;
    } else {
      var id :| id in s.leases.abandoned + s.leases.lost;
      forall schedule ensures !(!Run(c, s, schedule).collected && Run(c, s, schedule).pool.leased == map[]) {
        StrandedForEver(c, s, schedule, id);
      }
    }
  }

  /** The same of the runs themselves: whatever has happened since the start, and while the workers run, the
      pool can still get every lease back if and only if no request was dropped while its host was being
      probed and no lease was dropped into a full channel. */
  lemma DrainsIffHandlesReturned(c: Config, schedule: seq<Label>)
    requires c.Valid() && Run(c, Init(c), schedule).workers
    ensures var s := Run(c, Init(c), schedule);
            (exists more :: !Run(c, s, more).collected && Run(c, s, more).pool.leased == map[])
            <==> !TakesCancel(c, Init(c), schedule) && !TakesFullDrop(c, Init(c), schedule)
  {
    AbandonedIff(c, Init(c), schedule);
    LostIff(c, Init(c), schedule);
    assert Init(c).leases.abandoned == {} && Init(c).leases.lost == {};
    hide Run, Init, TakesCancel, TakesFullDrop;
    Reachable(c, schedule);
    DrainsIffNothingStranded(c, Run(c, Init(c), schedule));
  }

  // ---- A graceful shutdown ----

  /** Nobody holds, waits for or has lost a lease of any kind. */
  ghost predicate NothingOut(s: State) {
    && s.leases.probing == map[] && s.leases.live == map[] && s.leases.channel == [] && s.leases.returning.None?
    && s.leases.lost == {} && s.leases.abandoned == {} && s.leases.orphaned == {}
  }

  lemma Unowned(s: State, id: LeaseId)
    requires InOrder(s, id) && id !in s.pool.leased && id !in s.leases.orphaned
    ensures id !in s.leases.probing && id !in s.leases.live && id !in s.leases.lost && id !in s.leases.abandoned
    ensures id !in s.leases.channel && s.leases.returning != Some(id)
  {
    assert id in s.leases.channel <==> id in multiset(s.leases.channel);
  }

  lemma SomeMember<T>(s: seq<T>)
    ensures s == [] || exists x :: x in s
  {
    if s != [] { assert s[0] in s; }
  }

  lemma SomeValue<T>(o: Option<T>)
    ensures o.None? || exists x :: o == Some(x)
  {
    if o.Some? { assert o == Some(o.value); }
  }

  lemma EmptyMapNothingOut(s: State)
    requires LeaseLaw(s) && s.pool.leased == map[] && s.leases.orphaned == {}
    ensures NothingOut(s)
  {
    hide InOrder;
    var ls := s.leases;
    forall id: LeaseId
      ensures id !in ls.probing && id !in ls.live && id !in ls.lost && id !in ls.abandoned && id !in ls.channel
      ensures ls.returning != Some(id) {
      assert InOrder(s, id);
      Unowned(s, id);
    }
    assert ls.probing == map[] && ls.live == map[] && ls.lost == {} && ls.abandoned == {};
    SomeMember(ls.channel);
    SomeValue(ls.returning);
  }

  lemma OrphanedMoves(c: Config, s: State, l: Label)
    requires Enabled(s, l)
    ensures Next(c, s, l).leases.orphaned <= s.leases.orphaned + s.pool.leased.Keys
  {
    hide Next;
    LeasesNow(c, s, l);
  }

  /** Once the map is empty with the flag stored and no call racing, no run leaves a lease with anybody, and
      the final collection takes none: nothing was lost. */
  lemma {:induction false} GracefulStays(c: Config, s: State, schedule: seq<Label>)
    requires Inv(c, s) && s.shutdown && Racing(s) == 0 && s.pool.leased == map[] && s.leases.orphaned == {}
    ensures var t := Run(c, s, schedule); NothingOut(t) && t.pool.leased == map[]
    decreases |schedule|
  {
    hide Next, Inv, LeaseLaw, Racing, NothingOut;
    InvLeases(c, s);
    if schedule == [] {
      EmptyMapNothingOut(s);
    } else {
      var t := Try(c, s, schedule[0]);
      if Enabled(s, schedule[0]) {
        NoNewKeyStep(c, s, schedule[0]);
        OrphanedMoves(c, s, schedule[0]);
        InvStep(c, s, schedule[0]);
        KeysBound(t.pool.leased, s.pool.leased);
      }
      GracefulStays(c, t, schedule[1..]);
    }
  }
}
