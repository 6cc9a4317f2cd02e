/** What holds across whole runs: histories, shutdown, and what can and cannot be undone. */
module Runs {
  import opened Bags
  import opened PortSpec
  import opened Protocol
  import opened Footprints
  import opened Conservation
  import opened Leasing
  import opened Capacity
  import opened Health
  import opened Invariant

  // ---- The allocator inside the pool ----

  /** The allocator steps a run of the whole system performs. */
  ghost function PortTrace(c: Config, s: State, schedule: seq<Label>): seq<PortStep>
    decreases |schedule|
  {
    if schedule == [] then []
    else (if Enabled(s, schedule[0]) then PortStepOf(s, schedule[0]) else [])
         + PortTrace(c, Try(c, s, schedule[0]), schedule[1..])
  }

  /** Seen through its ports, every run of the pool is a run of the allocator on its own. */
  lemma {:induction false} PoolRunsAllocator(c: Config, s: State, schedule: seq<Label>)
    ensures Run(c, s, schedule).ports == RunPorts(s.ports, PortTrace(c, s, schedule))
    decreases |schedule|
  {
    if schedule != [] {
      var l, t := schedule[0], Try(c, s, schedule[0]);
      var first := if Enabled(s, l) then PortStepOf(s, l) else [];
      if Enabled(s, l) { PortsStep(c, s, l); }
      hide Next, PortStepOf;
      assert t.ports == RunPorts(s.ports, first);
      RunPortsConcat(s.ports, first, PortTrace(c, t, schedule[1..]));
      PoolRunsAllocator(c, t, schedule[1..]);
    }
  }

  lemma {:induction false} TraceStaysOpen(c: Config, s: State, schedule: seq<Label>)
    ensures StaysOpen(PortTrace(c, s, schedule))
    decreases |schedule|
  {
    hide Next;
    if schedule != [] { TraceStaysOpen(c, Try(c, s, schedule[0]), schedule[1..]); }
  }

  lemma DropPortReleases(c: Config, s: State, p: Port)
    requires p in s.cleanup.freed && p in s.ports.live
    ensures Next(c, s, DropPort(p)).ports == Do(s.ports, Release(p))
  {
  }

  lemma FreedIsLive(c: Config, s: State, p: Port)
    requires Inv(c, s) && p in s.cleanup.freed
    ensures p in s.ports.live && Sound(s.ports, c.lo, c.hi) && s.ports.open
  {
    hide Sound, ContainerLaw, LeaseLaw, HealthLaw, CapacityLaw, ControlLaw;
    assert p in Loose(s);
  }

  /** The reuse grace period, over every run of the whole system: a port whose destructor reaches the
      channel is granted again by exactly the (k+1)-th later allocation, where k is the range size less
      the live and leaked ports at that moment. */
  lemma GracePeriod(c: Config, s: State, p: Port, schedule: seq<Label>)
    requires Inv(c, s) && Enabled(s, DropPort(p)) && p in s.cleanup.freed && |s.ports.channel| < CHANNEL_CAPACITY
    ensures ReusedAfter(s.ports.granted, Run(c, Next(c, s, DropPort(p)), schedule).ports.granted,
                        c.hi - c.lo - |s.ports.live| - |s.ports.leaked|, p)
  {
    hide Next, Inv, Enabled, Run, RunPorts, PortTrace, Sound, ReusedAfter;
    var t := Next(c, s, DropPort(p));
    FreedIsLive(c, s, p);
    DropPortReleases(c, s, p);
    PoolRunsAllocator(c, t, schedule);
    ReuseDistance(s.ports, p, PortTrace(c, t, schedule), c.lo, c.hi);
  }

  // ---- A host keeps its identity, and its mark, for ever ----

  lemma {:induction false} GoneForEver(c: Config, s: State, schedule: seq<Label>)
    ensures Gone(s) <= Gone(Run(c, s, schedule))
    decreases |schedule|
  {
    hide Next, Gone;
    if schedule != [] {
      if Enabled(s, schedule[0]) { GoneGrows(c, s, schedule[0]); }
      GoneForEver(c, Try(c, s, schedule[0]), schedule[1..]);
    }
  }

  /** A host that was doomed, for whatever reason, is never again available, leased or in hand; in
      particular a host that failed its probe never re-enters the pool. */
  lemma DoomedNeverReturns(c: Config, s: State, schedule: seq<Label>, x: ContainerId, h: Host)
    requires Inv(c, s) && (x in Gone(s) || x in s.history.failed)
    requires h in Pooled(Run(c, s, schedule).pool)
    ensures h.container != x
  {
    hide Gone, Pooled;
    assert x in Gone(s);
    GoneForEver(c, s, schedule);
    InvRun(c, s, schedule);
    if h.container == x { GoneNotPooled(Run(c, s, schedule), h); }
  }

  lemma HeldOrDropped(s: State, x: ContainerId)
    requires ContainerLaw(s) && x < s.cleanup.next
    ensures x in Dropped(s) || exists h :: h in Hosts(s) && h.container == x
  {
    hide Hosts, Dropped;
    SpanCount(0, s.cleanup.next, x);
    hide Span;
    if x !in Dropped(s) {
      assert x in Image(ContainerOf, Hosts(s));
      ImageSource(Hosts(s), x);
    }
  }

  lemma {:induction false} ImageSource(m: multiset<Host>, x: ContainerId)
    requires x in Image(ContainerOf, m)
    ensures exists h :: h in m && h.container == x
    decreases |m|
  {
    var a := AnyOf(m);
    if a.container == x {
      assert a in m;
    } else {
      ImageSource(m - multiset{a}, x);
      var h :| h in m - multiset{a} && h.container == x;
      assert h in m;
    }
  }

  lemma DroppedGrows(c: Config, s: State, l: Label)
    requires Enabled(s, l)
    ensures Dropped(s) <= Dropped(Next(c, s, l))
  {
    DroppedMoves(c, s, l);
    hide Next, Dropped;
  }

  lemma {:induction false} DroppedForEver(c: Config, s: State, schedule: seq<Label>)
    ensures Dropped(s) <= Dropped(Run(c, s, schedule))
    decreases |schedule|
  {
    hide Next, Dropped;
    if schedule != [] {
      if Enabled(s, schedule[0]) { DroppedGrows(c, s, schedule[0]); }
      DroppedForEver(c, Try(c, s, schedule[0]), schedule[1..]);
    }
  }

  lemma DroppedNotHeld(s: State, h: Host)
    requires ContainerLaw(s) && h in Hosts(s)
    ensures h.container !in Dropped(s)
  {
    hide Hosts, Dropped, Image, Span;
    ImageMember(ContainerOf, Hosts(s), h);
    SpanCount(0, s.cleanup.next, h.container);
    OneSide(Image(ContainerOf, Hosts(s)), Dropped(s), multiset(Span(0, s.cleanup.next)), h.container);
  }

  /** Over any run, a host with a given container keeps its port and creation time, and its health
      mark can be set but never cleared. */
  lemma {:induction false} HostIdentity(c: Config, s: State, schedule: seq<Label>, h: Host, h': Host)
    requires Inv(c, s) && h in Hosts(s)
    requires h' in Hosts(Run(c, s, schedule)) && h'.container == h.container
    ensures h' == h || h' == h.(tested := true)
    decreases |schedule|
  {
    hide Next, Hosts, PortLaw, ContainerLaw, HealthLaw, CapacityLaw, ControlLaw, LeaseLaw;
    if schedule == [] {
      SameContainerSameHost(s, h, h');
    } else if !Enabled(s, schedule[0]) {
      HostIdentity(c, s, schedule[1..], h, h');
    } else {
      var l := schedule[0];
      var t := Next(c, s, l);
      InvStep(c, s, l);
      LeaseLawIssues(s);
      ContainerIssued(s, h);
      NextContainer(c, s, l);
      HeldOrDropped(t, h.container);
      if h.container in Dropped(t) {
        DroppedForEver(c, t, schedule[1..]);
        InvRun(c, t, schedule[1..]);
        DroppedNotHeld(Run(c, t, schedule[1..]), h');
        assert false;
      } else {
        var g :| g in Hosts(t) && g.container == h.container;
        IdentityStep(c, s, l, h, g);
        HostIdentity(c, t, schedule[1..], g, h');
      }
    }
  }

  // ---- Full channels ----

  lemma WorkersFlag(c: Config, s: State, l: Label)
    requires Enabled(s, l)
    ensures Next(c, s, l).workers == (s.workers && !l.AbortWorkers?)
  {
    FlagsMove(c, s, l);
    hide Next;
  }

  /** With at most a thousand instances or at most a thousand ports, no lease is ever lost while the
      workers run. */
  lemma {:induction false} NoLeaseLost(c: Config, s: State, schedule: seq<Label>)
    requires Inv(c, s) && (s.workers ==> s.leases.lost == {})
    requires c.maxInstances <= 1000 || c.hi - c.lo <= 1000
    ensures var t := Run(c, s, schedule); t.workers ==> t.leases.lost == {}
    decreases |schedule|
  {
    hide Next, PortLaw, ContainerLaw, HealthLaw, CapacityLaw, LeaseLaw;
    if schedule != [] {
      var l := schedule[0];
      if Enabled(s, l) {
        if s.workers {
          if l.DropLease? { LeaseDropNeverFull(c, s, l.id); }
          WorkersFlag(c, s, l);
          StrandedMoves(c, s, l);
        } else {
          WorkersStayDown(c, s, l);
        }
        InvStep(c, s, l);
      }
      NoLeaseLost(c, Try(c, s, l), schedule[1..]);
    }
  }

  lemma WorkersStayDown(c: Config, s: State, l: Label)
    requires Enabled(s, l)
    ensures !s.workers ==> !Next(c, s, l).workers
    ensures s.shutdown ==> Next(c, s, l).shutdown
    ensures s.collected ==> Next(c, s, l).collected
  {
    FlagsMove(c, s, l);
    hide Next;
  }

  /** A range that fits in the return channel never leaks a port, in any run of the whole system. */
  lemma NoPortLeaked(c: Config, schedule: seq<Label>)
    requires c.Valid() && c.hi - c.lo <= 1000
    ensures Run(c, Init(c), schedule).ports.leaked == multiset{}
  {
    PoolRunsAllocator(c, Init(c), schedule);
    FreshSound(c.lo, c.hi);
    TraceStaysOpen(c, Init(c), schedule);
    NeverLeaks(PortSpec.Fresh(c.lo, c.hi), PortTrace(c, Init(c), schedule), c.lo, c.hi);
  }

  // ---- Shutdown: draining ----

  /** Calls between their flag check and their insert. */
  function Racing(s: State): nat {
    |s.leases.waiting| + if s.pool.lock.Spawning? then 1 else 0
  }

  lemma AdmitSize(s: State, h: Host, task: TaskId)
    ensures |Admit(s, h, task).pool.leased| <= |s.pool.leased| + 1
    ensures Admit(s, h, task).pool.lock.Free? && Admit(s, h, task).leases.waiting == s.leases.waiting
  {
    UpdatedMap(s.pool.leased, s.leases.next, h);
  }

  lemma DrainOfLease(c: Config, s: State, task: TaskId)
    requires Enabled(s, LeaseLock(task))
    ensures var t := LockForLease(c, s, task); |t.pool.leased| + Racing(t) <= |s.pool.leased| + Racing(s)
  {
    hide Admit;
    var waiting := s.leases.waiting - {task};
    assert |waiting| + 1 == |s.leases.waiting|;
    if s.pool.available != [] {
      AdmitSize(s.(leases := s.leases.(waiting := waiting), pool := s.pool.(available := s.pool.available[1..])),
                s.pool.available[0], task);
    }
  }

  lemma DrainOfSpawn(s: State, ok: bool)
    requires Enabled(s, LeaseCreated(ok))
    ensures var t := FinishSpawn(s, ok); |t.pool.leased| + Racing(t) <= |s.pool.leased| + Racing(s)
  {
    hide Admit;
    if ok {
      AdmitSize(s.(cleanup := s.cleanup.(next := s.cleanup.next + 1)), NewHost(s, s.pool.lock.stage.port), s.pool.lock.task);
    }
  }

  lemma DrainOfCancel(s: State, task: TaskId)
    requires Enabled(s, CancelWaiting(task))
    ensures var t := CancelCaller(s, task); |t.pool.leased| + Racing(t) <= |s.pool.leased| + Racing(s)
  {
    if task in s.leases.waiting { assert |s.leases.waiting - {task}| + 1 == |s.leases.waiting|; }
  }

  lemma DrainOfRequests(c: Config, s: State, l: Label)
    requires s.shutdown && Enabled(s, l)
    requires l.LeaseLock? || l.LeaseCreated? || l.CancelWaiting? || l.CheckFlag? || l.SpawnPort?
    ensures var t := Next(c, s, l); |t.pool.leased| + Racing(t) <= |s.pool.leased| + Racing(s)
  {
    hide LockForLease, FinishSpawn, CancelCaller, Do;
    match l {
      case LeaseLock(task) => DrainOfLease(c, s, task);
      case LeaseCreated(ok) => DrainOfSpawn(s, ok);
      case CancelWaiting(task) => DrainOfCancel(s, task);
      case _ =>
    }
  }

  lemma DrainOfEntries(c: Config, s: State, l: Label)
    requires Enabled(s, l) && (l.ProbePassed? || l.ProbeFailed? || l.ReturnLock?)
    ensures var t := Next(c, s, l); |t.pool.leased| <= |s.pool.leased| && Racing(t) == Racing(s)
  {
    hide Next;
    TableMoves(c, s, l);
    LockMoves(c, s, l);
    WaitingStays(c, s, l);
    var id := if l.ReturnLock? then s.leases.returning.value else l.id;
    if id in s.pool.leased {
      UpdatedMap(s.pool.leased, id, s.pool.leased[id].(tested := true));
      SmallerMap(s.pool.leased, id);
    }
  }

  predicate Drains(l: Label) {
    || l.LeaseLock? || l.LeaseCreated? || l.CancelWaiting? || l.CheckFlag? || l.SpawnPort?
    || l.ProbePassed? || l.ProbeFailed? || l.ReturnLock?
  }

  lemma DrainOfOthers(c: Config, s: State, l: Label)
    requires Enabled(s, l) && !Drains(l)
    ensures var t := Next(c, s, l); |t.pool.leased| <= |s.pool.leased| && Racing(t) == Racing(s)
  {
    hide Next;
    TableMoves(c, s, l);
    LockMoves(c, s, l);
    WaitingStays(c, s, l);
  }

  lemma DrainStep(c: Config, s: State, l: Label)
    requires s.shutdown && Enabled(s, l)
    ensures var t := Next(c, s, l); t.shutdown && |t.pool.leased| + Racing(t) <= |s.pool.leased| + Racing(s)
  {
    WorkersStayDown(c, s, l);
    hide Next;
    if l.LeaseLock? || l.LeaseCreated? || l.CancelWaiting? || l.CheckFlag? || l.SpawnPort? {
      DrainOfRequests(c, s, l);
    } else if Drains(l) {
      DrainOfEntries(c, s, l);
    } else {
      DrainOfOthers(c, s, l);
    }
  }

  /** Once the flag is stored, the leased count never exceeds the count at that moment plus the calls
      that were already past their flag check; with none racing it never rises, and 0 stays 0. */
  lemma {:induction false} DrainBound(c: Config, s: State, schedule: seq<Label>)
    requires s.shutdown
    ensures var t := Run(c, s, schedule);
            t.shutdown && |t.pool.leased| + Racing(t) <= |s.pool.leased| + Racing(s)
    decreases |schedule|
  {
    hide Next;
    if schedule != [] {
      if Enabled(s, schedule[0]) { DrainStep(c, s, schedule[0]); }
      DrainBound(c, Try(c, s, schedule[0]), schedule[1..]);
    }
  }

  lemma NoOneRaces(c: Config, s: State, l: Label)
    requires s.shutdown && Racing(s) == 0 && Enabled(s, l)
    ensures Racing(Next(c, s, l)) == 0
  {
    RacersStayOut(c, s, l);
    hide Next;
  }

  lemma RacersStayOut(c: Config, s: State, l: Label)
    requires s.shutdown && s.leases.waiting == {} && !s.pool.lock.Spawning? && Enabled(s, l)
    ensures Next(c, s, l).leases.waiting == {} && !Next(c, s, l).pool.lock.Spawning?
  {
    LockMoves(c, s, l);
    if l.CheckFlag? || l.LeaseLock? || l.CancelWaiting? {
    } else {
      WaitingStays(c, s, l);
      hide Next;
    }
  }

  lemma NoNewKeyStep(c: Config, s: State, l: Label)
    requires s.shutdown && Racing(s) == 0 && Enabled(s, l)
    ensures var t := Next(c, s, l); t.shutdown && Racing(t) == 0 && t.pool.leased.Keys <= s.pool.leased.Keys
  {
    hide Next;
    WorkersStayDown(c, s, l);
    NoOneRaces(c, s, l);
    LeasesNow(c, s, l);
  }

  /** With no call racing when the flag is stored, no call ever races again and no key is ever added. */
  lemma {:induction false} NoKeyAdded(c: Config, s: State, schedule: seq<Label>)
    requires s.shutdown && Racing(s) == 0
    ensures var t := Run(c, s, schedule); t.shutdown && Racing(t) == 0 && t.pool.leased.Keys <= s.pool.leased.Keys
    decreases |schedule|
  {
    hide Next;
    if schedule != [] {
      if Enabled(s, schedule[0]) { NoNewKeyStep(c, s, schedule[0]); }
      NoKeyAdded(c, Try(c, s, schedule[0]), schedule[1..]);
    }
  }

  /** Between any two polls of the drain the leased count does not rise, and a count once seen as 0 is 0 at
      every later poll. */
  lemma CountNeverRises(c: Config, s: State, first: seq<Label>, more: seq<Label>)
    requires s.shutdown && Racing(s) == 0
    ensures var t, u := Run(c, s, first), Run(c, s, first + more);
            && u.pool.leased.Keys <= t.pool.leased.Keys && |u.pool.leased| <= |t.pool.leased|
            && (t.pool.leased == map[] ==> u.pool.leased == map[])
  {
    hide Racing, Run;
    RunConcat(c, s, first, more);
    NoKeyAdded(c, s, first);
    var t := Run(c, s, first);
    NoKeyAdded(c, t, more);
    KeysBound(Run(c, t, more).pool.leased, t.pool.leased);
  }

  lemma KeysBound(m: map<LeaseId, Host>, n: map<LeaseId, Host>)
    requires m.Keys <= n.Keys
    ensures |m| <= |n| && (n == map[] ==> m == map[])
  {
    SubsetSize(m.Keys, n.Keys);
    assert |m| == |m.Keys| && |n| == |n.Keys|;
  }

  // ---- Entries that can never be given back ----

  /** What a label adds to the ids that nobody can give back any more. */
  lemma StrandedMoves(c: Config, s: State, l: Label)
    requires Enabled(s, l)
    ensures Next(c, s, l).leases.abandoned == if l.CancelProbing? then s.leases.abandoned + {l.id} else s.leases.abandoned
    ensures s.leases.lost <= Next(c, s, l).leases.lost
    ensures s.workers && !l.AbortWorkers? ==>
              Next(c, s, l).leases.lost == if FullDrop(s, l) then s.leases.lost + {l.id} else s.leases.lost
  {
    hide Next;
    LeasesNow(c, s, l);
  }

  /** A lease is dropped into a full channel. */
  predicate FullDrop(s: State, l: Label) {
    l.DropLease? && |s.leases.channel| >= CHANNEL_CAPACITY
  }

  lemma StrandedGrows(c: Config, s: State, l: Label)
    requires Enabled(s, l)
    ensures s.leases.abandoned <= Next(c, s, l).leases.abandoned && s.leases.lost <= Next(c, s, l).leases.lost
  {
    StrandedMoves(c, s, l);
    hide Next;
  }

  /** Some request is dropped while its new host is being probed. */
  ghost predicate TakesCancel(c: Config, s: State, schedule: seq<Label>)
    decreases |schedule|
  {
    && schedule != []
    && ((schedule[0].CancelProbing? && Enabled(s, schedule[0])) || TakesCancel(c, Try(c, s, schedule[0]), schedule[1..]))
  }

  /** Some lease is dropped into a full channel. */
  ghost predicate TakesFullDrop(c: Config, s: State, schedule: seq<Label>)
    decreases |schedule|
  {
    && schedule != []
    && ((FullDrop(s, schedule[0]) && Enabled(s, schedule[0])) || TakesFullDrop(c, Try(c, s, schedule[0]), schedule[1..]))
  }

  /** Entries are abandoned exactly by requests dropped while probing. */
  lemma {:induction false} AbandonedIff(c: Config, s: State, schedule: seq<Label>)
    ensures Run(c, s, schedule).leases.abandoned == {} <==> s.leases.abandoned == {} && !TakesCancel(c, s, schedule)
    decreases |schedule|
  {
    hide Next;
    if schedule != [] {
      if Enabled(s, schedule[0]) { StrandedMoves(c, s, schedule[0]); }
      AbandonedIff(c, Try(c, s, schedule[0]), schedule[1..]);
    }
  }

  lemma {:induction false} WorkersWereUp(c: Config, s: State, schedule: seq<Label>)
    requires Run(c, s, schedule).workers
    ensures s.workers
    decreases |schedule|
  {
    hide Next;
    if schedule != [] {
      if Enabled(s, schedule[0]) { WorkersFlag(c, s, schedule[0]); }
      WorkersWereUp(c, Try(c, s, schedule[0]), schedule[1..]);
    }
  }

  /** While the workers run, leases are lost exactly by drops into a full channel. */
  lemma {:induction false} LostIff(c: Config, s: State, schedule: seq<Label>)
    requires Run(c, s, schedule).workers
    ensures Run(c, s, schedule).leases.lost == {} <==> s.leases.lost == {} && !TakesFullDrop(c, s, schedule)
    decreases |schedule|
  {
    hide Next;
    if schedule != [] {
      WorkersWereUp(c, s, schedule);
      if Enabled(s, schedule[0]) {
        WorkersWereUp(c, Next(c, s, schedule[0]), schedule[1..]);
        WorkersFlag(c, s, schedule[0]);
        StrandedMoves(c, s, schedule[0]);
      }
      LostIff(c, Try(c, s, schedule[0]), schedule[1..]);
    }
  }

  /** An owned id has an entry until the final collection. */
  lemma StrandedHasEntry(c: Config, s: State, id: LeaseId)
    requires LeaseLaw(s) && ControlLaw(s) && id in s.leases.abandoned + s.leases.lost
    ensures s.collected || id in s.pool.leased
  {
    assert InOrder(s, id);
  }

  /** The entry of a caller cancelled while probing, or of a lease whose send failed, is never removed
      before the final collection: it counts against `max_instances` and keeps the drain above zero. */
  lemma {:induction false} StrandedForEver(c: Config, s: State, schedule: seq<Label>, id: LeaseId)
    requires Inv(c, s) && id in s.leases.abandoned + s.leases.lost
    ensures var t := Run(c, s, schedule); t.collected || id in t.pool.leased
    decreases |schedule|
  {
    hide Next, Inv, LeaseLaw, ControlLaw;
    InvLeases(c, s);
    if schedule == [] {
      StrandedHasEntry(c, s, id);
    } else {
      if Enabled(s, schedule[0]) {
        StrandedGrows(c, s, schedule[0]);
        InvStep(c, s, schedule[0]);
      }
      StrandedForEver(c, Try(c, s, schedule[0]), schedule[1..], id);
    }
  }

  // ---- After the workers are aborted ----

  lemma NoCleanupStep(c: Config, s: State, l: Label)
    requires ControlLaw(s) && !s.workers && Enabled(s, l)
    ensures var t := Next(c, s, l);
            !t.workers && t.cleanup.stopped == s.cleanup.stopped && t.cleanup.channel == [] && ControlLaw(t)
  {
    ControlStep(c, s, l);
    WorkersStayDown(c, s, l);
    hide Sift, Values, Do, Admit;
  }

  /** After the abort no container is ever stopped through the cleanup channel: every host collected at
      shutdown drops into a closed channel, and only the final label-based sweep can stop it. */
  lemma {:induction false} NoCleanupAfterAbort(c: Config, s: State, schedule: seq<Label>)
    requires ControlLaw(s) && !s.workers
    ensures var t := Run(c, s, schedule);
            !t.workers && t.cleanup.stopped == s.cleanup.stopped && t.cleanup.channel == []
    decreases |schedule|
  {
    hide Next, ControlLaw;
    if schedule == [] {
      AbortedChannel(s);
    } else {
      if Enabled(s, schedule[0]) { NoCleanupStep(c, s, schedule[0]); }
      NoCleanupAfterAbort(c, Try(c, s, schedule[0]), schedule[1..]);
    }
  }

  lemma AbortedChannel(s: State)
    requires ControlLaw(s) && !s.workers
    ensures s.cleanup.channel == []
  {
  }
}
