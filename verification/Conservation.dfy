/** Conservation: where every host, container and port is, in every state of every run. */
module Conservation {
  import opened Bags
  import opened PortSpec
  import opened Protocol
  import opened Footprints

  ghost function InHand(lock: Lock): multiset<Host> {
    if lock.Checking? then multiset{lock.host} else multiset{}
  }

  /** Every `HostInstance` that exists. */
  ghost function Hosts(s: State): multiset<Host> {
    Sum4(multiset(s.pool.available), Values(s.pool.leased), InHand(s.pool.lock), s.cleanup.doomed)
  }

  // ---- Hosts only move, except where one is made, marked or destroyed ----

  ghost predicate SpawnsHost(l: Label) {
    (l.LeaseCreated? || l.ScaleCreated?) && l.ok
  }

  ghost predicate MarksHost(s: State, l: Label) {
    l.ProbePassed? && l.id in s.pool.leased
  }

  lemma PopMoves(s: seq<Host>)
    requires s != []
    ensures multiset(s) == multiset{s[0]} + multiset(s[1..])
  {
    assert s == [s[0]] + s[1..];
  }

  lemma {:induction false} SiftMoves(hosts: seq<Host>, readings: seq<nat>, ttl: nat)
    requires |hosts| == |readings|
    ensures var (expired, kept) := Sift(hosts, readings, ttl);
            multiset(hosts) == multiset(expired) + multiset(kept)
  {
    if hosts != [] {
      var n := |hosts| - 1;
      SiftMoves(hosts[..n], readings[..n], ttl);
      assert hosts == hosts[..n] + [hosts[n]];
    }
  }

  /** Fresh lease ids are fresh in the map. */
  ghost predicate IdsIssued(s: State) {
    && (forall id | id in s.pool.leased :: id < s.leases.next)
    && (forall id | id in s.leases.orphaned :: id < s.leases.next)
  }

  lemma AdmitMoves(s: State, h: Host, t: TaskId)
    requires IdsIssued(s) && !s.pool.lock.Checking?
    ensures Hosts(Admit(s, h, t)) == Hosts(s) + multiset{h}
  {
    assert s.leases.next !in s.pool.leased;
    ValuesInsert(s.pool.leased, s.leases.next, h);
    Sum4Moves(multiset(s.pool.available), Values(s.pool.leased), multiset{}, s.cleanup.doomed, h);
  }

  lemma LeaseLockMoves(c: Config, s: State, t: TaskId)
    requires IdsIssued(s) && s.pool.lock.Free?
    ensures Hosts(LockForLease(c, s, t)) == Hosts(s)
  {
    hide Sum4, Values;
    if s.pool.available != [] {
      PopMoves(s.pool.available);
      var s1 := s.(leases := s.leases.(waiting := s.leases.waiting - {t}),
                   pool := s.pool.(available := s.pool.available[1..]));
      AdmitMoves(s1, s.pool.available[0], t);
      Sum4Moves(multiset(s.pool.available[1..]), Values(s.pool.leased), multiset{}, s.cleanup.doomed, s.pool.available[0]);
      assert multiset(s.pool.available) == multiset(s.pool.available[1..]) + multiset{s.pool.available[0]};
    }
  }

  /** A lease entry is removed: its host goes to the lock holder's hand or is doomed. */
  lemma RemoveMoves(s: State, id: LeaseId)
    requires id in s.pool.leased && !s.pool.lock.Checking?
    ensures var h, rest := s.pool.leased[id], Values(s.pool.leased - {id});
            && Hosts(s) == Sum4(multiset(s.pool.available), rest, multiset{h}, s.cleanup.doomed)
            && Hosts(s) == Sum4(multiset(s.pool.available), rest, multiset{}, s.cleanup.doomed + multiset{h})
  {
    hide Sum4, Values;
    var h, rest := s.pool.leased[id], Values(s.pool.leased - {id});
    ValuesRemove(s.pool.leased, id);
    Sum4Moves(multiset(s.pool.available), rest, multiset{}, s.cleanup.doomed, h);
    assert multiset{} + multiset{h} == multiset{h};
  }

  lemma FailProbeMoves(s: State, id: LeaseId)
    requires id in s.leases.probing && s.pool.lock.Free?
    ensures Hosts(FailProbe(s, id)) == Hosts(s)
  {
    hide Sum4, Values;
    if id in s.pool.leased { RemoveMoves(s, id); }
  }

  lemma LockForReturnMoves(c: Config, s: State)
    requires s.leases.returning.Some? && s.pool.lock.Free?
    ensures Hosts(LockForReturn(c, s)) == Hosts(s)
  {
    hide Sum4, Values;
    if s.leases.returning.value in s.pool.leased { RemoveMoves(s, s.leases.returning.value); }
  }

  lemma FinishReturnMoves(s: State, alive: bool)
    requires s.pool.lock.Checking?
    ensures Hosts(FinishReturn(s, alive)) == Hosts(s)
  {
  }

  lemma ReapMoves(c: Config, s: State, readings: seq<nat>)
    requires |readings| == |s.pool.available|
    ensures Hosts(ReapAll(c, s, readings)) == Hosts(s)
  {
    SiftMoves(s.pool.available, readings, c.ttl);
  }

  lemma CollectMoves(s: State)
    requires s.pool.lock.Free?
    ensures Hosts(CollectHosts(s)) == Hosts(s)
  {
  }

  lemma AbortMoves(s: State)
    ensures Hosts(Abort(s)) == Hosts(s)
  {
    var t := Abort(s);
    assert InHand(s.pool.lock) + s.cleanup.doomed == InHand(t.pool.lock) + t.cleanup.doomed;
  }

  lemma SpawnFailedStays(s: State, l: Label)
    requires Enabled(s, l) && (l.LeaseCreated? || l.ScaleCreated?)
    ensures l.LeaseCreated? ==> Hosts(FinishSpawn(s, false)) == Hosts(s)
    ensures l.ScaleCreated? ==> Hosts(FinishScaleSpawn(s, false)) == Hosts(s)
  {
  }

  lemma OrphanStays(s: State, id: LeaseId)
    ensures Hosts(LeaveOrphan(s, id)) == Hosts(s)
  {
  }

  predicate MovesHosts(l: Label) {
    || l.LeaseLock? || l.LeaseCreated? || l.ScaleCreated? || l.ProbePassed? || l.ProbeFailed? || l.ReturnLock?
    || l.ReturnChecked? || l.Reap? || l.DropHost? || l.AbortWorkers? || l.Collect?
  }

  lemma PoolFootprint(c: Config, s: State, l: Label)
    requires Enabled(s, l) && !MovesHosts(l)
    ensures var t := Next(c, s, l); t.pool.available == s.pool.available && t.pool.leased == s.pool.leased
  {
  }

  lemma HandFootprint(c: Config, s: State, l: Label)
    requires Enabled(s, l) && !MovesHosts(l)
    ensures var t := Next(c, s, l);
            (t.pool.lock.Checking? <==> s.pool.lock.Checking?) && (s.pool.lock.Checking? ==> t.pool.lock == s.pool.lock)
  {
  }

  lemma DoomedFootprint(c: Config, s: State, l: Label)
    requires Enabled(s, l) && !MovesHosts(l)
    ensures Next(c, s, l).cleanup.doomed == s.cleanup.doomed
  {
    if MovesCleanup(l) {
      hide Do, FreeStage;
    } else {
      CleanupStays(c, s, l);
      hide Next;
    }
  }

  lemma HostsFootprint(c: Config, s: State, l: Label)
    requires Enabled(s, l) && !MovesHosts(l)
    ensures Hosts(Next(c, s, l)) == Hosts(s)
  {
    PoolFootprint(c, s, l);
    HandFootprint(c, s, l);
    DoomedFootprint(c, s, l);
    hide Next;
  }

  lemma HostsStay(c: Config, s: State, l: Label)
    requires IdsIssued(s) && Enabled(s, l)
    requires !SpawnsHost(l) && !MarksHost(s, l) && !l.DropHost?
    ensures Hosts(Next(c, s, l)) == Hosts(s)
  {
    hide Hosts, LockForLease, FinishSpawn, FinishScaleSpawn, FailProbe, LockForReturn, FinishReturn, ReapAll;
    hide LeaveOrphan, CollectHosts, Abort;
    match l {
      case LeaseLock(t) => LeaseLockMoves(c, s, t);
      case LeaseCreated(_) => SpawnFailedStays(s, l);
      case ScaleCreated(_) => SpawnFailedStays(s, l);
      case ProbePassed(id) => OrphanStays(s, id);
      case ProbeFailed(id) => FailProbeMoves(s, id);
      case ReturnLock => LockForReturnMoves(c, s);
      case ReturnChecked(alive) => FinishReturnMoves(s, alive);
      case Reap(readings) => ReapMoves(c, s, readings);
      case Collect => CollectMoves(s);
      case AbortWorkers => AbortMoves(s);
      case _ => HostsFootprint(c, s, l);
    }
  }

  lemma HostsSpawned(c: Config, s: State, l: Label)
    requires IdsIssued(s) && Enabled(s, l) && SpawnsHost(l)
    ensures Hosts(Next(c, s, l)) == Hosts(s) + multiset{NewHost(s, s.pool.lock.stage.port)}
  {
    if l.LeaseCreated? {
      AdmitMoves(s.(cleanup := s.cleanup.(next := s.cleanup.next + 1)), NewHost(s, s.pool.lock.stage.port), s.pool.lock.task);
    }
  }

  lemma HostsMarked(c: Config, s: State, l: Label)
    requires Enabled(s, l) && MarksHost(s, l)
    ensures var h := s.pool.leased[l.id];
            h in Hosts(s) && Hosts(Next(c, s, l)) == Hosts(s) - multiset{h} + multiset{h.(tested := true)}
  {
    hide Sum4, Values;
    var h := s.pool.leased[l.id];
    var rest := Values(s.pool.leased - {l.id});
    ValuesUpdate(s.pool.leased, l.id, h.(tested := true));
    Sum4Moves(multiset(s.pool.available), rest, InHand(s.pool.lock), s.cleanup.doomed, h);
    Sum4Moves(multiset(s.pool.available), rest, InHand(s.pool.lock), s.cleanup.doomed, h.(tested := true));
  }

  lemma HostsDropped(c: Config, s: State, l: Label)
    requires Enabled(s, l) && l.DropHost?
    ensures l.host in Hosts(s) && Hosts(Next(c, s, l)) == Hosts(s) - multiset{l.host}
  {
    DropHostFields(c, s, l);
    hide Next, Values, InHand;
    var doomed, h := s.cleanup.doomed - multiset{l.host}, l.host;
    assert s.cleanup.doomed == doomed + multiset{h};
    Sum4Moves(multiset(s.pool.available), Values(s.pool.leased), InHand(s.pool.lock), doomed, h);
    hide Sum4;
  }

  lemma DropHostFields(c: Config, s: State, l: Label)
    requires Enabled(s, l) && l.DropHost?
    ensures var t := Next(c, s, l); t.pool == s.pool && t.cleanup.doomed == s.cleanup.doomed - multiset{l.host}
  {
  }

  /** What a label does to the image of the hosts under a field that marking does not change. */
  lemma ImageMoves<B>(c: Config, s: State, l: Label, f: Host -> B)
    requires IdsIssued(s) && Enabled(s, l)
    requires forall h: Host :: f(h.(tested := true)) == f(h)
    ensures Image(f, Hosts(Next(c, s, l))) ==
            if SpawnsHost(l) then Image(f, Hosts(s)) + multiset{f(NewHost(s, s.pool.lock.stage.port))}
            else if l.DropHost? then Image(f, Hosts(s)) - multiset{f(l.host)}
            else Image(f, Hosts(s))
    ensures l.DropHost? ==> f(l.host) in Image(f, Hosts(s))
  {
    hide Next, Hosts;
    if SpawnsHost(l) {
      HostsSpawned(c, s, l);
      ImageAdd(f, Hosts(s), NewHost(s, s.pool.lock.stage.port));
    } else if l.DropHost? {
      HostsDropped(c, s, l);
      ImageRemove(f, Hosts(s), l.host);
    } else if MarksHost(s, l) {
      HostsMarked(c, s, l);
      var h := s.pool.leased[l.id];
      ImageRemove(f, Hosts(s), h);
      ImageAdd(f, Hosts(s) - multiset{h}, h.(tested := true));
    } else {
      HostsStay(c, s, l);
    }
  }

  // ---- Ports ----

  /** The allocator's books are in order, and its live ports are exactly those of the existing hosts,
      of the spawn in progress and of the port destructors still to run. */
  ghost predicate PortLaw(c: Config, s: State) {
    && Sound(s.ports, c.lo, c.hi) && s.ports.open
    && s.ports.live == Image(PortOf, Hosts(s)) + Loose(s)
  }

  /** The ports held by no host: one in a spawn, the others waiting for their destructor. */
  ghost function Loose(s: State): multiset<Port> {
    StagePort(s.pool.lock) + s.cleanup.freed
  }

  /** The allocator step inside a label, if there is one. */
  function PortStepOf(s: State, l: Label): seq<PortStep> {
    match l
    case SpawnPort => [Allocate]
    case DropPort(p) => [Release(p)]
    case ReceivePort => [Receive]
    case RequeuePort => [Requeue]
    case _ => []
  }

  lemma PortsStep(c: Config, s: State, l: Label)
    requires Enabled(s, l)
    ensures Next(c, s, l).ports == RunPorts(s.ports, PortStepOf(s, l))
  {
    if PortStepOf(s, l) == [] {
      PortsStay(c, s, l);
    } else {
      var steps := PortStepOf(s, l);
      assert RunPorts(s.ports, steps) == RunPorts(if Can(s.ports, steps[0]) then Do(s.ports, steps[0]) else s.ports, []);
    }
  }

  lemma LooseTaken(s: State)
    requires Enabled(s, SpawnPort)
    ensures Loose(TakePort(s)) ==
            if s.ports.queue == [] then Loose(s) else Loose(s) + multiset{s.ports.queue[0]}
  {
  }

  lemma LooseSpawned(s: State, ok: bool)
    requires Enabled(s, LeaseCreated(ok))
    ensures Loose(s) == Loose(FinishSpawn(s, ok)) + if ok then multiset{s.pool.lock.stage.port} else multiset{}
  {
  }

  lemma LooseScaled(s: State, ok: bool)
    requires Enabled(s, ScaleCreated(ok))
    ensures Loose(s) == Loose(FinishScaleSpawn(s, ok)) + if ok then multiset{s.pool.lock.stage.port} else multiset{}
  {
  }

  lemma LooseDropped(s: State, h: Host)
    ensures Loose(SendContainer(s, h)) == Loose(s) + multiset{h.port}
  {
  }

  lemma LooseSent(s: State, p: Port)
    requires p in s.cleanup.freed
    ensures Loose(s) == Loose(SendPort(s, p)) + multiset{p}
  {
    assert s.cleanup.freed == (s.cleanup.freed - multiset{p}) + multiset{p};
  }

  lemma LooseCancelled(s: State, t: TaskId)
    ensures Loose(CancelCaller(s, t)) == Loose(s)
  {
  }

  lemma LooseAborted(s: State)
    ensures Loose(Abort(s)) == Loose(s)
  {
  }

  predicate MovesLoose(l: Label) {
    || l.SpawnPort? || l.LeaseCreated? || l.ScaleCreated? || l.DropHost? || l.DropPort? || l.CancelWaiting?
    || l.AbortWorkers?
  }

  lemma FreedStays(c: Config, s: State, l: Label)
    requires Enabled(s, l) && !MovesLoose(l)
    ensures Next(c, s, l).cleanup.freed == s.cleanup.freed
  {
    if MovesCleanup(l) {
      hide Sift, Values;
    } else {
      CleanupStays(c, s, l);
      hide Next;
    }
  }

  predicate HoldsPort(lock: Lock) {
    (lock.Spawning? || lock.Scaling?) && lock.stage.HavePort?
  }

  lemma StageStays(c: Config, s: State, l: Label)
    requires Enabled(s, l) && !MovesLoose(l)
    ensures HoldsPort(Next(c, s, l).pool.lock) <==> HoldsPort(s.pool.lock)
    ensures HoldsPort(s.pool.lock) ==> Next(c, s, l).pool.lock == s.pool.lock
  {
    hide Next;
    LockMoves(c, s, l);
  }

  lemma LooseFootprint(c: Config, s: State, l: Label)
    requires Enabled(s, l) && !MovesLoose(l)
    ensures Loose(Next(c, s, l)) == Loose(s)
  {
    FreedStays(c, s, l);
    StageStays(c, s, l);
    hide Next;
  }

  predicate TakesPort(s: State, l: Label) {
    l.SpawnPort? && s.ports.queue != []
  }

  /** What a label does to the loose ports. */
  ghost predicate LooseMoved(s: State, l: Label, t: State)
    requires Enabled(s, l)
  {
    if TakesPort(s, l) then Loose(t) == Loose(s) + multiset{s.ports.queue[0]}
    else if SpawnsHost(l) then Loose(s) == Loose(t) + multiset{s.pool.lock.stage.port}
    else if l.DropHost? then Loose(t) == Loose(s) + multiset{l.host.port}
    else if l.DropPort? then Loose(s) == Loose(t) + multiset{l.port}
    else Loose(t) == Loose(s)
  }

  lemma LooseMoves(c: Config, s: State, l: Label)
    requires Enabled(s, l)
    ensures LooseMoved(s, l, Next(c, s, l))
  {
    hide Loose;
    if MovesLoose(l) {
      hide TakePort, FinishSpawn, FinishScaleSpawn, SendContainer, SendPort, CancelCaller, Abort;
      match l {
        case SpawnPort => LooseTaken(s);
        case LeaseCreated(ok) => LooseSpawned(s, ok);
        case ScaleCreated(ok) => LooseScaled(s, ok);
        case DropHost(h) => LooseDropped(s, h);
        case DropPort(p) => LooseSent(s, p);
        case CancelWaiting(t) => LooseCancelled(s, t);
        case AbortWorkers => LooseAborted(s);
      }
    } else {
      LooseFootprint(c, s, l);
      hide Next;
    }
  }

  lemma OpenStays(c: Config, s: State, l: Label)
    requires Enabled(s, l)
    ensures Next(c, s, l).ports.open == s.ports.open
  {
    PortsStep(c, s, l);
    hide Next;
  }

  lemma LiveMoves(c: Config, s: State, l: Label)
    requires Enabled(s, l) && (l.DropPort? ==> l.port in s.ports.live)
    ensures var t := Next(c, s, l);
            && (TakesPort(s, l) ==> t.ports.live == s.ports.live + multiset{s.ports.queue[0]})
            && (l.DropPort? ==> s.ports.live == t.ports.live + multiset{l.port})
            && (!TakesPort(s, l) && !l.DropPort? ==> t.ports.live == s.ports.live)
  {
    PortsStep(c, s, l);
    hide Next;
  }

  lemma Balance<T>(live: multiset<T>, held: multiset<T>, loose: multiset<T>,
                   live': multiset<T>, held': multiset<T>, loose': multiset<T>, x: T)
    requires live == held + loose
    requires || (live' == live + multiset{x} && held' == held && loose' == loose + multiset{x})
             || (live' == live && held' == held + multiset{x} && loose == loose' + multiset{x})
             || (live' == live && x in held && held' == held - multiset{x} && loose' == loose + multiset{x})
             || (live == live' + multiset{x} && held' == held && loose == loose' + multiset{x})
    ensures live' == held' + loose'
  {
    forall y ensures live'[y] == (held' + loose')[y] {
      assert (held + loose)[y] == held[y] + loose[y];
    }
  }

  lemma LiveBalanced(c: Config, s: State, l: Label)
    requires s.ports.live == Image(PortOf, Hosts(s)) + Loose(s) && IdsIssued(s) && Enabled(s, l)
    ensures var t := Next(c, s, l); t.ports.live == Image(PortOf, Hosts(t)) + Loose(t)
  {
    hide Next, Hosts, Image, StagePort;
    var t := Next(c, s, l);
    var held, held' := Image(PortOf, Hosts(s)), Image(PortOf, Hosts(t));
    ImageMoves(c, s, l, PortOf);
    LooseMoves(c, s, l);
    assert l.DropPort? ==> l.port in Loose(s);
    hide Loose;
    LiveMoves(c, s, l);
    if TakesPort(s, l) {
      Balance(s.ports.live, held, Loose(s), t.ports.live, held', Loose(t), s.ports.queue[0]);
    } else if SpawnsHost(l) {
      Balance(s.ports.live, held, Loose(s), t.ports.live, held', Loose(t), s.pool.lock.stage.port);
    } else if l.DropHost? {
      Balance(s.ports.live, held, Loose(s), t.ports.live, held', Loose(t), l.host.port);
    } else if l.DropPort? {
      Balance(s.ports.live, held, Loose(s), t.ports.live, held', Loose(t), l.port);
    }
  }

  lemma PortLawStep(c: Config, s: State, l: Label)
    requires PortLaw(c, s) && IdsIssued(s) && Enabled(s, l)
    ensures PortLaw(c, Next(c, s, l))
  {
    PortsStep(c, s, l);
    RunSound(s.ports, PortStepOf(s, l), c.lo, c.hi);
    LiveBalanced(c, s, l);
    OpenStays(c, s, l);
    hide Next, Hosts, Image, StagePort, Sound, RunPorts;
  }

  // ---- Containers ----

  /** Containers that have left their host. */
  ghost function Dropped(s: State): multiset<ContainerId> {
    multiset(s.cleanup.channel) + Held(s.cleanup.stopping) + s.cleanup.stopped + s.cleanup.uncleaned
  }

  /** Each container ever wrapped in a host is, exactly once, in an existing host, on its way through
      the cleanup channel, stopped, or known never to be stopped by the cleanup worker. */
  ghost predicate ContainerLaw(s: State) {
    multiset(Span(0, s.cleanup.next)) == Image(ContainerOf, Hosts(s)) + Dropped(s)
  }

  predicate MovesDropped(l: Label) {
    l.ReceiveCleanup? || l.StopDone? || l.DropHost? || l.AbortWorkers?
  }

  ghost predicate SameDropped(a: Cleanup, b: Cleanup) {
    a.channel == b.channel && a.stopping == b.stopping && a.stopped == b.stopped && a.uncleaned == b.uncleaned
  }

  lemma DroppedOfRequest(c: Config, s: State, l: Label)
    requires Enabled(s, l) && MovesCleanup(l) && FromRequest(l)
    ensures SameDropped(Next(c, s, l).cleanup, s.cleanup)
  {
    hide Grant, FreeStage;
  }

  lemma DroppedOfOther(c: Config, s: State, l: Label)
    requires Enabled(s, l) && !MovesDropped(l) && MovesCleanup(l) && !FromRequest(l)
    ensures SameDropped(Next(c, s, l).cleanup, s.cleanup)
  {
    hide Sift, Values, Do;
  }

  lemma DroppedFootprint(c: Config, s: State, l: Label)
    requires Enabled(s, l) && !MovesDropped(l)
    ensures Dropped(Next(c, s, l)) == Dropped(s)
  {
    hide Next, Held;
    if !MovesCleanup(l) {
      CleanupStays(c, s, l);
    } else if FromRequest(l) {
      DroppedOfRequest(c, s, l);
    } else {
      DroppedOfOther(c, s, l);
    }
  }

  lemma DroppedStopped(s: State)
    requires s.cleanup.stopping.Some?
    ensures Dropped(FinishStop(s)) == Dropped(s)
  {
  }

  lemma DroppedReceived(s: State)
    requires s.cleanup.channel != [] && s.cleanup.stopping.None?
    ensures Dropped(TakeCleanup(s)) == Dropped(s)
  {
    var ch := s.cleanup.channel;
    assert ch == [ch[0]] + ch[1..];
    assert multiset(ch) == multiset{ch[0]} + multiset(ch[1..]);
  }

  lemma DroppedSent(s: State, h: Host)
    ensures Dropped(SendContainer(s, h)) == Dropped(s) + multiset{h.container}
  {
  }

  lemma DroppedAborted(s: State)
    ensures Dropped(Abort(s)) == Dropped(s)
  {
  }

  lemma DroppedMoves(c: Config, s: State, l: Label)
    requires Enabled(s, l)
    ensures Dropped(Next(c, s, l)) ==
            if l.DropHost? then Dropped(s) + multiset{l.host.container} else Dropped(s)
  {
    hide Dropped, TakeCleanup, FinishStop, SendContainer, Abort;
    match l {
      case ReceiveCleanup => DroppedReceived(s);
      case StopDone => DroppedStopped(s);
      case DropHost(h) => DroppedSent(s, h);
      case AbortWorkers => DroppedAborted(s);
      case _ => DroppedFootprint(c, s, l);
    }
  }

  lemma NextContainer(c: Config, s: State, l: Label)
    requires Enabled(s, l)
    ensures Next(c, s, l).cleanup.next == if SpawnsHost(l) then s.cleanup.next + 1 else s.cleanup.next
  {
    if MovesCleanup(l) {
      hide Grant, Sift, Values, Do, FreeStage, AbortLeases;
    } else {
      CleanupStays(c, s, l);
      hide Next;
    }
  }

  lemma Carried<T>(held: multiset<T>, gone: multiset<T>, x: T)
    ensures held + multiset{x} + gone == held + gone + multiset{x}
    ensures x in held ==> held - multiset{x} + (gone + multiset{x}) == held + gone
  {
  }

  lemma ContainersBalanced(c: Config, s: State, l: Label)
    requires IdsIssued(s) && Enabled(s, l)
    ensures Image(ContainerOf, Hosts(Next(c, s, l))) + Dropped(Next(c, s, l)) ==
            if SpawnsHost(l) then Image(ContainerOf, Hosts(s)) + Dropped(s) + multiset{s.cleanup.next}
            else Image(ContainerOf, Hosts(s)) + Dropped(s)
  {
    hide Next, Hosts, Image, Dropped;
    ImageMoves(c, s, l, ContainerOf);
    DroppedMoves(c, s, l);
    Carried(Image(ContainerOf, Hosts(s)), Dropped(s), if l.DropHost? then l.host.container else s.cleanup.next);
  }

  lemma ContainerLawStep(c: Config, s: State, l: Label)
    requires ContainerLaw(s) && IdsIssued(s) && Enabled(s, l)
    ensures ContainerLaw(Next(c, s, l))
  {
    hide Next, Hosts, Image, Dropped, Span;
    ContainersBalanced(c, s, l);
    NextContainer(c, s, l);
    SpanPush(s.cleanup.next);
  }
}
