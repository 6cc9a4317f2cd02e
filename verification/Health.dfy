/** Distinct hosts, health-check marks, and what never re-enters the pool. */
module Health {
  import opened Bags
  import opened PortSpec
  import opened Protocol
  import opened Footprints
  import opened Conservation

  // ---- No container or port is in two hosts ----

  lemma HostsApart(c: Config, s: State, a: Host, b: Host)
    requires ContainerLaw(s) && PortLaw(c, s) && multiset{a, b} <= Hosts(s)
    ensures a.container != b.container && a.port != b.port
  {
    ContainersUnique(s);
    PortsUnique(c, s);
    ImageApart(ContainerOf, Hosts(s), a, b);
    ImageApart(PortOf, Hosts(s), a, b);
  }

  lemma ContainersUnique(s: State)
    requires ContainerLaw(s)
    ensures Unique(Image(ContainerOf, Hosts(s)))
  {
    hide Hosts, Image, Dropped, Span;
    var held, all := Image(ContainerOf, Hosts(s)), multiset(Span(0, s.cleanup.next));
    SpanUnique(0, s.cleanup.next);
    forall x | x in held ensures held[x] == 1 {
      assert held[x] + Dropped(s)[x] == all[x];
      assert x in all;
    }
  }

  lemma PortsUnique(c: Config, s: State)
    requires PortLaw(c, s)
    ensures Unique(Image(PortOf, Hosts(s)))
  {
    hide Hosts, Image, Loose;
    SoundUnique(s.ports, c.lo, c.hi);
    hide Sound;
    var held := Image(PortOf, Hosts(s));
    forall x | x in held ensures held[x] == 1 {
      assert held[x] + Loose(s)[x] == s.ports.live[x];
      assert x in s.ports.live;
    }
  }

  /** Every host that exists carries an issued container. */
  lemma ContainerIssued(s: State, h: Host)
    requires ContainerLaw(s) && h in Hosts(s)
    ensures h.container < s.cleanup.next
  {
    hide Hosts, Dropped;
    ImageMember(ContainerOf, Hosts(s), h);
    hide Image;
    assert h.container in multiset(Span(0, s.cleanup.next));
    SpanCount(0, s.cleanup.next, h.container);
  }

  // ---- Membership of the host bag ----

  lemma AvailableIn(s: State, i: nat)
    requires i < |s.pool.available|
    ensures s.pool.available[i] in Hosts(s)
  {
  }

  lemma AvailablePair(s: State, i: nat, j: nat)
    requires i < j < |s.pool.available|
    ensures multiset{s.pool.available[i], s.pool.available[j]} <= Hosts(s)
  {
    var a := s.pool.available;
    assert a == a[..j] + a[j..];
    assert a[i] in a[..j] && a[j] in a[j..];
    assert multiset{a[i]} <= multiset(a[..j]) && multiset{a[j]} <= multiset(a[j..]);
  }

  lemma LeasedPair(s: State, x: LeaseId, y: LeaseId)
    requires x in s.pool.leased && y in s.pool.leased && x != y
    ensures multiset{s.pool.leased[x], s.pool.leased[y]} <= Hosts(s)
  {
    ValuesPair(s.pool.leased, x, y);
  }

  lemma MixedPair(s: State, id: LeaseId, i: nat)
    requires id in s.pool.leased && i < |s.pool.available|
    ensures multiset{s.pool.leased[id], s.pool.available[i]} <= Hosts(s)
  {
    ValuesRemove(s.pool.leased, id);
    assert s.pool.available[i] in multiset(s.pool.available);
  }

  // ---- Gone hosts never come back ----

  /** Containers whose host is about to be destroyed or has been. */
  ghost function Gone(s: State): multiset<ContainerId> {
    Image(ContainerOf, s.cleanup.doomed) + Dropped(s)
  }

  lemma Grown<T>(m: multiset<T>, more: multiset<T>)
    ensures m <= m + more
  {
  }

  lemma DoomedByReturn(c: Config, s: State)
    requires s.leases.returning.Some?
    ensures s.cleanup.doomed <= LockForReturn(c, s).cleanup.doomed
  {
    var id := s.leases.returning.value;
    if id in s.pool.leased { Grown(s.cleanup.doomed, multiset{s.pool.leased[id]}); }
  }

  lemma DoomedByProbe(s: State, id: LeaseId)
    requires id in s.leases.probing
    ensures s.cleanup.doomed <= FailProbe(s, id).cleanup.doomed
  {
    if id in s.pool.leased { Grown(s.cleanup.doomed, multiset{s.pool.leased[id]}); }
  }

  lemma DoomedByAbort(s: State)
    ensures s.cleanup.doomed <= Abort(s).cleanup.doomed
  {
    if s.pool.lock.Checking? { Grown(s.cleanup.doomed, multiset{s.pool.lock.host}); }
  }

  lemma DoomedByCollect(s: State)
    ensures s.cleanup.doomed <= CollectHosts(s).cleanup.doomed
  {
    hide Values;
    Grown(s.cleanup.doomed, multiset(s.pool.available));
    Grown(s.cleanup.doomed + multiset(s.pool.available), Values(s.pool.leased));
  }

  lemma DoomedBySpawn(s: State, l: Label)
    requires Enabled(s, l) && (l.LeaseCreated? || l.ScaleCreated?)
    ensures l.LeaseCreated? ==> FinishSpawn(s, l.ok).cleanup.doomed == s.cleanup.doomed
    ensures l.ScaleCreated? ==> FinishScaleSpawn(s, l.ok).cleanup.doomed == s.cleanup.doomed
  {
    hide Grant;
  }

  lemma DoomedOnlyGrows(c: Config, s: State, l: Label)
    requires Enabled(s, l) && !l.DropHost?
    ensures s.cleanup.doomed <= Next(c, s, l).cleanup.doomed
  {
    if !MovesCleanup(l) {
      CleanupStays(c, s, l);
      hide Next;
    } else if !MovesHosts(l) {
      DoomedFootprint(c, s, l);
      hide Next;
    } else {
      hide FailProbe, LockForReturn, Abort, CollectHosts, FinishSpawn, FinishScaleSpawn, Sift;
      match l {
        case LeaseCreated(_) => DoomedBySpawn(s, l);
        case ScaleCreated(_) => DoomedBySpawn(s, l);
        case ProbeFailed(id) => DoomedByProbe(s, id);
        case ReturnLock => DoomedByReturn(c, s);
        case ReturnChecked(_) => Grown(s.cleanup.doomed, multiset{s.pool.lock.host});
        case Reap(readings) => Grown(s.cleanup.doomed, multiset(Sift(s.pool.available, readings, c.ttl).0));
        case AbortWorkers => DoomedByAbort(s);
        case Collect => DoomedByCollect(s);
      }
    }
  }

  lemma GoneGrows(c: Config, s: State, l: Label)
    requires Enabled(s, l)
    ensures Gone(s) <= Gone(Next(c, s, l))
  {
    hide Next, Dropped, Image;
    var t := Next(c, s, l);
    DroppedMoves(c, s, l);
    if l.DropHost? {
      DoomedSent(c, s, l.host);
      ImageRemove(ContainerOf, s.cleanup.doomed, l.host);
      PassedOn(Image(ContainerOf, t.cleanup.doomed), Dropped(s), l.host.container);
    } else {
      DoomedOnlyGrows(c, s, l);
      ImageGrows(s.cleanup.doomed, t.cleanup.doomed);
      BothGrow(Image(ContainerOf, s.cleanup.doomed), Image(ContainerOf, t.cleanup.doomed), Dropped(s));
    }
  }

  lemma DoomedSent(c: Config, s: State, h: Host)
    requires h in s.cleanup.doomed
    ensures Next(c, s, DropHost(h)).cleanup.doomed == s.cleanup.doomed - multiset{h}
  {
  }

  lemma ImageGrows(m: multiset<Host>, n: multiset<Host>)
    requires m <= n
    ensures Image(ContainerOf, m) <= Image(ContainerOf, n)
  {
    assert n == m + (n - m);
    ImageUnion(ContainerOf, m, n - m);
    hide Image;
  }

  lemma PassedOn<T>(doomed: multiset<T>, dropped: multiset<T>, x: T)
    ensures doomed + multiset{x} + dropped == doomed + (dropped + multiset{x})
  {
  }

  lemma BothGrow<T>(a: multiset<T>, b: multiset<T>, rest: multiset<T>)
    requires a <= b
    ensures a + rest <= b + rest
  {
  }

  /** The hosts that are available, leased or in the lock holder's hand. */
  ghost function Pooled(p: Pool): multiset<Host> {
    multiset(p.available) + Values(p.leased) + InHand(p.lock)
  }

  lemma PoolAndGone(s: State)
    requires ContainerLaw(s)
    ensures multiset(Span(0, s.cleanup.next)) == Image(ContainerOf, Pooled(s.pool)) + Gone(s)
  {
    hide Dropped, Span, Image;
    assert Hosts(s) == Pooled(s.pool) + s.cleanup.doomed;
    ImageUnion(ContainerOf, Pooled(s.pool), s.cleanup.doomed);
  }

  /** The container of a gone host belongs to no pooled host. */
  lemma GoneNotPooled(s: State, h: Host)
    requires ContainerLaw(s) && h in Pooled(s.pool)
    ensures h.container !in Gone(s)
  {
    hide Pooled, Image, Gone, Span, ContainerLaw;
    PoolAndGone(s);
    ImageMember(ContainerOf, Pooled(s.pool), h);
    SpanCount(0, s.cleanup.next, h.container);
    OneSide(Image(ContainerOf, Pooled(s.pool)), Gone(s), multiset(Span(0, s.cleanup.next)), h.container);
  }

  // ---- Marks ----

  ghost predicate Unleased(available: seq<Host>, history: History) {
    forall h :: h in available ==> h.tested || (h.container !in history.everLeased && h.container in history.scaled)
  }

  /** An untested available host was made by the scaling task and has never been leased, and a container
      discarded for failing its probe is gone. */
  ghost predicate HealthLaw(s: State) {
    && Unleased(s.pool.available, s.history)
    && (forall x :: x in s.history.everLeased ==> x < s.cleanup.next)
    && (forall x :: x in s.history.failed ==> x in Gone(s))
  }

  lemma FirstApart(c: Config, s: State)
    requires ContainerLaw(s) && PortLaw(c, s) && s.pool.available != []
    ensures forall h :: h in s.pool.available[1..] ==> h.container != s.pool.available[0].container
  {
    forall h | h in s.pool.available[1..] ensures h.container != s.pool.available[0].container {
      var i :| 0 <= i < |s.pool.available[1..]| && s.pool.available[1..][i] == h;
      AvailablePair(s, 0, i + 1);
      HostsApart(c, s, s.pool.available[0], s.pool.available[i + 1]);
    }
  }

  lemma AvailableIssued(s: State, h: Host)
    requires ContainerLaw(s) && h in s.pool.available
    ensures h.container < s.cleanup.next
  {
    var i :| 0 <= i < |s.pool.available| && s.pool.available[i] == h;
    AvailableIn(s, i);
    ContainerIssued(s, h);
  }

  lemma HitFields(c: Config, s: State, task: TaskId)
    ensures var t := LockForLease(c, s, task);
            && t.cleanup.next == s.cleanup.next
            && (s.pool.available == [] ==> t.pool.available == [] && t.history == s.history)
            && (s.pool.available != [] ==> t.pool.available == s.pool.available[1..])
            && (s.pool.available != [] ==>
                  t.history.everLeased == s.history.everLeased + {s.pool.available[0].container})
            && t.history.scaled == s.history.scaled
  {
  }

  lemma UnleasedByLease(c: Config, s: State, task: TaskId)
    requires HealthLaw(s) && ContainerLaw(s) && PortLaw(c, s)
    ensures var t := LockForLease(c, s, task);
            && Unleased(t.pool.available, t.history)
            && (forall x :: x in t.history.everLeased ==> x < t.cleanup.next)
  {
    hide ContainerLaw, PortLaw, Gone, LockForLease;
    HitFields(c, s, task);
    hide Unleased;
    if s.pool.available != [] {
      AvailableIssued(s, s.pool.available[0]);
      FirstApart(c, s);
      TailUnleased(s.pool.available, s.history, LockForLease(c, s, task).history);
    }
  }

  lemma TailUnleased(available: seq<Host>, history: History, history': History)
    requires available != [] && Unleased(available, history)
    requires history'.everLeased == history.everLeased + {available[0].container} && history'.scaled == history.scaled
    requires forall h :: h in available[1..] ==> h.container != available[0].container
    ensures Unleased(available[1..], history')
  {
    forall h | h in available[1..]
      ensures h.tested || (h.container !in history'.everLeased && h.container in history'.scaled) {
      assert h in available;
    }
  }

  lemma UnleasedBySpawn(s: State, ok: bool)
    requires HealthLaw(s) && ContainerLaw(s) && Enabled(s, LeaseCreated(ok))
    ensures var t := FinishSpawn(s, ok);
            && Unleased(t.pool.available, t.history)
            && (forall x :: x in t.history.everLeased ==> x < t.cleanup.next)
  {
    forall h | h in s.pool.available ensures h.container < s.cleanup.next { AvailableIssued(s, h); }
    hide ContainerLaw, Gone;
  }

  lemma {:induction false} SiftKeeps(hosts: seq<Host>, readings: seq<nat>, ttl: nat)
    requires |hosts| == |readings|
    ensures forall h :: h in Sift(hosts, readings, ttl).1 ==> h in hosts
  {
    if hosts != [] { SiftKeeps(hosts[..|hosts| - 1], readings[..|hosts| - 1], ttl); }
  }

  lemma UnleasedByWorker(c: Config, s: State, l: Label)
    requires HealthLaw(s) && Enabled(s, l) && (s.pool.lock.Checking? ==> s.pool.lock.host.tested)
    requires l.ScaleCreated? || l.ReturnChecked? || l.Reap? || l.Collect?
    ensures var t := Next(c, s, l); Unleased(t.pool.available, t.history)
  {
    if l.Reap? { SiftKeeps(s.pool.available, l.readings, c.ttl); }
    hide Gone, Sift;
  }

  lemma AvailableStays(c: Config, s: State, l: Label)
    requires Enabled(s, l)
    requires !l.LeaseLock? && !l.LeaseCreated? && !l.ScaleCreated? && !l.ReturnChecked? && !l.Reap? && !l.Collect?
    ensures Next(c, s, l).pool.available == s.pool.available
  {
    hide Sift, Values, Do;
  }

  lemma HistoryStays(c: Config, s: State, l: Label)
    requires Enabled(s, l)
    ensures !l.LeaseLock? && !l.LeaseCreated? ==> Next(c, s, l).history.everLeased == s.history.everLeased
    ensures Next(c, s, l).history.failed ==
            if l.ProbeFailed? && l.id in s.pool.leased then s.history.failed + {s.pool.leased[l.id].container}
            else s.history.failed
    ensures !l.LeaseLock? && !l.LeaseCreated? ==> Next(c, s, l).history.issued == s.history.issued
    ensures !l.ScaleCreated? ==> Next(c, s, l).history.scaled == s.history.scaled
  {
    if MovesHistory(l) {
      hide Grant;
    } else {
      HistoryFootprint(c, s, l);
      hide Next;
    }
  }

  lemma FailedIsGone(s: State, id: LeaseId)
    requires id in s.leases.probing && id in s.pool.leased
    ensures s.pool.leased[id].container in Gone(FailProbe(s, id))
  {
    ImageMember(ContainerOf, FailProbe(s, id).cleanup.doomed, s.pool.leased[id]);
  }

  lemma NextOfLease(c: Config, s: State, l: Label)
    requires Enabled(s, l)
    ensures l.LeaseLock? ==> Next(c, s, l) == LockForLease(c, s, l.task)
    ensures l.LeaseCreated? ==> Next(c, s, l) == FinishSpawn(s, l.ok)
    ensures l.ProbeFailed? ==> Next(c, s, l) == FailProbe(s, l.id)
  {
  }

  lemma UnleasedStep(c: Config, s: State, l: Label)
    requires HealthLaw(s) && ContainerLaw(s) && PortLaw(c, s) && Enabled(s, l)
    requires s.pool.lock.Checking? ==> s.pool.lock.host.tested
    ensures var t := Next(c, s, l); Unleased(t.pool.available, t.history)
    ensures var t := Next(c, s, l); forall x :: x in t.history.everLeased ==> x < t.cleanup.next
  {
    hide Next;
    NextContainer(c, s, l);
    HistoryStays(c, s, l);
    if l.LeaseLock? {
      UnleasedByLease(c, s, l.task);
      assert Next(c, s, l) == LockForLease(c, s, l.task) by { NextOfLease(c, s, l); }
    } else if l.LeaseCreated? {
      UnleasedBySpawn(s, l.ok);
      assert Next(c, s, l) == FinishSpawn(s, l.ok) by { NextOfLease(c, s, l); }
    } else if l.ScaleCreated? || l.ReturnChecked? || l.Reap? || l.Collect? {
      UnleasedByWorker(c, s, l);
    } else {
      AvailableStays(c, s, l);
    }
  }

  lemma FailedStep(c: Config, s: State, l: Label)
    requires HealthLaw(s) && Enabled(s, l)
    ensures forall x :: x in Next(c, s, l).history.failed ==> x in Gone(Next(c, s, l))
  {
    hide Next, Gone;
    HistoryStays(c, s, l);
    GoneGrows(c, s, l);
    if l.ProbeFailed? && l.id in s.pool.leased {
      FailedIsGone(s, l.id);
      NextOfLease(c, s, l);
    }
    forall x | x in Next(c, s, l).history.failed ensures x in Gone(Next(c, s, l)) {
      if x in s.history.failed { assert x in Gone(s); }
    }
  }

  lemma HealthStep(c: Config, s: State, l: Label)
    requires HealthLaw(s) && ContainerLaw(s) && PortLaw(c, s) && Enabled(s, l)
    requires s.pool.lock.Checking? ==> s.pool.lock.host.tested
    ensures HealthLaw(Next(c, s, l))
  {
    hide Next, Gone, ContainerLaw, PortLaw;
    UnleasedStep(c, s, l);
    FailedStep(c, s, l);
  }

  // ---- A host keeps its identity, and its mark, for ever ----

  lemma SameContainerSameHost(s: State, a: Host, b: Host)
    requires ContainerLaw(s) && a in Hosts(s) && b in Hosts(s) && a.container == b.container
    ensures a == b
  {
    if a != b {
      ContainersUnique(s);
      assert multiset{a, b} <= Hosts(s);
      ImageApart(ContainerOf, Hosts(s), a, b);
    }
  }

  /** Across a step, the hosts with a given container are the same host, possibly newly marked. */
  lemma IdentityStep(c: Config, s: State, l: Label, h: Host, h': Host)
    requires ContainerLaw(s) && IdsIssued(s) && Enabled(s, l)
    requires h in Hosts(s) && h' in Hosts(Next(c, s, l)) && h'.container == h.container
    ensures h' == h || h' == h.(tested := true)
  {
    hide Next, Hosts, ContainerLaw;
    ContainerIssued(s, h);
    if SpawnsHost(l) {
      HostsSpawned(c, s, l);
    } else if MarksHost(s, l) {
      HostsMarked(c, s, l);
      if s.pool.leased[l.id].container == h.container { SameContainerSameHost(s, h, s.pool.leased[l.id]); }
    } else if l.DropHost? {
      HostsDropped(c, s, l);
    } else {
      HostsStay(c, s, l);
    }
    if h' in Hosts(s) { SameContainerSameHost(s, h, h'); }
  }
}
