/** The inductive invariant of the pool, and what it says of every state of every run. */
module Invariant {
  import opened Bags
  import opened PortSpec
  import opened Protocol
  import opened Conservation
  import opened Leasing
  import opened Capacity
  import opened Health
  import QueueSets

  ghost predicate Inv(c: Config, s: State) {
    && c.Valid()
    && PortLaw(c, s)
    && ContainerLaw(s)
    && LeaseLaw(s)
    && CapacityLaw(c, s.pool)
    && ControlLaw(s)
    && HealthLaw(s)
  }

  lemma LeaseLawIssues(s: State)
    requires LeaseLaw(s)
    ensures IdsIssued(s)
  {
    forall id | id in s.pool.leased || id in s.leases.orphaned ensures id < s.leases.next {
      assert InOrder(s, id);
    }
  }

  lemma InvLeases(c: Config, s: State)
    requires Inv(c, s)
    ensures LeaseLaw(s) && ControlLaw(s)
  {
  }

  lemma InvInit(c: Config)
    requires c.Valid()
    ensures Inv(c, Init(c))
  {
    FreshSound(c.lo, c.hi);
    var s := Init(c);
    assert Hosts(s) == multiset{} && Loose(s) == multiset{};
    assert ContainerLaw(s) by { assert Span(0, 0) == []; }
    forall id: LeaseId ensures InOrder(s, id) { }
  }

  lemma InvStep(c: Config, s: State, l: Label)
    requires Inv(c, s) && Enabled(s, l)
    ensures Inv(c, Next(c, s, l))
  {
    hide Next, PortLaw, ContainerLaw, HealthLaw, CapacityLaw, ControlLaw, InOrder;
    LeaseLawIssues(s);
    PortLawStep(c, s, l);
    ContainerLawStep(c, s, l);
    LeaseLawStep(c, s, l);
    CapacityStep(c, s, l);
    ControlStep(c, s, l);
    HealthStep(c, s, l);
  }

  lemma {:induction false} InvRun(c: Config, s: State, schedule: seq<Label>)
    requires Inv(c, s)
    ensures Inv(c, Run(c, s, schedule))
    decreases |schedule|
  {
    hide Inv, Next;
    if schedule != [] {
      if Enabled(s, schedule[0]) { InvStep(c, s, schedule[0]); }
      InvRun(c, Try(c, s, schedule[0]), schedule[1..]);
    }
  }

  /** Every state any schedule can reach. */
  lemma Reachable(c: Config, schedule: seq<Label>)
    requires c.Valid()
    ensures Inv(c, Run(c, Init(c), schedule))
  {
    InvInit(c);
    InvRun(c, Init(c), schedule);
  }

  // ---- Exactly one place ----

  /** Each configured port is in exactly one of the free queue, the processor's hand, the return
      channel, an existing host, a spawn in progress, a pending destructor, or the leaked bag; a number
      outside the range is nowhere. */
  lemma PortInOnePlace(c: Config, s: State, p: Port)
    requires Inv(c, s)
    ensures multiset(s.ports.queue)[p] + Held(s.ports.hand)[p] + multiset(s.ports.channel)[p]
            + Image(PortOf, Hosts(s))[p] + StagePort(s.pool.lock)[p] + s.cleanup.freed[p] + s.ports.leaked[p]
            == if c.lo <= p < c.hi then 1 else 0
  {
    hide Hosts, Image, StagePort;
    SpanCount(c.lo, c.hi, p);
    var q := s.ports;
    assert multiset(Pending(q)) == multiset(q.queue) + Held(q.hand) + multiset(q.channel);
    assert multiset(Pending(q))[p] == multiset(q.queue)[p] + Held(q.hand)[p] + multiset(q.channel)[p];
    assert q.live[p] == Image(PortOf, Hosts(s))[p] + StagePort(s.pool.lock)[p] + s.cleanup.freed[p];
  }

  /** Each container wrapped so far is in exactly one of an existing host, the cleanup channel, the
      cleanup worker's hand, the stopped bag, or the bag of those that no worker will stop. */
  lemma ContainerInOnePlace(c: Config, s: State, x: ContainerId)
    requires Inv(c, s)
    ensures Image(ContainerOf, Hosts(s))[x] + multiset(s.cleanup.channel)[x] + Held(s.cleanup.stopping)[x]
            + s.cleanup.stopped[x] + s.cleanup.uncleaned[x]
            == if x < s.cleanup.next then 1 else 0
  {
    hide Hosts, Image, Held;
    SpanCount(0, s.cleanup.next, x);
    assert Dropped(s)[x] == multiset(s.cleanup.channel)[x] + Held(s.cleanup.stopping)[x]
                            + s.cleanup.stopped[x] + s.cleanup.uncleaned[x];
  }

  // ---- Exclusive leases ----

  /** Before the hosts are collected, every live lease is backed by its own entry, whose host carries
      the lease's container and port and has passed its health check; two live leases share neither
      container nor port; and no available host carries a leased container or port. */
  lemma ExclusiveLeases(c: Config, s: State, x: LeaseId)
    requires Inv(c, s) && !s.collected && x in s.leases.live
    ensures x in s.pool.leased && s.pool.leased[x].tested && Names(s.leases.live[x], s.pool.leased[x])
    ensures forall y :: y in s.leases.live && y != x ==>
              s.leases.live[x].container != s.leases.live[y].container && s.leases.live[x].port != s.leases.live[y].port
    ensures forall h :: h in s.pool.available ==>
              h.container != s.leases.live[x].container && h.port != s.leases.live[x].port
  {
    LiveEntry(c, s, x);
    forall y | y in s.leases.live && y != x
      ensures s.leases.live[x].container != s.leases.live[y].container && s.leases.live[x].port != s.leases.live[y].port {
      LiveEntry(c, s, y);
      LeasedPair(s, x, y);
      HostsApart(c, s, s.pool.leased[x], s.pool.leased[y]);
    }
    forall h | h in s.pool.available
      ensures h.container != s.leases.live[x].container && h.port != s.leases.live[x].port {
      var i :| 0 <= i < |s.pool.available| && s.pool.available[i] == h;
      MixedPair(s, x, i);
      HostsApart(c, s, s.pool.leased[x], h);
    }
  }

  lemma LiveEntry(c: Config, s: State, x: LeaseId)
    requires Inv(c, s) && !s.collected && x in s.leases.live
    ensures x in s.pool.leased && s.pool.leased[x].tested && Names(s.leases.live[x], s.pool.leased[x])
  {
    hide PortLaw, ContainerLaw, HealthLaw, CapacityLaw;
    assert InOrder(s, x);
  }

  // ---- Health marks ----

  /** In every reachable state an untested available host was made by the scaling task and never leased;
      and no available, leased or returning host ever failed a probe. */
  lemma UntestedNeverLeased(c: Config, schedule: seq<Label>, h: Host)
    requires c.Valid() && h in Pooled(Run(c, Init(c), schedule).pool)
    ensures var s := Run(c, Init(c), schedule);
            && (h in s.pool.available && !h.tested ==>
                  h.container in s.history.scaled && h.container !in s.history.everLeased)
            && h.container !in s.history.failed
  {
    hide Run, Init, Pooled, Gone, ContainerLaw;
    var s := Run(c, Init(c), schedule);
    Reachable(c, schedule);
    GoneNotPooled(s, h);
  }

  // ---- Branches the code says should never be taken ----

  /** A caller relocking after its probe misses its entry exactly when the entry was collected. */
  lemma RelockMissesIffCollected(c: Config, s: State, id: LeaseId)
    requires Inv(c, s) && id in s.leases.probing
    ensures id !in s.pool.leased <==> id in s.leases.orphaned
    ensures id !in s.pool.leased ==> s.collected
  {
    hide PortLaw, ContainerLaw, HealthLaw, CapacityLaw;
    assert InOrder(s, id);
  }

  /** The return processor always finds the entry of the id it received. */
  lemma ReturnFindsEntry(c: Config, s: State)
    requires Inv(c, s) && Enabled(s, ReturnLock)
    ensures s.leases.returning.value in s.pool.leased
  {
    hide PortLaw, ContainerLaw, HealthLaw, CapacityLaw;
    assert InOrder(s, s.leases.returning.value);
  }

  /** The port processor never meets a port that is already queued. */
  lemma RequeueNeverDuplicate(c: Config, s: State)
    requires Inv(c, s) && s.ports.hand.Some?
    ensures s.ports.hand.value !in s.ports.queue
  {
    HandNotQueued(s.ports, c.lo, c.hi);
  }

  // ---- Counting ----

  lemma ChannelDistinct(s: State)
    requires LeaseLaw(s)
    ensures Unique(multiset(s.leases.channel))
  {
    forall id | id in multiset(s.leases.channel) ensures multiset(s.leases.channel)[id] == 1 {
      assert InOrder(s, id);
    }
  }

  /** The ids in the lease channel are distinct keys of the map, none of them of a live lease. */
  lemma ChannelIsKeys(c: Config, s: State)
    requires Inv(c, s) && !s.collected
    ensures Unique(multiset(s.leases.channel))
    ensures forall id :: id in s.leases.channel ==> id in s.pool.leased && id !in s.leases.live
  {
    hide PortLaw, ContainerLaw, HealthLaw, CapacityLaw;
    ChannelDistinct(s);
    forall id | id in s.leases.channel ensures id in s.pool.leased && id !in s.leases.live {
      assert InOrder(s, id);
      assert id in multiset(s.leases.channel);
    }
  }

  lemma ChannelBelowLeased(c: Config, s: State, x: LeaseId)
    requires Inv(c, s) && !s.collected && x in s.leases.live
    ensures |s.leases.channel| + 1 <= |s.pool.leased|
  {
    hide PortLaw, ContainerLaw, HealthLaw, CapacityLaw;
    ChannelIsKeys(c, s);
    QueueSets.DistinctSize(s.leases.channel);
    var ids := QueueSets.Elements(s.leases.channel);
    LiveHasEntry(s, x);
    SubsetSize(ids + {x}, s.pool.leased.Keys);
  }

  lemma LiveHasEntry(s: State, x: LeaseId)
    requires LeaseLaw(s) && ControlLaw(s) && !s.collected && x in s.leases.live
    ensures x in s.pool.leased
  {
    assert InOrder(s, x);
  }

  /** There are never more hosts than live ports. */
  lemma HostsWithinRange(c: Config, s: State)
    requires Inv(c, s)
    ensures |s.pool.leased| + |s.pool.available| <= |Hosts(s)| <= |s.ports.live| <= c.hi - c.lo
  {
    ValuesSize(s.pool.leased);
    ImageSize(PortOf, Hosts(s));
    SoundSizes(s.ports, c.lo, c.hi);
    hide Image, Sound;
    assert |Hosts(s)| == |s.pool.available| + |Values(s.pool.leased)| + |InHand(s.pool.lock)| + |s.cleanup.doomed|;
  }

  /** A pool within both bounds is all the lease channel ever has to hold, so with at most a thousand
      instances, or a thousand ports, a lease destructor never finds the channel full. */
  lemma LeaseDropNeverFull(c: Config, s: State, x: LeaseId)
    requires Inv(c, s) && s.workers && x in s.leases.live
    requires c.maxInstances <= 1000 || c.hi - c.lo <= 1000
    ensures |s.leases.channel| < CHANNEL_CAPACITY
  {
    ChannelBelowLeased(c, s, x);
    HostsWithinRange(c, s);
    hide PortLaw, ContainerLaw, HealthLaw, LeaseLaw, Hosts;
  }

  /** The bound the operator configured, over all reachable states, whoever holds the lock. */
  lemma WithinCapacity(c: Config, s: State)
    requires Inv(c, s)
    ensures Size(s.pool) <= c.maxInstances
    ensures s.pool.lock.Spawning? ==> Size(s.pool) < c.maxInstances
    ensures s.pool.lock.Scaling? ==> Size(s.pool) + s.pool.lock.left <= c.minInstances
  {
  }

  /** In every run, mid-spawn, mid-return and mid-scaling states included, the pool and the host in the lock
      holder's hand are at most `max_instances`, and a spawn in progress still fits. */
  lemma NeverOverCapacity(c: Config, schedule: seq<Label>)
    requires c.Valid()
    ensures var p := Run(c, Init(c), schedule).pool;
            Size(p) + (if p.lock.Spawning? then 1 else 0) <= c.maxInstances
    ensures var p := Run(c, Init(c), schedule).pool; p.lock.Scaling? ==> Size(p) + p.lock.left <= c.minInstances
  {
    hide Run, Init;
    Reachable(c, schedule);
    WithinCapacity(c, Run(c, Init(c), schedule));
    hide Inv;
  }

  /** A spawn by the lock holder finds a free port if the range is as large as the pool may get and no
      port is leaked or on its way back. */
  lemma SpawnFindsPort(c: Config, s: State)
    requires Inv(c, s) && Enabled(s, SpawnPort) && c.maxInstances <= c.hi - c.lo
    requires s.ports.leaked == multiset{} && s.ports.hand.None? && s.ports.channel == []
    requires s.cleanup.doomed == multiset{} && s.cleanup.freed == multiset{}
    ensures s.ports.queue != []
  {
    WithinCapacity(c, s);
    ValuesSize(s.pool.leased);
    ImageSize(PortOf, Hosts(s));
    assert |Hosts(s)| == |s.pool.available| + |Values(s.pool.leased)|;
    assert Loose(s) == multiset{};
    assert |s.ports.live| == |Hosts(s)|;
    Sufficient(s.ports, c.lo, c.hi);
  }
}
