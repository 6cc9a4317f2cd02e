/** The exact configurations in which the bounded channels can lose something. The configuration check
    bounds neither `max_instances` nor the port range, so these are conditions an operator must check. */
module Extremes {
  import opened Bags
  import opened PortSpec
  import opened Protocol
  import opened Conservation
  import opened Leasing
  import opened Capacity
  import opened Invariant
  import opened Runs

  /** No request is dropped while its host is being probed. */
  predicate Uncancelled(schedule: seq<Label>) {
    forall i :: 0 <= i < |schedule| ==> !schedule[i].CancelProbing?
  }

  // ---- Leaking a port ----

  /** Nothing pooled, nobody waiting. */
  ghost predicate Quiet(s: State) {
    && s.pool == Pool([], map[], Free) && s.leases.waiting == {} && !s.shutdown
    && s.cleanup.freed == multiset{}
  }

  /** A request whose container cannot be created. */
  function FailedSpawn(p: Port): seq<Label> {
    [CheckFlag(0), LeaseLock(0), SpawnPort, LeaseCreated(false), DropPort(p)]
  }

  lemma Run5(c: Config, s: State, a: Label, b: Label, d: Label, e: Label, f: Label)
    ensures Run(c, s, [a, b, d, e, f]) == Try(c, Try(c, Try(c, Try(c, Try(c, s, a), b), d), e), f)
  {
    hide Try;
    var s1 := Try(c, s, a);
    var s2 := Try(c, s1, b);
    var s3 := Try(c, s2, d);
    assert [a, b, d, e, f][1..] == [b, d, e, f];
    assert Run(c, s1, [b, d, e, f]) == Run(c, s2, [d, e, f]) by { assert [b, d, e, f][1..] == [d, e, f]; }
    assert Run(c, s2, [d, e, f]) == Run(c, s3, [e, f]) by { assert [d, e, f][1..] == [e, f]; }
    assert Run(c, s3, [e, f]) == Run(c, Try(c, s3, e), [f]) by { assert [e, f][1..] == [f]; }
    assert Run(c, Try(c, s3, e), [f]) == Try(c, Try(c, s3, e), f) by { assert [f][1..] == []; }
  }

  lemma SpawnBegins(c: Config, s: State)
    requires s.pool.lock.Free? && s.pool.available == [] && |s.pool.leased| < c.maxInstances
    requires s.leases.waiting == {} && !s.shutdown && s.ports.queue != []
    ensures Try(c, Try(c, Try(c, s, CheckFlag(0)), LeaseLock(0)), SpawnPort)
            == s.(pool := s.pool.(lock := Spawning(0, HavePort(s.ports.queue[0]))), ports := Do(s.ports, Allocate))
  {
    hide Do;
    var s1 := Try(c, s, CheckFlag(0));
    assert s1 == s.(leases := s.leases.(waiting := {0}));
    var s2 := Try(c, s1, LeaseLock(0));
    assert s2 == s.(pool := s.pool.(lock := Spawning(0, NeedPort))) by {
      assert {0} - {0} == {};
      assert s1.leases.(waiting := {}) == s.leases;
    }
  }

  lemma SpawnFails(c: Config, s: State, p: Port)
    requires s.pool.lock.Spawning? && s.pool.lock.stage == HavePort(p) && s.cleanup.freed == multiset{} && p in s.ports.live
    ensures Try(c, Try(c, s, LeaseCreated(false)), DropPort(p))
            == s.(pool := s.pool.(lock := Free), ports := Do(s.ports, Release(p)))
  {
    hide Do;
    var s4 := Try(c, s, LeaseCreated(false));
    assert s4 == s.(pool := s.pool.(lock := Free), cleanup := s.cleanup.(freed := multiset{p}));
    var s5 := Try(c, s4, DropPort(p));
    assert multiset{p} - multiset{p} == multiset{};
    assert s5.cleanup == s.cleanup;
  }

  lemma FailedSpawnEffect(c: Config, s: State)
    requires c.Valid() && Quiet(s) && s.ports.queue != []
    ensures var p := s.ports.queue[0];
            var taken := Do(s.ports, Allocate);
            && p in taken.live
            && Run(c, s, FailedSpawn(p)) == s.(ports := Do(taken, Release(p)))
  {
    var p := s.ports.queue[0];
    hide Try;
    Run5(c, s, CheckFlag(0), LeaseLock(0), SpawnPort, LeaseCreated(false), DropPort(p));
    hide Run;
    SpawnBegins(c, s);
    SpawnFails(c, Try(c, Try(c, Try(c, s, CheckFlag(0)), LeaseLock(0)), SpawnPort), p);
  }

  /** n failed spawns with the port processor never scheduled: n ports sit in the return channel. */
  ghost predicate Clogged(c: Config, s: State, n: nat) {
    && Quiet(s) && n <= c.hi - c.lo && c.lo <= c.hi
    && s.ports.queue == Span(c.lo + n, c.hi) && |s.ports.channel| == n && s.ports.open
  }

  lemma NotYetClogged(c: Config)
    requires c.Valid()
    ensures Clogged(c, Run(c, Init(c), []), 0)
  {
  }

  lemma ClogOne(c: Config, s: State, n: nat)
    requires Clogged(c, s, n) && n < c.hi - c.lo && n < CHANNEL_CAPACITY && s.ports.queue[0] in Do(s.ports, Allocate).live
    ensures Clogged(c, s.(ports := Do(Do(s.ports, Allocate), Release(s.ports.queue[0]))), n + 1)
  {
    assert Span(c.lo + n, c.hi)[1..] == Span(c.lo + n + 1, c.hi);
  }

  lemma {:induction false} Clog(c: Config, n: nat) returns (schedule: seq<Label>)
    requires c.Valid() && n <= c.hi - c.lo && n <= CHANNEL_CAPACITY
    ensures Clogged(c, Run(c, Init(c), schedule), n)
    decreases n
  {
    hide Run, Init, Do;
    if n == 0 {
      schedule := [];
      NotYetClogged(c);
    } else {
      var before := Clog(c, n - 1);
      var s := Run(c, Init(c), before);
      var p := s.ports.queue[0];
      FailedSpawnEffect(c, s);
      schedule := before + FailedSpawn(p);
      RunConcat(c, Init(c), before, FailedSpawn(p));
      ClogOne(c, s, n - 1);
    }
  }

  lemma Overflow(c: Config) returns (schedule: seq<Label>)
    requires c.Valid() && c.hi - c.lo > CHANNEL_CAPACITY
    ensures Run(c, Init(c), schedule).ports.leaked != multiset{}
  {
    var before := Clog(c, CHANNEL_CAPACITY);
    var s := Run(c, Init(c), before);
    var p := s.ports.queue[0];
    FailedSpawnEffect(c, s);
    schedule := before + FailedSpawn(p);
    RunConcat(c, Init(c), before, FailedSpawn(p));
    hide Run, Init;
    assert p in Run(c, Init(c), schedule).ports.leaked;
  }

  /** Some run leaks a port if and only if the range has more than a thousand ports. */
  lemma PortLeakIff(c: Config)
    requires c.Valid()
    ensures (exists schedule :: Run(c, Init(c), schedule).ports.leaked != multiset{})
            <==> c.hi - c.lo > 1000
  {
    hide Run, Init;
    if c.hi - c.lo > CHANNEL_CAPACITY {
      var schedule := Overflow(c);
    } else {
      forall schedule ensures Run(c, Init(c), schedule).ports.leaked == multiset{} { NoPortLeaked(c, schedule); }
    }
  }

  // ---- Losing a lease ----

  predicate Between(i: LeaseId, from: nat, to: nat) {
    from <= i < to
  }

  ghost function Ids(from: nat, to: nat): set<LeaseId> {
    set i: LeaseId | i < to && Between(i, from, to)
  }

  /** n callers each hold a lease, and nothing has been returned. */
  ghost predicate Opened(c: Config, s: State, n: nat) {
    && s.workers && !s.shutdown
    && s.pool.lock.Free? && s.pool.available == [] && s.pool.leased.Keys == Ids(0, n)
    && s.leases.waiting == {} && s.leases.live.Keys == Ids(0, n) && s.leases.next == n
    && s.leases.channel == [] && s.leases.lost == {}
    && n <= c.hi - c.lo && s.ports.queue == Span(c.lo + n, c.hi)
  }

  function OpenLease(id: LeaseId): seq<Label> {
    [CheckFlag(0), LeaseLock(0), SpawnPort, LeaseCreated(true), ProbePassed(id)]
  }

  lemma {:induction false} IdsSize(n: nat)
    ensures |Ids(0, n)| == n
  {
    if n > 0 {
      IdsSize(n - 1);
      assert Ids(0, n) == Ids(0, n - 1) + {n - 1};
    }
  }

  lemma OpenSpawns(c: Config, s: State, n: nat)
    requires c.Valid() && Opened(c, s, n) && n < c.maxInstances && n < c.hi - c.lo
    ensures var t := Try(c, Try(c, Try(c, s, CheckFlag(0)), LeaseLock(0)), SpawnPort);
            && t.pool == s.pool.(lock := Spawning(0, HavePort(c.lo + n)))
            && t.leases == s.leases && t.workers && !t.shutdown
            && t.ports.queue == Span(c.lo + n + 1, c.hi)
  {
    IdsSize(n);
    assert |s.pool.leased| == |s.pool.leased.Keys|;
    hide Try, Ids;
    SpawnBegins(c, s);
    assert Span(c.lo + n, c.hi)[1..] == Span(c.lo + n + 1, c.hi);
  }

  lemma OpenAdmits(c: Config, s: State, n: nat)
    requires s.pool.lock.Spawning? && s.pool.lock.stage.HavePort? && s.pool.available == [] && n == s.leases.next
    requires s.pool.leased.Keys == s.leases.live.Keys == Ids(0, n)
    ensures var t := Try(c, Try(c, s, LeaseCreated(true)), ProbePassed(n));
            && t.pool.leased.Keys == t.leases.live.Keys == Ids(0, n + 1)
            && t.pool.lock.Free? && t.pool.available == [] && t.leases.next == n + 1
            && t.leases.channel == s.leases.channel && t.leases.lost == s.leases.lost
            && t.leases.waiting == s.leases.waiting && t.ports == s.ports
            && t.workers == s.workers && t.shutdown == s.shutdown
  {
    assert Ids(0, n + 1) == Ids(0, n) + {n};
  }

  lemma OpenOne(c: Config, s: State, n: nat)
    requires c.Valid() && Opened(c, s, n) && n < c.maxInstances && n < c.hi - c.lo
    ensures Opened(c, Run(c, s, OpenLease(n)), n + 1)
  {
    hide Try, Run;
    Run5(c, s, CheckFlag(0), LeaseLock(0), SpawnPort, LeaseCreated(true), ProbePassed(n));
    OpenSpawns(c, s, n);
    OpenAdmits(c, Try(c, Try(c, Try(c, s, CheckFlag(0)), LeaseLock(0)), SpawnPort), n);
  }

  lemma NotYetOpened(c: Config)
    requires c.Valid()
    ensures Opened(c, Run(c, Init(c), []), 0)
  {
  }

  lemma {:induction false} Open(c: Config, n: nat) returns (schedule: seq<Label>)
    requires c.Valid() && n <= c.maxInstances && n <= c.hi - c.lo
    ensures Opened(c, Run(c, Init(c), schedule), n) && Uncancelled(schedule)
    decreases n
  {
    hide Run, Init, Opened;
    if n == 0 {
      schedule := [];
      NotYetOpened(c);
    } else {
      var before := Open(c, n - 1);
      schedule := before + OpenLease(n - 1);
      OpenOne(c, Run(c, Init(c), before), n - 1);
      RunConcat(c, Init(c), before, OpenLease(n - 1));
    }
  }

  /** Of n leases the first k have been dropped, with the return processor never scheduled. */
  ghost predicate Closing(s: State, k: nat, n: nat) {
    && s.workers && s.leases.live.Keys == Ids(k, n)
    && |s.leases.channel| == (if k < CHANNEL_CAPACITY then k else CHANNEL_CAPACITY)
    && (k > CHANNEL_CAPACITY ==> s.leases.lost != {})
  }

  lemma CloseOne(c: Config, s: State, k: nat, n: nat)
    requires Closing(s, k, n) && k < n
    ensures Closing(Try(c, s, DropLease(k)), k + 1, n)
  {
    assert k in Ids(k, n);
    assert Ids(k + 1, n) == Ids(k, n) - {k};
    var t := Try(c, s, DropLease(k));
    assert t.leases.live.Keys == s.leases.live.Keys - {k};
  }

  lemma {:induction false} Close(c: Config, s: State, k: nat, n: nat) returns (schedule: seq<Label>)
    requires Closing(s, k, n) && k <= n
    ensures Closing(Run(c, s, schedule), n, n) && Uncancelled(schedule)
    decreases n - k
  {
    if k == n {
      schedule := [];
    } else {
      hide Try, Closing;
      CloseOne(c, s, k, n);
      var rest := Close(c, Try(c, s, DropLease(k)), k + 1, n);
      schedule := [DropLease(k)] + rest;
      assert schedule[1..] == rest;
    }
  }

  lemma LoseLease(c: Config) returns (schedule: seq<Label>)
    requires c.Valid() && c.maxInstances > CHANNEL_CAPACITY && c.hi - c.lo > CHANNEL_CAPACITY
    ensures Uncancelled(schedule)
    ensures var s := Run(c, Init(c), schedule); s.workers && s.leases.lost != {}
  {
    var n := CHANNEL_CAPACITY + 1;
    var opening := Open(c, n);
    var closing := Close(c, Run(c, Init(c), opening), 0, n);
    schedule := opening + closing;
    RunConcat(c, Init(c), opening, closing);
    hide Run, Init;
    assert Closing(Run(c, Init(c), schedule), n, n);
  }

  /** Some run loses a lease to a full channel, workers running, if and only if both `max_instances` and
      the number of ports exceed a thousand. */
  lemma LeaseLossIff(c: Config)
    requires c.Valid()
    ensures (exists schedule :: Run(c, Init(c), schedule).workers && Run(c, Init(c), schedule).leases.lost != {})
            <==> c.maxInstances > 1000 && c.hi - c.lo > 1000
  {
    if c.maxInstances > CHANNEL_CAPACITY && c.hi - c.lo > CHANNEL_CAPACITY {
      var schedule := LoseLease(c);
    } else {
      assert Init(c).leases.lost == {};
      hide Run, Init;
      forall schedule ensures var t := Run(c, Init(c), schedule); t.workers ==> t.leases.lost == {} {
        InvInit(c);
        NoLeaseLost(c, Init(c), schedule);
      }
    }
  }

  // ---- Stranding an entry ----

  /** An entry that nobody will give back, though the workers are running. */
  ghost predicate Stranded(s: State) {
    s.workers && s.leases.abandoned + s.leases.lost != {}
  }

  /** In every configuration one request dropped while its host is being probed is enough. */
  lemma CancelledProbeStrands(c: Config) returns (schedule: seq<Label>)
    requires c.Valid()
    ensures var s := Run(c, Init(c), schedule); s.workers && !s.collected && 0 in s.leases.abandoned
  {
    schedule := [CheckFlag(0), LeaseLock(0), SpawnPort, LeaseCreated(true), CancelProbing(0)];
    var s := Init(c);
    assert s.ports.queue == Span(c.lo, c.hi);
    hide Try, Run;
    Run5(c, s, CheckFlag(0), LeaseLock(0), SpawnPort, LeaseCreated(true), CancelProbing(0));
    SpawnBegins(c, s);
    ProbeAbandoned(c, s.(pool := s.pool.(lock := Spawning(0, HavePort(s.ports.queue[0]))), ports := Do(s.ports, Allocate)));
  }

  lemma ProbeAbandoned(c: Config, s: State)
    requires s.pool.lock.Spawning? && s.pool.lock.stage.HavePort?
    ensures var t := Try(c, Try(c, s, LeaseCreated(true)), CancelProbing(s.leases.next));
            t.workers == s.workers && t.collected == s.collected && s.leases.next in t.leases.abandoned
  {
  }

  lemma {:induction false} UncancelledTakesNone(c: Config, s: State, schedule: seq<Label>)
    requires Uncancelled(schedule)
    ensures !TakesCancel(c, s, schedule)
    decreases |schedule|
  {
    if schedule != [] { UncancelledTakesNone(c, Try(c, s, schedule[0]), schedule[1..]); }
  }

  /** A run in which no request is dropped while probing never strands an entry, if `max_instances` or the
      range is at most a thousand. */
  lemma UncancelledStrandsNothing(c: Config, schedule: seq<Label>)
    requires c.Valid() && Uncancelled(schedule)
    requires c.maxInstances <= 1000 || c.hi - c.lo <= 1000
    ensures !Stranded(Run(c, Init(c), schedule))
  {
    InvInit(c);
    NoLeaseLost(c, Init(c), schedule);
    UncancelledTakesNone(c, Init(c), schedule);
    AbandonedIff(c, Init(c), schedule);
    hide Run, Inv, TakesCancel;
  }

  /** Some run strands an entry, in any configuration. Without requests dropped while probing, some run does
      if and only if both `max_instances` and the number of ports exceed a thousand. */
  lemma StrandingIff(c: Config)
    requires c.Valid()
    ensures exists schedule :: Stranded(Run(c, Init(c), schedule))
    ensures (exists schedule :: Uncancelled(schedule) && Stranded(Run(c, Init(c), schedule)))
            <==> c.maxInstances > 1000 && c.hi - c.lo > 1000
  {
    hide Run, Init;
    var cancelled := CancelledProbeStrands(c);
    assert Stranded(Run(c, Init(c), cancelled));
    if c.maxInstances > CHANNEL_CAPACITY && c.hi - c.lo > CHANNEL_CAPACITY {
      var schedule := LoseLease(c);
      assert Stranded(Run(c, Init(c), schedule));
    } else {
      forall schedule | Uncancelled(schedule) ensures !Stranded(Run(c, Init(c), schedule)) {
        UncancelledStrandsNothing(c, schedule);
      }
    }
  }
}
