/** What the background operations and the shutdown are, told from the runs they perform, as `LeaseRuns` does for a
    call: a run is a log of segments, and each segment says in which states its own stretches were taken. */
module WorkerRuns {
  import opened Bags
  import opened PortSpec
  import opened Protocol

  // ---- Logs ----

  function Concat(log: seq<seq<Label>>): seq<Label>
    decreases |log|
  {
    if log == [] then [] else Concat(log[..|log| - 1]) + log[|log| - 1]
  }

  /** The state after the first n segments. */
  ghost function After(c: Config, s: State, log: seq<seq<Label>>, n: nat): State
    requires n <= |log|
  {
    Run(c, s, Concat(log[..n]))
  }

  lemma OneMoreSegment(c: Config, s: State, log: seq<seq<Label>>, more: seq<Label>)
    ensures Concat(log + [more]) == Concat(log) + more
    ensures forall n: nat :: n <= |log| ==> After(c, s, log + [more], n) == After(c, s, log, n)
    ensures After(c, s, log + [more], |log|) == Run(c, s, Concat(log))
    ensures After(c, s, log + [more], |log| + 1) == Run(c, s, Concat(log) + more)
  {
    assert (log + [more])[..|log|] == log && (log + [more])[..|log| + 1] == log + [more];
    assert log[..|log|] == log;
    forall n: nat | n <= |log| ensures (log + [more])[..n] == log[..n] { }
  }

  // ---- Scaling ----

  /** One spawn by the scaling task: its turn at the port queue, and if that granted a port, Docker's answer. */
  ghost predicate SpawnTried(c: Config, s: State, trace: seq<Label>, docker: bool, port: Option<Port>) {
    exists n: nat :: PortTurn(c, s, trace, docker, port, n)
  }

  ghost predicate PortTurn(c: Config, s: State, trace: seq<Label>, docker: bool, port: Option<Port>, n: nat) {
    && n < |trace| && trace[n] == SpawnPort
    && var t := Run(c, s, trace[..n]);
    && t.pool.lock == s.pool.lock && s.pool.lock.Scaling?
    && port == (if t.ports.queue == [] then None else Some(t.ports.queue[0]))
    && (port.Some? ==> DockerTried(c, Try(c, t, SpawnPort), trace[n + 1..], docker, port.value))
  }

  ghost predicate DockerTried(c: Config, s: State, trace: seq<Label>, docker: bool, port: Port) {
    exists m: nat :: DockerTurn(c, s, trace, docker, port, m)
  }

  ghost predicate DockerTurn(c: Config, s: State, trace: seq<Label>, docker: bool, port: Port, m: nat) {
    && m < |trace| && trace[m] == ScaleCreated(docker)
    && var lock := Run(c, s, trace[..m]).pool.lock; lock.Scaling? && lock.stage == HavePort(port)
  }

  lemma RefusedTurn(c: Config, s: State, pre: seq<Label>, docker: bool)
    requires Run(c, s, pre).pool.lock == s.pool.lock && s.pool.lock.Scaling? && Run(c, s, pre).ports.queue == []
    ensures SpawnTried(c, s, pre + [SpawnPort], docker, None)
  {
    assert (pre + [SpawnPort])[..|pre|] == pre && (pre + [SpawnPort])[|pre|] == SpawnPort;
    assert PortTurn(c, s, pre + [SpawnPort], docker, None, |pre|);
  }

  lemma GrantedTurn(c: Config, s: State, pre: seq<Label>, mid: seq<Label>, rest: seq<Label>, docker: bool, port: Port)
    requires var t := Run(c, s, pre);
             && t.pool.lock == s.pool.lock && s.pool.lock.Scaling? && t.ports.queue != [] && t.ports.queue[0] == port
             && var lock := Run(c, Try(c, t, SpawnPort), mid).pool.lock; lock.Scaling? && lock.stage == HavePort(port)
    ensures SpawnTried(c, s, pre + [SpawnPort] + (mid + [ScaleCreated(docker)] + rest), docker, Some(port))
  {
    var after := mid + [ScaleCreated(docker)] + rest;
    var trace := pre + [SpawnPort] + after;
    assert trace[..|pre|] == pre && trace[|pre|] == SpawnPort && trace[|pre| + 1..] == after;
    assert after[..|mid|] == mid && after[|mid|] == ScaleCreated(docker);
    assert DockerTurn(c, Try(c, Run(c, s, pre), SpawnPort), after, docker, port, |mid|);
    assert PortTurn(c, s, trace, docker, Some(port), |pre|);
  }

  /** The scaling loop: its i-th segment is a spawn that was granted `granted[i]` and answered `docker(i)`. */
  ghost predicate ScaledAs(c: Config, s: State, docker: nat -> bool, log: seq<seq<Label>>, granted: seq<Option<Port>>) {
    && |log| == |granted|
    && forall i :: 0 <= i < |log| ==> SpawnTried(c, After(c, s, log, i), log[i], docker(i), granted[i])
  }

  lemma NoneTried(c: Config, s: State, docker: nat -> bool)
    ensures ScaledAs(c, s, docker, [], [])
  {
  }

  lemma OneMoreTried(c: Config, s: State, docker: nat -> bool, log: seq<seq<Label>>, granted: seq<Option<Port>>,
                     more: seq<Label>, port: Option<Port>)
    requires ScaledAs(c, s, docker, log, granted)
    requires SpawnTried(c, Run(c, s, Concat(log)), more, docker(|log|), port)
    ensures ScaledAs(c, s, docker, log + [more], granted + [port])
  {
    hide SpawnTried, After, Concat;
    OneMoreSegment(c, s, log, more);
  }

  /** The ports of the attempts that made a host, in order. */
  function Made(granted: seq<Option<Port>>, docker: nat -> bool): seq<Port>
    decreases |granted|
  {
    if granted == [] then []
    else
      var n := |granted| - 1;
      Made(granted[..n], docker) + if docker(n) then AsSeq(granted[n]) else []
  }

  /** The ports of the attempts that failed in Docker, in order. */
  function Unmade(granted: seq<Option<Port>>, docker: nat -> bool): seq<Port>
    decreases |granted|
  {
    if granted == [] then []
    else
      var n := |granted| - 1;
      Unmade(granted[..n], docker) + if docker(n) then [] else AsSeq(granted[n])
  }

  /** The number of attempts that were granted no port. */
  function Refused(granted: seq<Option<Port>>): nat
    decreases |granted|
  {
    if granted == [] then 0
    else Refused(granted[..|granted| - 1]) + if granted[|granted| - 1].None? then 1 else 0
  }

  lemma OneMoreGranted(granted: seq<Option<Port>>, docker: nat -> bool, port: Option<Port>)
    ensures var n := |granted|;
            && Made(granted + [port], docker) == Made(granted, docker) + (if docker(n) then AsSeq(port) else [])
            && Unmade(granted + [port], docker) == Unmade(granted, docker) + (if docker(n) then [] else AsSeq(port))
            && Refused(granted + [port]) == Refused(granted) + (if port.None? then 1 else 0)
  {
    assert (granted + [port])[..|granted|] == granted;
  }

  /** Every attempt makes a host, fails in Docker, or is refused a port. */
  lemma {:induction false} AttemptsAddUp(granted: seq<Option<Port>>, docker: nat -> bool)
    ensures |Made(granted, docker)| + |Unmade(granted, docker)| + Refused(granted) == |granted|
    decreases |granted|
  {
    if granted != [] { AttemptsAddUp(granted[..|granted| - 1], docker); }
  }

  /** If no attempt is refused a port and Docker never fails, every attempt makes a host. */
  lemma {:induction false} AllMade(granted: seq<Option<Port>>, docker: nat -> bool)
    requires forall i: nat :: i < |granted| ==> granted[i].Some? && docker(i)
    ensures |Made(granted, docker)| == |granted|
    decreases |granted|
  {
    if granted != [] { AllMade(granted[..|granted| - 1], docker); }
  }

  /** Untested hosts on the given ports, in order. */
  ghost predicate OnPorts(hosts: seq<Host>, ports: seq<Port>) {
    |hosts| == |ports| && forall i :: 0 <= i < |hosts| ==> hosts[i].port == ports[i] && !hosts[i].tested
  }

  function PortsOf(hosts: seq<Host>): seq<Port> {
    seq(|hosts|, i requires 0 <= i < |hosts| => hosts[i].port)
  }

  // ---- Returning leases ----

  /** What became of one returned host: when its age was read, and whether it went back to the pool. */
  datatype Settled = Settled(host: Host, at: nat, requeued: bool)

  /** Back to the pool exactly if no older than the limit at a reading within the given times, and running. */
  ghost predicate SettledWell(r: Settled, host: Host, alive: bool, ttl: nat, from: nat, to: nat) {
    r.host == host && from <= r.at <= to && (r.requeued <==> r.at <= host.createdAt + ttl && alive)
  }

  /** In the state right after it was dealt with, a requeued host is the last of the deque; any other has its
      container sent for cleanup or known never to be cleaned, and its port sent back or leaked. */
  ghost predicate SettledIn(s: State, r: Settled) {
    if r.requeued then s.pool.available != [] && s.pool.available[|s.pool.available| - 1] == r.host
    else
      && (r.host.container in s.cleanup.channel || r.host.container in s.cleanup.uncleaned)
      && (r.host.port in s.ports.channel || r.host.port in s.ports.leaked)
  }

  ghost predicate SettledAt(c: Config, s: State, t: State, r: Settled, id: LeaseId, alive: bool, to: nat) {
    id in s.pool.leased && SettledWell(r, s.pool.leased[id], alive, c.ttl, s.clock, to) && SettledIn(t, r)
  }

  /** The i-th segment of the log deals with the i-th id. */
  ghost predicate AllSettled(c: Config, s: State, log: seq<seq<Label>>, settled: seq<Settled>, ids: seq<LeaseId>,
                             alive: nat -> bool, to: nat) {
    && |settled| == |log| <= |ids|
    && forall i :: 0 <= i < |settled| ==> SettledAt(c, s, After(c, s, log, i + 1), settled[i], ids[i], alive(i), to)
  }

  lemma NoneSettled(c: Config, s: State, ids: seq<LeaseId>, alive: nat -> bool, to: nat)
    ensures AllSettled(c, s, [], [], ids, alive, to)
  {
  }

  lemma SettledLater(c: Config, s: State, t: State, r: Settled, id: LeaseId, alive: bool, from: nat, to: nat)
    requires SettledAt(c, s, t, r, id, alive, from) && from <= to
    ensures SettledAt(c, s, t, r, id, alive, to)
  {
  }

  lemma OneMoreSettled(c: Config, s: State, log: seq<seq<Label>>, settled: seq<Settled>, ids: seq<LeaseId>,
                       alive: nat -> bool, from: nat, to: nat, more: seq<Label>, r: Settled)
    requires AllSettled(c, s, log, settled, ids, alive, from) && |settled| < |ids| && from <= to
    requires SettledAt(c, s, Run(c, s, Concat(log) + more), r, ids[|settled|], alive(|settled|), to)
    ensures AllSettled(c, s, log + [more], settled + [r], ids, alive, to)
  {
    hide SettledAt, After, Concat;
    OneMoreSegment(c, s, log, more);
    var all := settled + [r];
    forall i | 0 <= i < |all| ensures SettledAt(c, s, After(c, s, log + [more], i + 1), all[i], ids[i], alive(i), to) {
      if i < |settled| {
        SettledLater(c, s, After(c, s, log, i + 1), settled[i], ids[i], alive(i), from, to);
      }
    }
  }

  // ---- Draining and collecting ----

  datatype DrainEnd = Drained | DrainTimedOut

  /** The n-th poll has the lock, at its tick or later. */
  ghost predicate Polled(c: Config, s: State, polls: seq<seq<Label>>, n: nat)
    requires 0 < n <= |polls|
  {
    var t := After(c, s, polls, n); t.pool.lock.Free? && s.clock + 100 * (n - 1) <= t.clock
  }

  /** It neither finds the map empty nor the time up. */
  ghost predicate PollsOn(c: Config, s: State, polls: seq<seq<Label>>, n: nat)
    requires 0 < n <= |polls|
  {
    var t := After(c, s, polls, n); t.pool.leased != map[] && t.clock <= s.clock + 30_000
  }

  /** Polls of which all but the last `open` have gone on, no worker having been aborted. */
  ghost predicate Polling(c: Config, s: State, polls: seq<seq<Label>>, open: nat) {
    && (forall n :: 0 < n <= |polls| ==> Polled(c, s, polls, n))
    && (forall n :: 0 < n <= |polls| - open ==> PollsOn(c, s, polls, n))
    && AbortWorkers !in Concat(polls) && Collect !in Concat(polls)
  }

  /** The polls of the drain: all but the last go on, and the last ends it. */
  ghost predicate DrainedAs(c: Config, s: State, polls: seq<seq<Label>>, end: DrainEnd) {
    && polls != [] && Polling(c, s, polls, 1)
    && var t := After(c, s, polls, |polls|);
    && (end.Drained? <==> t.pool.leased == map[])
    && (end.DrainTimedOut? ==> t.clock > s.clock + 30_000)
  }

  lemma NoPolls(c: Config, s: State)
    ensures Polling(c, s, [], 0) && Concat([]) == []
  {
  }

  lemma OneMorePoll(c: Config, s: State, polls: seq<seq<Label>>, more: seq<Label>)
    requires Polling(c, s, polls, 0) && AbortWorkers !in more && Collect !in more
    requires var t := Run(c, s, Concat(polls) + more); t.pool.lock.Free? && s.clock + 100 * |polls| <= t.clock
    ensures var all, t := polls + [more], Run(c, s, Concat(polls) + more);
            && (t.pool.leased == map[] ==> DrainedAs(c, s, all, Drained))
            && (t.pool.leased != map[] && t.clock > s.clock + 30_000 ==> DrainedAs(c, s, all, DrainTimedOut))
            && (t.pool.leased != map[] && t.clock <= s.clock + 30_000 ==> Polling(c, s, all, 0))
  {
    var all := polls + [more];
    OneMoreSegment(c, s, polls, more);
    hide After, Concat;
    forall n | 0 < n <= |polls| ensures Polled(c, s, all, n) && PollsOn(c, s, all, n) {
      assert Polled(c, s, polls, n) && PollsOn(c, s, polls, n);
    }
    assert Polled(c, s, all, |all|);
    assert Polling(c, s, all, 1);
  }

  /** Abort, then in some later state the collection of exactly the hosts of both collections. */
  ghost predicate CollectedAs(c: Config, s: State, trace: seq<Label>, hosts: seq<Host>) {
    && trace != [] && trace[0] == AbortWorkers && Enabled(s, AbortWorkers)
    && exists n: nat :: CollectTurn(c, s, trace, hosts, n)
  }

  ghost predicate CollectTurn(c: Config, s: State, trace: seq<Label>, hosts: seq<Host>, n: nat) {
    && n < |trace| && trace[n] == Collect && Collect !in trace[..n]
    && var t := Run(c, s, trace[..n]);
    && t.pool.lock.Free? && !t.workers
    && multiset(hosts) == multiset(t.pool.available) + Values(t.pool.leased)
  }

  lemma CollectJoins(c: Config, s: State, pre: seq<Label>, rest: seq<Label>, hosts: seq<Host>)
    requires pre != [] && pre[0] == AbortWorkers && Enabled(s, AbortWorkers) && Collect !in pre
    requires var t := Run(c, s, pre);
             t.pool.lock.Free? && !t.workers && multiset(hosts) == multiset(t.pool.available) + Values(t.pool.leased)
    ensures CollectedAs(c, s, pre + [Collect] + rest, hosts)
  {
    var trace := pre + [Collect] + rest;
    assert trace[..|pre|] == pre && trace[|pre|] == Collect && trace[0] == pre[0];
    hide Values;
    assert CollectTurn(c, s, trace, hosts, |pre|);
  }
}
