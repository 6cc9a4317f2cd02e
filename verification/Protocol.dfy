/** The whole gateway pool as a step system. One label is one stretch of code between two points
    where another task can run; a run is any schedule of labels. */
module Protocol {
  import opened Bags
  import opened PortSpec

  type ContainerId = nat
  type LeaseId = nat
  type TaskId = nat

  datatype Config = Config(maxInstances: nat, minInstances: nat, ttl: nat, lo: nat, hi: nat) {
    predicate Valid() {
      0 < maxInstances && minInstances <= maxInstances && lo < hi <= 0xFFFF
    }
  }

  datatype Host = Host(container: ContainerId, port: Port, createdAt: nat, tested: bool)

  function ContainerOf(h: Host): ContainerId { h.container }
  function PortOf(h: Host): Port { h.port }

  predicate Expired(h: Host, now: nat, ttl: nat) {
    now - h.createdAt > ttl
  }

  /** What a caller was told about its host: the fields of a `HostLease`. */
  datatype Claim = Claim(container: ContainerId, port: Port)

  /** How far a spawn has come: before `allocate_port`, or awaiting Docker with a port in hand. */
  datatype Stage = NeedPort | HavePort(port: Port)

  /** The pool mutex with its holder's program counter, for the holders that wait while holding it. */
  datatype Lock =
    | Free
    | Spawning(task: TaskId, stage: Stage)
    | Scaling(left: nat, stage: Stage)
    | Checking(host: Host)
    | Unwinding

  datatype Pool = Pool(available: seq<Host>, leased: map<LeaseId, Host>, lock: Lock)

  /** `waiting`: callers past the shutdown check with nothing inserted yet. `probing`: callers whose
      host is inserted and being health checked. `live`: the `HostLease`s that exist. `returning`:
      the id in the return processor's hand. `lost`: ids whose send failed. `abandoned`: ids whose
      caller was cancelled while probing. `orphaned`: owned ids whose entry `collect_all_hosts` took. */
  datatype Leases = Leases(
    waiting: set<TaskId>,
    probing: map<LeaseId, Claim>,
    live: map<LeaseId, Claim>,
    channel: seq<LeaseId>,
    returning: Option<LeaseId>,
    lost: set<LeaseId>,
    abandoned: set<LeaseId>,
    orphaned: set<LeaseId>,
    next: LeaseId)

  /** `doomed`: hosts whose destructor has yet to run. `freed`: ports whose `AllocatedPort` destructor
      has yet to run. `uncleaned`: containers that no cleanup message will ever stop. */
  datatype Cleanup = Cleanup(
    doomed: multiset<Host>,
    freed: multiset<Port>,
    channel: seq<ContainerId>,
    stopping: Option<ContainerId>,
    stopped: multiset<ContainerId>,
    uncleaned: multiset<ContainerId>,
    next: ContainerId)

  datatype Issue = Issue(id: LeaseId, task: TaskId)

  /** Containers ever inserted into `leased`, containers discarded because their probe failed, containers
      wrapped by the scaling task, and which request inserted each lease id. */
  datatype History = History(
    everLeased: set<ContainerId>,
    failed: set<ContainerId>,
    scaled: set<ContainerId>,
    issued: set<Issue>)

  datatype State = State(
    pool: Pool,
    leases: Leases,
    cleanup: Cleanup,
    ports: PortState,
    history: History,
    shutdown: bool,
    workers: bool,
    collected: bool,
    clock: nat)

  function Init(c: Config): State
    requires c.Valid()
  {
    State(Pool([], map[], Free),
          Leases({}, map[], map[], [], None, {}, {}, {}, 0),
          Cleanup(multiset{}, multiset{}, [], None, multiset{}, multiset{}, 0),
          PortSpec.Fresh(c.lo, c.hi),
          History({}, {}, {}, {}),
          false, true, false, 0)
  }

  datatype Label =
    // a request task
    | CheckFlag(task: TaskId)
    | LeaseLock(task: TaskId)
    | SpawnPort
    | LeaseCreated(ok: bool)
    | ProbePassed(id: LeaseId)
    | ProbeFailed(id: LeaseId)
    | CancelWaiting(task: TaskId)
    | CancelProbing(id: LeaseId)
    | DropLease(id: LeaseId)
    // the background tasks
    | ReceiveLease
    | ReturnLock
    | ReturnChecked(alive: bool)
    | ReturnUnlock
    | ReceiveCleanup
    | StopDone
    | Reap(readings: seq<nat>)
    | ScaleLock
    | ScaleCreated(ok: bool)
    | ScaleUnlock
    // destructors and the port processor
    | DropHost(host: Host)
    | DropPort(port: Port)
    | ReceivePort
    | RequeuePort
    // time and shutdown
    | Tick(now: nat)
    | SetFlag
    | AbortWorkers
    | Collect

  // Whose label it is: a request's, a worker's, or a destructor's, the port processor's or the shutdown's.

  predicate FromRequest(l: Label) {
    || l.CheckFlag? || l.LeaseLock? || l.SpawnPort? || l.LeaseCreated? || l.ProbePassed? || l.ProbeFailed?
    || l.CancelWaiting? || l.CancelProbing? || l.DropLease?
  }

  predicate FromWorker(l: Label) {
    || l.ReceiveLease? || l.ReturnLock? || l.ReturnChecked? || l.ReturnUnlock? || l.ReceiveCleanup? || l.StopDone?
    || l.Reap? || l.ScaleLock? || l.ScaleCreated? || l.ScaleUnlock?
  }

  /** The partition of the reaper: each host is tested against its own clock reading. */
  function Sift(hosts: seq<Host>, readings: seq<nat>, ttl: nat): (r: (seq<Host>, seq<Host>))
    requires |hosts| == |readings|
  {
    if hosts == [] then ([], [])
    else
      var (expired, kept) := Sift(hosts[..|hosts| - 1], readings[..|hosts| - 1], ttl);
      var h := hosts[|hosts| - 1];
      if Expired(h, readings[|hosts| - 1], ttl) then (expired + [h], kept) else (expired, kept + [h])
  }

  predicate Advancing(readings: seq<nat>, from: nat) {
    && (forall i :: 0 <= i < |readings| ==> from <= readings[i])
    && (forall i, j :: 0 <= i < j < |readings| ==> readings[i] <= readings[j])
  }

  /** A request that is neither waiting for the lock nor spawning under it. */
  predicate Idle(s: State, t: TaskId) {
    t !in s.leases.waiting && !(s.pool.lock.Spawning? && s.pool.lock.task == t)
  }

  predicate Enabled(s: State, l: Label) {
    var lock := s.pool.lock;
    match l
    case CheckFlag(t) => Idle(s, t)
    case LeaseLock(t) => lock.Free? && t in s.leases.waiting
    case SpawnPort => (lock.Spawning? || (lock.Scaling? && lock.left > 0)) && lock.stage.NeedPort?
    case LeaseCreated(_) => lock.Spawning? && lock.stage.HavePort?
    case ProbePassed(id) => lock.Free? && id in s.leases.probing
    case ProbeFailed(id) => lock.Free? && id in s.leases.probing
    case CancelWaiting(t) => t in s.leases.waiting || (lock.Spawning? && lock.task == t)
    case CancelProbing(id) => id in s.leases.probing
    case DropLease(id) => id in s.leases.live
    case ReceiveLease =>
      s.workers && s.leases.returning.None? && !lock.Checking? && !lock.Unwinding? && s.leases.channel != []
    case ReturnLock => s.workers && lock.Free? && s.leases.returning.Some?
    case ReturnChecked(_) => lock.Checking?
    case ReturnUnlock => lock.Unwinding?
    case ReceiveCleanup => s.workers && s.cleanup.stopping.None? && s.cleanup.channel != []
    case StopDone => s.cleanup.stopping.Some?
    case Reap(readings) =>
      s.workers && lock.Free? && |readings| == |s.pool.available| && Advancing(readings, s.clock)
    case ScaleLock => s.workers && lock.Free?
    case ScaleCreated(_) => lock.Scaling? && lock.left > 0 && lock.stage.HavePort?
    case ScaleUnlock => lock.Scaling? && lock.left == 0 && lock.stage.NeedPort?
    case DropHost(h) => h in s.cleanup.doomed
    case DropPort(p) => p in s.cleanup.freed
    case ReceivePort => Can(s.ports, Receive)
    case RequeuePort => Can(s.ports, Requeue)
    case Tick(now) => s.clock <= now
    case SetFlag => true
    case AbortWorkers => s.shutdown && s.workers
    case Collect => !s.workers && !s.collected && lock.Free?
  }

  // ---- The code of each stretch ----

  /** The caller of a tested host has its lease at once; the caller of any other is to probe it. */
  function Grant(ls: Leases, h: Host): Leases {
    var claim := Claim(h.container, h.port);
    if h.tested then ls.(next := ls.next + 1, live := ls.live[ls.next := claim])
    else ls.(next := ls.next + 1, probing := ls.probing[ls.next := claim])
  }

  /** Request t inserts the host under a new lease id and releases the lock. */
  function Admit(s: State, h: Host, t: TaskId): State {
    var id := s.leases.next;
    s.(pool := s.pool.(leased := s.pool.leased[id := h], lock := Free),
       leases := Grant(s.leases, h),
       history := s.history.(everLeased := s.history.everLeased + {h.container},
                             issued := s.history.issued + {Issue(id, t)}))
  }

  function LockForLease(c: Config, s: State, t: TaskId): State {
    var s := s.(leases := s.leases.(waiting := s.leases.waiting - {t}));
    if s.pool.available != [] then
      Admit(s.(pool := s.pool.(available := s.pool.available[1..])), s.pool.available[0], t)
    else if |s.pool.leased| >= c.maxInstances then s
    else s.(pool := s.pool.(lock := Spawning(t, NeedPort)))
  }

  function TakePort(s: State): State
    requires Enabled(s, SpawnPort)
  {
    var lock := s.pool.lock;
    var lock' :=
      if s.ports.queue != [] then lock.(stage := HavePort(s.ports.queue[0]))
      else if lock.Spawning? then Free
      else Scaling(lock.left - 1, NeedPort);
    s.(pool := s.pool.(lock := lock'), ports := Do(s.ports, Allocate))
  }

  /** Wrapping a created container: only now does the pool know about it. */
  function NewHost(s: State, p: Port): Host {
    Host(s.cleanup.next, p, s.clock, false)
  }

  function FinishSpawn(s: State, ok: bool): State
    requires Enabled(s, LeaseCreated(ok))
  {
    var p := s.pool.lock.stage.port;
    if ok then Admit(s.(cleanup := s.cleanup.(next := s.cleanup.next + 1)), NewHost(s, p), s.pool.lock.task)
    else s.(pool := s.pool.(lock := Free),
            cleanup := s.cleanup.(freed := s.cleanup.freed + multiset{p}))
  }

  function FinishScaleSpawn(s: State, ok: bool): State
    requires Enabled(s, ScaleCreated(ok))
  {
    var p := s.pool.lock.stage.port;
    var lock' := Scaling(s.pool.lock.left - 1, NeedPort);
    if ok then
      s.(pool := s.pool.(lock := lock', available := s.pool.available + [NewHost(s, p)]),
         cleanup := s.cleanup.(next := s.cleanup.next + 1),
         history := s.history.(scaled := s.history.scaled + {s.cleanup.next}))
    else
      s.(pool := s.pool.(lock := lock'),
         cleanup := s.cleanup.(freed := s.cleanup.freed + multiset{p}))
  }

  /** A caller whose entry is no longer there leaves with `InvalidLease`. */
  function LeaveOrphan(s: State, id: LeaseId): State {
    s.(leases := s.leases.(probing := s.leases.probing - {id}, orphaned := s.leases.orphaned - {id}))
  }

  function PassProbe(s: State, id: LeaseId): State
    requires id in s.leases.probing
  {
    if id in s.pool.leased then
      s.(pool := s.pool.(leased := s.pool.leased[id := s.pool.leased[id].(tested := true)]),
         leases := s.leases.(probing := s.leases.probing - {id},
                             live := s.leases.live[id := s.leases.probing[id]]))
    else LeaveOrphan(s, id)
  }

  function FailProbe(s: State, id: LeaseId): State
    requires id in s.leases.probing
  {
    if id in s.pool.leased then
      var h := s.pool.leased[id];
      s.(pool := s.pool.(leased := s.pool.leased - {id}),
         leases := s.leases.(probing := s.leases.probing - {id}),
         cleanup := s.cleanup.(doomed := s.cleanup.doomed + multiset{h}),
         history := s.history.(failed := s.history.failed + {h.container}))
    else LeaveOrphan(s, id)
  }

  ghost function StagePort(lock: Lock): multiset<Port> {
    if (lock.Spawning? || lock.Scaling?) && lock.stage.HavePort? then multiset{lock.stage.port} else multiset{}
  }

  /** The pending port destructors once the port of a given spawn is dropped. */
  function FreeStage(freed: multiset<Port>, stage: Stage): multiset<Port> {
    if stage.HavePort? then freed + multiset{stage.port} else freed
  }

  function CancelCaller(s: State, t: TaskId): State {
    if t in s.leases.waiting then
      s.(leases := s.leases.(waiting := s.leases.waiting - {t}))
    else if s.pool.lock.Spawning? then
      s.(cleanup := s.cleanup.(freed := FreeStage(s.cleanup.freed, s.pool.lock.stage)), pool := s.pool.(lock := Free))
    else s
  }

  function AbandonProbe(s: State, id: LeaseId): State {
    s.(leases := s.leases.(probing := s.leases.probing - {id}, abandoned := s.leases.abandoned + {id}))
  }

  /** The destructor of a `HostLease`. Aborting the workers closes the channel. */
  function SendLease(s: State, id: LeaseId): State {
    var ls := s.leases.(live := s.leases.live - {id});
    s.(leases := if s.workers && |ls.channel| < CHANNEL_CAPACITY then ls.(channel := ls.channel + [id])
                 else ls.(lost := ls.lost + {id}))
  }

  function TakeLease(s: State): State
    requires s.leases.channel != []
  {
    s.(leases := s.leases.(returning := Some(s.leases.channel[0]), channel := s.leases.channel[1..]))
  }

  function LockForReturn(c: Config, s: State): State
    requires s.leases.returning.Some?
  {
    var id := s.leases.returning.value;
    var s := s.(leases := s.leases.(returning := None));
    if id !in s.pool.leased then LeaveOrphan(s, id)
    else
      var h := s.pool.leased[id];
      var pool := s.pool.(leased := s.pool.leased - {id});
      if Expired(h, s.clock, c.ttl)
      then s.(pool := pool, cleanup := s.cleanup.(doomed := s.cleanup.doomed + multiset{h}))
      else s.(pool := pool.(lock := Checking(h)))
  }

  function FinishReturn(s: State, alive: bool): State
    requires s.pool.lock.Checking?
  {
    var h := s.pool.lock.host;
    if alive then s.(pool := s.pool.(available := s.pool.available + [h], lock := Free))
    else s.(pool := s.pool.(lock := Unwinding),
            cleanup := s.cleanup.(doomed := s.cleanup.doomed + multiset{h}))
  }

  function ReapAll(c: Config, s: State, readings: seq<nat>): State
    requires |readings| == |s.pool.available|
  {
    var (expired, kept) := Sift(s.pool.available, readings, c.ttl);
    s.(pool := s.pool.(available := kept),
       cleanup := s.cleanup.(doomed := s.cleanup.doomed + multiset(expired)),
       clock := if readings == [] then s.clock else readings[|readings| - 1])
  }

  function LockForScaling(c: Config, s: State): State {
    var total := |s.pool.leased| + |s.pool.available|;
    if total < c.minInstances
    then s.(pool := s.pool.(lock := Scaling(c.minInstances - total, NeedPort)))
    else s
  }

  /** The destructor of a `HostInstance`: first the cleanup message, then its port field. */
  function SendContainer(s: State, h: Host): State {
    var cl := s.cleanup.(doomed := s.cleanup.doomed - multiset{h}, freed := s.cleanup.freed + multiset{h.port});
    s.(cleanup := if s.workers && |cl.channel| < CHANNEL_CAPACITY
                  then cl.(channel := cl.channel + [h.container])
                  else cl.(uncleaned := cl.uncleaned + multiset{h.container}))
  }

  function SendPort(s: State, p: Port): State {
    s.(cleanup := s.cleanup.(freed := s.cleanup.freed - multiset{p}),
       ports := if p in s.ports.live then Do(s.ports, Release(p)) else s.ports)
  }

  function TakeCleanup(s: State): State
    requires s.cleanup.channel != []
  {
    s.(cleanup := s.cleanup.(stopping := Some(s.cleanup.channel[0]), channel := s.cleanup.channel[1..]))
  }

  function FinishStop(s: State): State
    requires s.cleanup.stopping.Some?
  {
    s.(cleanup := s.cleanup.(stopping := None, stopped := s.cleanup.stopped + multiset{s.cleanup.stopping.value}))
  }

  function AbortLeases(ls: Leases): Leases {
    var held := if ls.returning.Some? then {ls.returning.value} else {};
    ls.(channel := [], returning := None, lost := ls.lost + (set id | id in ls.channel) + held)
  }

  function AbortCleanup(cl: Cleanup, lock: Lock): Cleanup {
    var stuck := if cl.stopping.Some? then multiset{cl.stopping.value} else multiset{};
    cl.(channel := [], stopping := None,
        uncleaned := cl.uncleaned + multiset(cl.channel) + stuck,
        doomed := if lock.Checking? then cl.doomed + multiset{lock.host} else cl.doomed,
        freed := if lock.Scaling? then FreeStage(cl.freed, lock.stage) else cl.freed)
  }

  /** Aborting the workers drops both receivers with whatever they hold, and drops the frames of a
      worker that holds the lock. */
  function Abort(s: State): State {
    s.(workers := false,
       leases := AbortLeases(s.leases),
       cleanup := AbortCleanup(s.cleanup, s.pool.lock),
       pool := s.pool.(lock := if s.pool.lock.Spawning? then s.pool.lock else Free))
  }

  ghost function CollectHosts(s: State): State {
    s.(collected := true,
       pool := s.pool.(available := [], leased := map[]),
       leases := s.leases.(orphaned := s.leases.orphaned + s.pool.leased.Keys),
       cleanup := s.cleanup.(doomed := s.cleanup.doomed + multiset(s.pool.available) + Values(s.pool.leased)))
  }

  ghost function Next(c: Config, s: State, l: Label): State
    requires Enabled(s, l)
  {
    match l
    case CheckFlag(t) =>
      if s.shutdown then s else s.(leases := s.leases.(waiting := s.leases.waiting + {t}))
    case LeaseLock(t) => LockForLease(c, s, t)
    case SpawnPort => TakePort(s)
    case LeaseCreated(ok) => FinishSpawn(s, ok)
    case ProbePassed(id) => PassProbe(s, id)
    case ProbeFailed(id) => FailProbe(s, id)
    case CancelWaiting(t) => CancelCaller(s, t)
    case CancelProbing(id) => AbandonProbe(s, id)
    case DropLease(id) => SendLease(s, id)
    case ReceiveLease => TakeLease(s)
    case ReturnLock => LockForReturn(c, s)
    case ReturnChecked(alive) => FinishReturn(s, alive)
    case ReturnUnlock => s.(pool := s.pool.(lock := Free))
    case ReceiveCleanup => TakeCleanup(s)
    case StopDone => FinishStop(s)
    case Reap(readings) => ReapAll(c, s, readings)
    case ScaleLock => LockForScaling(c, s)
    case ScaleCreated(ok) => FinishScaleSpawn(s, ok)
    case ScaleUnlock => s.(pool := s.pool.(lock := Free))
    case DropHost(h) => SendContainer(s, h)
    case DropPort(p) => SendPort(s, p)
    case ReceivePort => s.(ports := Do(s.ports, Receive))
    case RequeuePort => s.(ports := Do(s.ports, Requeue))
    case Tick(now) => s.(clock := now)
    case SetFlag => s.(shutdown := true)
    case AbortWorkers => Abort(s)
    case Collect => CollectHosts(s)
  }

  // The transitions whose code is long, so that a proof about one of them need not see the others.

  lemma NextLeaseLock(c: Config, s: State, t: TaskId)
    ensures Enabled(s, LeaseLock(t)) ==> Next(c, s, LeaseLock(t)) == LockForLease(c, s, t)
  {
  }

  lemma NextLeaseCreated(c: Config, s: State, ok: bool)
    ensures Enabled(s, LeaseCreated(ok)) ==> Next(c, s, LeaseCreated(ok)) == FinishSpawn(s, ok)
  {
  }

  lemma NextReceiveLease(c: Config, s: State)
    ensures Enabled(s, ReceiveLease) ==> Next(c, s, ReceiveLease) == TakeLease(s)
  {
  }

  lemma NextReturnLock(c: Config, s: State)
    ensures Enabled(s, ReturnLock) ==> Next(c, s, ReturnLock) == LockForReturn(c, s)
  {
  }

  lemma NextScaleCreated(c: Config, s: State, ok: bool)
    ensures Enabled(s, ScaleCreated(ok)) ==> Next(c, s, ScaleCreated(ok)) == FinishScaleSpawn(s, ok)
  {
  }

  lemma NextReap(c: Config, s: State, readings: seq<nat>)
    ensures Enabled(s, Reap(readings)) ==> Next(c, s, Reap(readings)) == ReapAll(c, s, readings)
  {
  }

  lemma NextAbort(c: Config, s: State)
    ensures Enabled(s, AbortWorkers) ==> Next(c, s, AbortWorkers) == Abort(s)
  {
  }

  lemma NextCollect(c: Config, s: State)
    ensures Enabled(s, Collect) ==> Next(c, s, Collect) == CollectHosts(s)
  {
  }

  ghost function Try(c: Config, s: State, l: Label): State {
    if Enabled(s, l) then Next(c, s, l) else s
  }

  /** A run under any schedule: a label whose turn comes when it cannot be taken is skipped. */
  ghost function Run(c: Config, s: State, schedule: seq<Label>): State
    decreases |schedule|
  {
    if schedule == [] then s else Run(c, Try(c, s, schedule[0]), schedule[1..])
  }

  lemma {:induction false} RunConcat(c: Config, s: State, a: seq<Label>, b: seq<Label>)
    ensures Run(c, s, a + b) == Run(c, Run(c, s, a), b)
    decreases |a|
  {
    if a == [] {
      assert a + b == b;
    } else {
      assert (a + b)[1..] == a[1..] + b;
      RunConcat(c, Try(c, s, a[0]), a[1..], b);
    }
  }
}
