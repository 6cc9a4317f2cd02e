/** Who owns each lease, and what a lease promises about its host. */
module Leasing {
  import opened Bags
  import opened PortSpec
  import opened Protocol
  import opened Footprints

  // ---- One owner per lease id ----

  /** In how many places the right to give this lease back is held. */
  ghost function OwnerCount(s: State, id: LeaseId): nat {
    (if id in s.leases.probing then 1 else 0)
    + (if id in s.leases.live then 1 else 0)
    + multiset(s.leases.channel)[id]
    + (if s.leases.returning == Some(id) then 1 else 0)
    + (if id in s.leases.lost then 1 else 0)
    + (if id in s.leases.abandoned then 1 else 0)
  }

  ghost function Taken(s: State, id: LeaseId): nat {
    (if id in s.pool.leased then 1 else 0) + (if id in s.leases.orphaned then 1 else 0)
  }

  ghost predicate OwnedOnce(s: State, id: LeaseId) {
    OwnerCount(s, id) == Taken(s, id) <= 1 && (id >= s.leases.next ==> Taken(s, id) == 0)
  }

  predicate Names(claim: Claim, h: Host) {
    claim.container == h.container && claim.port == h.port
  }

  /** What the owner of an entry was told is what the entry holds, and an entry whose host has not
      passed a health check belongs to a caller that is probing it, or was cancelled while probing. */
  ghost predicate Truthful(s: State, id: LeaseId) {
    id in s.pool.leased ==>
      && (id in s.leases.probing ==> Names(s.leases.probing[id], s.pool.leased[id]))
      && (id in s.leases.live ==> Names(s.leases.live[id], s.pool.leased[id]))
      && (s.pool.leased[id].tested || id in s.leases.probing || id in s.leases.abandoned)
  }

  ghost predicate InOrder(s: State, id: LeaseId) {
    OwnedOnce(s, id) && Truthful(s, id)
  }

  /** Every lease id that has an entry, or had one when the hosts were collected, has exactly one
      owner, no other id has any, and owners were told the truth. */
  ghost predicate LeaseLaw(s: State) {
    && (forall id: LeaseId :: InOrder(s, id))
    && (s.pool.lock.Checking? ==> s.pool.lock.host.tested)
  }

  // ---- What each stretch does to the leases and to the map ----

  lemma LockFields(c: Config, s: State, task: TaskId)
    ensures var t, ls := LockForLease(c, s, task), s.leases.(waiting := s.leases.waiting - {task});
            && (s.pool.available == [] ==> t.leases == ls && t.pool.leased == s.pool.leased)
            && (s.pool.available != [] ==> t.leases == Grant(ls, s.pool.available[0]))
            && (s.pool.available != [] ==> t.pool.leased == s.pool.leased[s.leases.next := s.pool.available[0]])
  {
    hide Grant;
  }

  lemma SpawnFields(s: State, ok: bool)
    requires Enabled(s, LeaseCreated(ok))
    ensures var t, h := FinishSpawn(s, ok), NewHost(s, s.pool.lock.stage.port);
            && (ok ==> t.leases == Grant(s.leases, h) && t.pool.leased == s.pool.leased[s.leases.next := h])
            && (!ok ==> t.leases == s.leases && t.pool.leased == s.pool.leased)
  {
    hide Grant;
  }

  lemma FailFields(s: State, x: LeaseId)
    requires x in s.leases.probing
    ensures var t := FailProbe(s, x);
            && (x in s.pool.leased ==> t.leases == s.leases.(probing := s.leases.probing - {x}))
            && (x !in s.pool.leased ==>
                  t.leases == s.leases.(probing := s.leases.probing - {x}, orphaned := s.leases.orphaned - {x}))
            && t.pool.leased == s.pool.leased - {x}
  {
    assert x !in s.pool.leased ==> s.pool.leased - {x} == s.pool.leased;
  }

  lemma PassFields(s: State, x: LeaseId)
    requires x in s.leases.probing
    ensures var t := PassProbe(s, x);
            && (x in s.pool.leased ==>
                  && t.pool.leased == s.pool.leased[x := s.pool.leased[x].(tested := true)]
                  && t.leases == s.leases.(probing := s.leases.probing - {x},
                                           live := s.leases.live[x := s.leases.probing[x]]))
            && (x !in s.pool.leased ==>
                  && t.pool.leased == s.pool.leased
                  && t.leases == s.leases.(probing := s.leases.probing - {x}, orphaned := s.leases.orphaned - {x}))
  {
  }

  // ---- One owner, step by step ----

  lemma GrantOwned(s: State, t: State, h: Host, id: LeaseId)
    requires InOrder(s, id) && InOrder(s, s.leases.next)
    requires t.leases.(waiting := {}) == Grant(s.leases, h).(waiting := {})
    requires t.pool.leased == s.pool.leased[s.leases.next := h]
    ensures InOrder(t, id)
  {
    SameBut(t.leases, Grant(s.leases, h));
  }

  lemma SameBut(a: Leases, b: Leases)
    requires a.(waiting := {}) == b.(waiting := {})
    ensures a.probing == b.probing && a.live == b.live && a.channel == b.channel && a.returning == b.returning
    ensures a.lost == b.lost && a.abandoned == b.abandoned && a.orphaned == b.orphaned && a.next == b.next
  {
    var x, y := a.(waiting := {}), b.(waiting := {});
    assert x.probing == y.probing && x.live == y.live && x.channel == y.channel && x.next == y.next;
    assert x.returning == y.returning && x.lost == y.lost && x.abandoned == y.abandoned && x.orphaned == y.orphaned;
  }

  lemma LeaseLockOwned(c: Config, s: State, task: TaskId, id: LeaseId)
    requires InOrder(s, id) && InOrder(s, s.leases.next)
    ensures InOrder(LockForLease(c, s, task), id)
  {
    hide LockForLease;
    LockFields(c, s, task);
    if s.pool.available != [] {
      var ls := s.leases.(waiting := s.leases.waiting - {task});
      assert Grant(ls, s.pool.available[0]).(waiting := {}) == Grant(s.leases, s.pool.available[0]).(waiting := {});
      hide InOrder, Grant;
      GrantOwned(s, LockForLease(c, s, task), s.pool.available[0], id);
    }
  }

  lemma SpawnOwned(s: State, ok: bool, id: LeaseId)
    requires Enabled(s, LeaseCreated(ok)) && InOrder(s, id) && InOrder(s, s.leases.next)
    ensures InOrder(FinishSpawn(s, ok), id)
  {
    hide FinishSpawn, Grant;
    SpawnFields(s, ok);
    if ok { GrantOwned(s, FinishSpawn(s, ok), NewHost(s, s.pool.lock.stage.port), id); }
  }

  lemma PassOwned(s: State, x: LeaseId, id: LeaseId)
    requires x in s.leases.probing && InOrder(s, id) && InOrder(s, x)
    ensures InOrder(PassProbe(s, x), id)
  {
    hide PassProbe;
    PassFields(s, x);
  }

  lemma FailOwned(s: State, x: LeaseId, id: LeaseId)
    requires x in s.leases.probing && InOrder(s, id) && InOrder(s, x)
    ensures InOrder(FailProbe(s, x), id)
  {
    hide FailProbe;
    FailFields(s, x);
  }

  lemma AbandonOwned(s: State, x: LeaseId, id: LeaseId)
    requires x in s.leases.probing && InOrder(s, id) && InOrder(s, x)
    ensures InOrder(AbandonProbe(s, x), id)
  {
  }

  lemma SendOwned(s: State, x: LeaseId, id: LeaseId)
    requires x in s.leases.live && InOrder(s, id) && InOrder(s, x)
    ensures InOrder(SendLease(s, x), id)
  {
  }

  lemma ReceiveOwned(s: State, id: LeaseId)
    requires s.leases.returning.None? && s.leases.channel != [] && InOrder(s, id)
    ensures InOrder(TakeLease(s), id)
  {
    var ch := s.leases.channel;
    assert ch == [ch[0]] + ch[1..];
    assert multiset(ch)[id] == multiset{ch[0]}[id] + multiset(ch[1..])[id];
  }

  lemma ReturnFields(c: Config, s: State)
    requires s.leases.returning.Some?
    ensures var t, id := LockForReturn(c, s), s.leases.returning.value;
            && (id in s.pool.leased ==> t.leases == s.leases.(returning := None))
            && (id !in s.pool.leased ==> t.leases == s.leases.(returning := None, probing := s.leases.probing - {id},
                                                               orphaned := s.leases.orphaned - {id}))
            && t.pool.leased == s.pool.leased - {id}
  {
  }

  lemma ReturnOwned(c: Config, s: State, id: LeaseId)
    requires s.leases.returning.Some? && InOrder(s, id) && InOrder(s, s.leases.returning.value)
    ensures InOrder(LockForReturn(c, s), id)
  {
    hide LockForReturn;
    ReturnFields(c, s);
  }

  lemma AbortOwned(s: State, id: LeaseId)
    requires InOrder(s, id)
    ensures InOrder(Abort(s), id)
  {
    assert id in s.leases.channel <==> id in multiset(s.leases.channel);
  }

  lemma CollectOwned(s: State, id: LeaseId)
    requires InOrder(s, id)
    ensures InOrder(CollectHosts(s), id)
  {
  }

  predicate MovesOwners(l: Label) {
    || l.LeaseLock? || l.LeaseCreated? || l.ProbePassed? || l.ProbeFailed? || l.CancelProbing? || l.DropLease?
    || l.ReceiveLease? || l.ReturnLock? || l.AbortWorkers? || l.Collect?
  }

  lemma OwnersFootprint(c: Config, s: State, l: Label)
    requires Enabled(s, l) && !MovesOwners(l)
    ensures Next(c, s, l).leases.(waiting := {}) == s.leases.(waiting := {})
  {
    hide Admit, FinishSpawn, PassProbe, FailProbe, AbandonProbe, SendLease, TakeLease, LockForReturn, Abort;
    hide CollectHosts, Sift, Do, Values;
  }

  lemma TableOfRequest(c: Config, s: State, l: Label)
    requires Enabled(s, l) && !MovesOwners(l) && FromRequest(l)
    ensures Next(c, s, l).pool.leased == s.pool.leased
  {
    hide Do, FreeStage;
  }

  lemma TableFootprint(c: Config, s: State, l: Label)
    requires Enabled(s, l) && !MovesOwners(l)
    ensures Next(c, s, l).pool.leased == s.pool.leased
  {
    if FromRequest(l) {
      TableOfRequest(c, s, l);
      hide Next;
    } else {
      hide LockForReturn, Abort, CollectHosts, Sift, Do, Values;
    }
  }

  /** Labels that move no lease leave everything about leases alone but the callers waiting. */
  lemma LeasesStay(c: Config, s: State, l: Label)
    requires Enabled(s, l) && !MovesOwners(l)
    ensures var t, u := Next(c, s, l).leases, s.leases;
            && t.probing == u.probing && t.live == u.live && t.channel == u.channel && t.returning == u.returning
            && t.lost == u.lost && t.abandoned == u.abandoned && t.orphaned == u.orphaned && t.next == u.next
    ensures Next(c, s, l).pool.leased == s.pool.leased
  {
    hide Next;
    OwnersFootprint(c, s, l);
    TableFootprint(c, s, l);
    SameBut(Next(c, s, l).leases, s.leases);
  }

  /** The leases after a label, whatever it does to the callers waiting. */
  function LeasesAfter(s: State, l: Label): Leases
    requires Enabled(s, l)
  {
    var ls := s.leases;
    match l
    case LeaseLock(_) => if s.pool.available != [] then Grant(ls, s.pool.available[0]) else ls
    case LeaseCreated(ok) => if ok then Grant(ls, NewHost(s, s.pool.lock.stage.port)) else ls
    case ProbePassed(id) =>
      if id in s.pool.leased then ls.(probing := ls.probing - {id}, live := ls.live[id := ls.probing[id]])
      else LeaveOrphan(s, id).leases
    case ProbeFailed(id) =>
      if id in s.pool.leased then ls.(probing := ls.probing - {id}) else LeaveOrphan(s, id).leases
    case CancelProbing(id) => AbandonProbe(s, id).leases
    case DropLease(id) => SendLease(s, id).leases
    case ReceiveLease => TakeLease(s).leases
    case ReturnLock =>
      if ls.returning.value in s.pool.leased then ls.(returning := None)
      else LeaveOrphan(s, ls.returning.value).leases.(returning := None)
    case AbortWorkers => AbortLeases(ls)
    case Collect => ls.(orphaned := ls.orphaned + s.pool.leased.Keys)
    case _ => ls
  }

  /** The map after a label. */
  function TableAfter(s: State, l: Label): map<LeaseId, Host>
    requires Enabled(s, l)
  {
    var m := s.pool.leased;
    match l
    case LeaseLock(_) => if s.pool.available != [] then m[s.leases.next := s.pool.available[0]] else m
    case LeaseCreated(ok) => if ok then m[s.leases.next := NewHost(s, s.pool.lock.stage.port)] else m
    case ProbePassed(id) => if id in m then m[id := m[id].(tested := true)] else m
    case ProbeFailed(id) => m - {id}
    case ReturnLock => m - {s.leases.returning.value}
    case Collect => map[]
    case _ => m
  }

  lemma SameGrant(a: Leases, b: Leases, h: Host)
    requires a.(waiting := {}) == b.(waiting := {})
    ensures Grant(a, h).(waiting := {}) == Grant(b, h).(waiting := {})
  {
    SameBut(a, b);
  }

  lemma LeasesMove(c: Config, s: State, l: Label)
    requires Enabled(s, l)
    ensures Next(c, s, l).leases.(waiting := {}) == LeasesAfter(s, l).(waiting := {})
  {
    hide Grant, LockForLease, FinishSpawn, PassProbe, FailProbe, LockForReturn, AbortLeases, AbortCleanup, Values;
    match l {
      case LeaseLock(task) =>
        LockFields(c, s, task);
        if s.pool.available != [] {
          SameGrant(s.leases.(waiting := s.leases.waiting - {task}), s.leases, s.pool.available[0]);
        }
      case LeaseCreated(ok) => SpawnFields(s, ok);
      case ProbePassed(id) => PassFields(s, id);
      case ProbeFailed(id) => FailFields(s, id);
      case ReturnLock => ReturnFields(c, s);
      case CancelProbing(_) =>
      case DropLease(_) =>
      case ReceiveLease =>
      case AbortWorkers =>
      case Collect =>
      case _ => OwnersFootprint(c, s, l);
    }
  }

  lemma TableMoves(c: Config, s: State, l: Label)
    requires Enabled(s, l)
    ensures Next(c, s, l).pool.leased == TableAfter(s, l)
  {
    hide Grant, LockForLease, FinishSpawn, PassProbe, FailProbe, LockForReturn, AbortLeases, AbortCleanup, Values;
    match l {
      case LeaseLock(task) => LockFields(c, s, task);
      case LeaseCreated(ok) => SpawnFields(s, ok);
      case ProbePassed(id) => PassFields(s, id);
      case ProbeFailed(id) => FailFields(s, id);
      case ReturnLock => ReturnFields(c, s);
      case CancelProbing(_) =>
      case DropLease(_) =>
      case ReceiveLease =>
      case AbortWorkers =>
      case Collect =>
      case _ => TableFootprint(c, s, l);
    }
  }

  /** Both together, field by field. */
  lemma LeasesNow(c: Config, s: State, l: Label)
    requires Enabled(s, l)
    ensures var t, u := Next(c, s, l).leases, LeasesAfter(s, l);
            && t.probing == u.probing && t.live == u.live && t.channel == u.channel && t.returning == u.returning
            && t.lost == u.lost && t.abandoned == u.abandoned && t.orphaned == u.orphaned && t.next == u.next
    ensures Next(c, s, l).pool.leased == TableAfter(s, l)
  {
    hide Next, LeasesAfter, TableAfter;
    LeasesMove(c, s, l);
    TableMoves(c, s, l);
    SameBut(Next(c, s, l).leases, LeasesAfter(s, l));
  }

  lemma OwnersStay(c: Config, s: State, l: Label, id: LeaseId)
    requires InOrder(s, id) && Enabled(s, l) && !MovesOwners(l)
    ensures InOrder(Next(c, s, l), id)
  {
    LeasesStay(c, s, l);
    hide Next;
  }

  lemma LeaseLawAt(c: Config, s: State, l: Label, id: LeaseId)
    requires LeaseLaw(s) && Enabled(s, l)
    ensures InOrder(Next(c, s, l), id)
  {
    hide InOrder, LockForLease, FinishSpawn, PassProbe, FailProbe, AbandonProbe, SendLease, TakeLease, LockForReturn, Abort;
    hide CollectHosts;
    match l {
      case LeaseLock(task) => LeaseLockOwned(c, s, task, id);
      case LeaseCreated(ok) => SpawnOwned(s, ok, id);
      case ProbePassed(x) => PassOwned(s, x, id);
      case ProbeFailed(x) => FailOwned(s, x, id);
      case CancelProbing(x) => AbandonOwned(s, x, id);
      case DropLease(x) => SendOwned(s, x, id);
      case ReceiveLease => ReceiveOwned(s, id);
      case ReturnLock => ReturnOwned(c, s, id);
      case AbortWorkers => AbortOwned(s, id);
      case Collect => CollectOwned(s, id);
      case _ => OwnersStay(c, s, l, id);
    }
  }

  lemma ReturnedIsTested(c: Config, s: State)
    requires s.leases.returning.Some? && s.pool.lock.Free? && InOrder(s, s.leases.returning.value)
    ensures var lock := LockForReturn(c, s).pool.lock; lock.Checking? ==> lock.host.tested
  {
  }

  lemma CheckingBegins(c: Config, s: State, l: Label)
    requires Enabled(s, l) && !l.ReturnLock? && Next(c, s, l).pool.lock.Checking?
    ensures Next(c, s, l).pool.lock == s.pool.lock
  {
    LockMoves(c, s, l);
    hide Next;
  }

  lemma LeaseLawStep(c: Config, s: State, l: Label)
    requires LeaseLaw(s) && Enabled(s, l)
    ensures LeaseLaw(Next(c, s, l))
  {
    hide InOrder;
    forall id: LeaseId ensures InOrder(Next(c, s, l), id) { LeaseLawAt(c, s, l, id); }
    if l.ReturnLock? {
      ReturnedIsTested(c, s);
    } else {
      hide Next;
      if Next(c, s, l).pool.lock.Checking? { CheckingBegins(c, s, l); }
    }
  }
}
