/** The port allocator as a step system on values: a FIFO of free ports whose returns travel
    through a bounded channel and the hand of a background processor before they are queued again. */
module PortSpec {
  import opened Bags

  type Port = nat

  const CHANNEL_CAPACITY: nat := 1000

  /** `open`: the return processor holds its end of the channel. `live` holds the ports of the
      `AllocatedPort`s that exist, `leaked` those whose return found the channel full or closed, or was in
      transit when it closed. `granted` and `sent` are histories: every port handed out, and every port
      whose return entered the channel, in order. */
  datatype PortState = PortState(
    queue: seq<Port>,
    hand: Option<Port>,
    channel: seq<Port>,
    open: bool,
    live: multiset<Port>,
    leaked: multiset<Port>,
    granted: seq<Port>,
    sent: seq<Port>)

  datatype PortStep = Allocate | Release(port: Port) | Receive | Requeue | Close

  function Fresh(lo: nat, hi: nat): PortState
    requires lo <= hi
  {
    PortState(Span(lo, hi), None, [], true, multiset{}, multiset{}, [], [])
  }

  /** A port that was given back since p: its return was accepted after p, or found the channel full. */
  ghost predicate GivenBack(p: PortState, q: PortState, port: Port) {
    p.sent <= q.sent && (port in q.sent[|p.sent|..] || port in q.leaked)
  }

  predicate Can(s: PortState, step: PortStep) {
    match step
    case Allocate => true
    case Release(p) => p in s.live
    case Receive => s.hand.None? && s.channel != []
    case Requeue => s.hand.Some?
    case Close => s.open
  }

  /** Whether a return would enter the channel. */
  predicate Accepts(s: PortState) {
    s.open && |s.channel| < CHANNEL_CAPACITY
  }

  /** One atomic step. A refused allocation changes nothing; a release that finds the channel full or
      closed leaks its port; a requeued duplicate is dropped. The channel closes when the processor is torn
      down with the runtime, and whatever was in transit is gone. */
  function Do(s: PortState, step: PortStep): PortState
    requires Can(s, step)
  {
    match step
    case Allocate =>
      if s.queue == [] then s
      else s.(queue := s.queue[1..],
              live := s.live + multiset{s.queue[0]},
              granted := s.granted + [s.queue[0]])
    case Release(p) =>
      if Accepts(s)
      then s.(channel := s.channel + [p], live := s.live - multiset{p}, sent := s.sent + [p])
      else s.(live := s.live - multiset{p}, leaked := s.leaked + multiset{p})
    case Receive =>
      s.(hand := Some(s.channel[0]), channel := s.channel[1..])
    case Requeue =>
      s.(hand := None,
         queue := if s.hand.value in s.queue then s.queue else s.queue + [s.hand.value])
    case Close =>
      s.(open := false, hand := None, channel := [], leaked := s.leaked + multiset(AsSeq(s.hand) + s.channel))
  }

  /** A run under any schedule: a step that cannot be taken when its turn comes is skipped. */
  function RunPorts(s: PortState, steps: seq<PortStep>): PortState
    decreases |steps|
  {
    if steps == [] then s
    else RunPorts(if Can(s, steps[0]) then Do(s, steps[0]) else s, steps[1..])
  }

  // ---- What every step keeps ----

  /** Every port not held by an `AllocatedPort` and not leaked, in the order it will be granted. */
  function Pending(s: PortState): seq<Port> {
    s.queue + AsSeq(s.hand) + s.channel
  }

  /** Each port of lo..hi is, exactly once, pending, live or leaked; and the grants so far followed
      by the pending ports are the initial queue followed by the accepted returns, of which a closed
      channel cuts off the end. */
  ghost predicate Sound(s: PortState, lo: nat, hi: nat) {
    && lo <= hi
    && multiset(Pending(s)) + s.live + s.leaked == multiset(Span(lo, hi))
    && s.granted + Pending(s) <= Span(lo, hi) + s.sent
    && (s.open ==> s.granted + Pending(s) == Span(lo, hi) + s.sent)
    && (!s.open ==> s.hand.None? && s.channel == [])
  }

  /** Everything that is somewhere is there once. */
  lemma SoundUnique(s: PortState, lo: nat, hi: nat)
    requires Sound(s, lo, hi)
    ensures Unique(multiset(Pending(s)) + s.live + s.leaked)
    ensures Unique(multiset(Pending(s))) && Unique(s.live)
  {
    SpanUnique(lo, hi);
    var all := multiset(Pending(s)) + s.live + s.leaked;
    forall x | x in multiset(Pending(s)) ensures multiset(Pending(s))[x] == 1 { assert x in all; }
    forall x | x in s.live ensures s.live[x] == 1 { assert x in all; }
  }

  lemma SoundSizes(s: PortState, lo: nat, hi: nat)
    requires Sound(s, lo, hi)
    ensures |Pending(s)| + |s.live| + |s.leaked| == hi - lo
  {
    assert |multiset(Pending(s)) + s.live + s.leaked| == |multiset(Span(lo, hi))|;
  }

  /** A received port is never already queued, so the duplicate branch is dead. */
  lemma HandNotQueued(s: PortState, lo: nat, hi: nat)
    requires Sound(s, lo, hi) && s.hand.Some?
    ensures s.hand.value !in s.queue
  {
    SoundUnique(s, lo, hi);
    if s.hand.value in s.queue {
      var i :| 0 <= i < |s.queue| && s.queue[i] == s.hand.value;
      UniqueSeq(Pending(s), i, |s.queue|);
    }
  }

  lemma PendingPops(s: PortState)
    requires s.queue != []
    ensures Pending(s) == [s.queue[0]] + Pending(Do(s, Allocate))
  {
  }

  lemma PendingPasses(s: PortState)
    ensures Can(s, Receive) ==> Pending(Do(s, Receive)) == Pending(s)
    ensures s.hand.Some? && s.hand.value !in s.queue ==> Pending(Do(s, Requeue)) == Pending(s)
  {
  }

  /** How one step moves the pending sequence. */
  lemma PendingMoves(s: PortState, step: PortStep)
    requires Can(s, step) && !step.Close?
    requires step.Requeue? ==> s.hand.value !in s.queue
    ensures var p := Pending(Do(s, step));
            match step
            case Allocate => if s.queue == [] then p == Pending(s)
                             else Pending(s) == [s.queue[0]] + p
            case Release(q) => p == if Accepts(s) then Pending(s) + [q] else Pending(s)
            case _ => p == Pending(s)
  {
    match step {
      case Allocate => if s.queue != [] { PendingPops(s); }
      case Release(_) =>
      case _ => PendingPasses(s);
    }
  }

  /** Closing the channel cuts what is in transit off the pending sequence. */
  lemma PendingCut(s: PortState)
    requires s.open
    ensures Pending(Do(s, Close)) == s.queue && Pending(s) == s.queue + (AsSeq(s.hand) + s.channel)
  {
  }

  lemma CutStream(s: PortState, stream: seq<Port>)
    requires s.open && s.granted + Pending(s) <= stream
    ensures Do(s, Close).granted + Pending(Do(s, Close)) <= stream
  {
    PendingCut(s);
    hide Pending;
    assert s.granted + Pending(s) == (s.granted + s.queue) + (AsSeq(s.hand) + s.channel);
  }

  lemma GrantStream(s: PortState)
    ensures Do(s, Allocate).granted + Pending(Do(s, Allocate)) == s.granted + Pending(s)
  {
    PendingMoves(s, Allocate);
    hide Pending;
    var t := Do(s, Allocate);
    if s.queue != [] { assert t.granted + Pending(t) == s.granted + ([s.queue[0]] + Pending(t)); }
  }

  lemma ReleaseStream(s: PortState, p: Port, initial: seq<Port>)
    requires p in s.live && s.granted + Pending(s) <= initial + s.sent
    requires s.open ==> s.granted + Pending(s) == initial + s.sent
    ensures var t := Do(s, Release(p));
            t.granted + Pending(t) <= initial + t.sent && (t.open ==> t.granted + Pending(t) == initial + t.sent)
  {
    PendingMoves(s, Release(p));
    hide Pending;
    var t := Do(s, Release(p));
    if Accepts(s) {
      assert t.granted + Pending(t) == (s.granted + Pending(s)) + [p];
      assert initial + t.sent == (initial + s.sent) + [p];
    }
  }

  lemma StepStream(s: PortState, step: PortStep, initial: seq<Port>)
    requires Can(s, step) && (step.Requeue? ==> s.hand.value !in s.queue)
    requires s.granted + Pending(s) <= initial + s.sent
    requires s.open ==> s.granted + Pending(s) == initial + s.sent
    ensures var t := Do(s, step);
            t.granted + Pending(t) <= initial + t.sent && (t.open ==> t.granted + Pending(t) == initial + t.sent)
  {
    hide Pending;
    match step {
      case Allocate => GrantStream(s);
      case Release(p) => ReleaseStream(s, p, initial);
      case Close => CutStream(s, initial + s.sent);
      case _ => PendingMoves(s, step);
    }
  }

  lemma CutBag(s: PortState)
    requires s.open
    ensures var t := Do(s, Close);
            multiset(Pending(t)) + t.live + t.leaked == multiset(Pending(s)) + s.live + s.leaked
  {
    PendingCut(s);
    hide Pending;
  }

  lemma StepBag(s: PortState, step: PortStep)
    requires Can(s, step) && (step.Requeue? ==> s.hand.value !in s.queue)
    ensures var t := Do(s, step);
            multiset(Pending(t)) + t.live + t.leaked == multiset(Pending(s)) + s.live + s.leaked
  {
    if step.Close? {
      CutBag(s);
    } else {
      PendingMoves(s, step);
      hide Pending;
      var t := Do(s, step);
      if step.Allocate? && s.queue != [] {
        assert multiset(Pending(s)) == multiset{s.queue[0]} + multiset(Pending(t));
      }
    }
  }

  lemma StepSound(s: PortState, step: PortStep, lo: nat, hi: nat)
    requires Sound(s, lo, hi) && Can(s, step)
    ensures Sound(Do(s, step), lo, hi)
  {
    if step.Requeue? { HandNotQueued(s, lo, hi); }
    StepBag(s, step);
    StepStream(s, step, Span(lo, hi));
  }

  lemma {:induction false} RunSound(s: PortState, steps: seq<PortStep>, lo: nat, hi: nat)
    requires Sound(s, lo, hi)
    ensures Sound(RunPorts(s, steps), lo, hi)
    decreases |steps|
  {
    if steps != [] {
      if Can(s, steps[0]) { StepSound(s, steps[0], lo, hi); }
      RunSound(if Can(s, steps[0]) then Do(s, steps[0]) else s, steps[1..], lo, hi);
    }
  }

  lemma FreshSound(lo: nat, hi: nat)
    requires lo <= hi
    ensures Sound(Fresh(lo, hi), lo, hi)
  {
    assert Pending(Fresh(lo, hi)) == Span(lo, hi);
  }

  // ---- The channel is never full when the range fits in it ----

  lemma ReleaseNeverFull(s: PortState, p: Port, lo: nat, hi: nat)
    requires Sound(s, lo, hi) && hi - lo <= CHANNEL_CAPACITY && p in s.live
    ensures |s.channel| < CHANNEL_CAPACITY
  {
    SoundSizes(s, lo, hi);
    assert multiset{p} <= s.live;
    assert |s.live| == |s.live - multiset{p}| + 1;
  }

  predicate StaysOpen(steps: seq<PortStep>) {
    forall step :: step in steps ==> !step.Close?
  }

  lemma {:induction false} NeverLeaks(s: PortState, steps: seq<PortStep>, lo: nat, hi: nat)
    requires Sound(s, lo, hi) && hi - lo <= CHANNEL_CAPACITY && s.leaked == multiset{} && s.open && StaysOpen(steps)
    ensures RunPorts(s, steps).leaked == multiset{}
    decreases |steps|
  {
    if steps != [] {
      assert !steps[0].Close? && StaysOpen(steps[1..]);
      if Can(s, steps[0]) {
        if steps[0].Release? { ReleaseNeverFull(s, steps[0].port, lo, hi); }
        StepSound(s, steps[0], lo, hi);
      }
      NeverLeaks(if Can(s, steps[0]) then Do(s, steps[0]) else s, steps[1..], lo, hi);
    }
  }

  // ---- Refinement of a synchronous queue ----

  /** A queue whose returns are immediate: what the allocator looks like if transit is invisible. */
  datatype Fifo = Fifo(free: seq<Port>, live: multiset<Port>, leaked: multiset<Port>)

  datatype FifoStep = Pop | Push(port: Port) | Lose(port: Port) | Cut(left: nat) | Stay

  function Abstract(s: PortState): Fifo {
    Fifo(Pending(s), s.live, s.leaked)
  }

  ghost predicate FifoNext(f: Fifo, step: FifoStep, g: Fifo) {
    match step
    case Pop => f.free != [] && f.free == [f.free[0]] + g.free && g.live == f.live + multiset{f.free[0]} && g.leaked == f.leaked
    case Push(p) => p in f.live && g == Fifo(f.free + [p], f.live - multiset{p}, f.leaked)
    case Lose(p) => p in f.live && g == Fifo(f.free, f.live - multiset{p}, f.leaked + multiset{p})
    case Cut(n) => n <= |f.free| && g == Fifo(f.free[..n], f.live, f.leaked + multiset(f.free[n..]))
    case Stay => g == f
  }

  function FifoImage(s: PortState, step: PortStep): FifoStep
    requires Can(s, step)
  {
    match step
    case Allocate => if s.queue == [] then Stay else Pop
    case Release(p) => if Accepts(s) then Push(p) else Lose(p)
    case Receive => Stay
    case Requeue => Stay
    case Close => Cut(|s.queue|)
  }

  /** Every allocator step is a step of the synchronous queue. The only difference is that an
      allocation may be refused, which happens exactly when every pending port is still in transit. */
  lemma RefinesFifo(s: PortState, step: PortStep, lo: nat, hi: nat)
    requires Sound(s, lo, hi) && Can(s, step)
    ensures FifoNext(Abstract(s), FifoImage(s, step), Abstract(Do(s, step)))
    ensures step.Allocate? && FifoImage(s, step).Stay? <==>
            step.Allocate? && Pending(s) == AsSeq(s.hand) + s.channel
    ensures step.Allocate? && FifoImage(s, step).Pop? ==>
            Do(s, step).granted == s.granted + [Abstract(s).free[0]]
  {
    hide Sound, FifoNext, Pending;
    match step {
      case Allocate => RefinesGrant(s);
      case Release(p) => RefinesRelease(s, p);
      case Receive => RefinesReturn(s, step, lo, hi);
      case Requeue => RefinesReturn(s, step, lo, hi);
      case Close => RefinesCut(s);
    }
  }

  lemma RefinesGrant(s: PortState)
    ensures FifoNext(Abstract(s), FifoImage(s, Allocate), Abstract(Do(s, Allocate)))
    ensures s.queue == [] <==> Pending(s) == AsSeq(s.hand) + s.channel
    ensures s.queue != [] ==> Pending(s) != [] && s.queue[0] == Pending(s)[0]
  {
    PendingMoves(s, Allocate);
    if s.queue == [] {
      assert Pending(s) == AsSeq(s.hand) + s.channel;
    } else {
      assert |Pending(s)| > |AsSeq(s.hand) + s.channel|;
    }
  }

  lemma RefinesRelease(s: PortState, p: Port)
    requires p in s.live
    ensures FifoNext(Abstract(s), FifoImage(s, Release(p)), Abstract(Do(s, Release(p))))
  {
    PendingMoves(s, Release(p));
    hide Pending;
  }

  lemma RefinesReturn(s: PortState, step: PortStep, lo: nat, hi: nat)
    requires Sound(s, lo, hi) && Can(s, step) && (step.Receive? || step.Requeue?)
    ensures Abstract(Do(s, step)) == Abstract(s) && FifoNext(Abstract(s), Stay, Abstract(Do(s, step)))
  {
    if step.Requeue? { HandNotQueued(s, lo, hi); }
    hide Sound;
    PendingMoves(s, step);
  }

  lemma RefinesCut(s: PortState)
    requires s.open
    ensures FifoNext(Abstract(s), Cut(|s.queue|), Abstract(Do(s, Close)))
  {
    PendingCut(s);
    hide Pending;
    assert Pending(s)[|s.queue|..] == AsSeq(s.hand) + s.channel && Pending(s)[..|s.queue|] == s.queue;
  }

  // ---- The reuse grace period ----

  lemma {:induction false} HistoriesGrow(s: PortState, steps: seq<PortStep>)
    ensures s.granted <= RunPorts(s, steps).granted && s.sent <= RunPorts(s, steps).sent
    ensures s.leaked <= RunPorts(s, steps).leaked
    decreases |steps|
  {
    if steps != [] {
      HistoriesGrow(if Can(s, steps[0]) then Do(s, steps[0]) else s, steps[1..]);
    }
  }

  /** In the later grant history the next `ahead` grants are of other ports, and the one after them,
      if it has happened, is of p. */
  ghost predicate ReusedAfter(granted: seq<Port>, later: seq<Port>, ahead: int, p: Port) {
    && 0 <= ahead
    && granted <= later
    && (forall i :: |granted| <= i < |later| && i < |granted| + ahead ==> later[i] != p)
    && (|granted| + ahead < |later| ==> later[|granted| + ahead] == p)
  }

  /** A port whose return is accepted with k ports pending is granted again by the (k+1)-th later
      allocation, if that comes, and by none before it; k is the range size less the live and the leaked
      ports. */
  lemma ReuseDistance(s: PortState, p: Port, steps: seq<PortStep>, lo: nat, hi: nat)
    requires Sound(s, lo, hi) && p in s.live && Accepts(s)
    ensures ReusedAfter(s.granted, RunPorts(Do(s, Release(p)), steps).granted, hi - lo - |s.live| - |s.leaked|, p)
  {
    hide Sound, RunPorts, ReusedAfter;
    var s1 := Do(s, Release(p));
    var t := RunPorts(s1, steps);
    SoundSizes(s, lo, hi);
    HistoriesGrow(s1, steps);
    StepSound(s, Release(p), lo, hi);
    PendingMoves(s, Release(p));
    StreamGrows(s1, steps, lo, hi);
    LiveNotPending(s, p, lo, hi);
    assert s1.granted + Pending(s1) == s.granted + Pending(s) + [p];
    hide Pending;
    StreamPositions(s.granted, Pending(s), p, t.granted, Span(lo, hi) + t.sent);
  }

  /** The initial queue followed by the accepted returns: what was granted and what is pending are at its
      beginning, and later states only extend it. */
  lemma StreamGrows(s: PortState, steps: seq<PortStep>, lo: nat, hi: nat)
    requires Sound(s, lo, hi)
    ensures var t := RunPorts(s, steps);
            s.granted + Pending(s) <= Span(lo, hi) + t.sent && t.granted <= Span(lo, hi) + t.sent
  {
    RunSound(s, steps, lo, hi);
    HistoriesGrow(s, steps);
    var t := RunPorts(s, steps);
    assert Span(lo, hi) + s.sent <= Span(lo, hi) + t.sent;
    assert t.granted <= t.granted + Pending(t);
  }

  lemma LiveNotPending(s: PortState, p: Port, lo: nat, hi: nat)
    requires Sound(s, lo, hi) && p in s.live
    ensures p !in Pending(s)
  {
    var pending := multiset(Pending(s));
    assert pending[p] + s.live[p] <= (pending + s.live + s.leaked)[p];
    SoundUnique(s, lo, hi);
    assert p !in pending;
  }

  lemma StreamPositions(granted: seq<Port>, pending: seq<Port>, p: Port, later: seq<Port>, stream: seq<Port>)
    requires granted <= later <= stream && granted + pending + [p] <= stream && p !in pending
    ensures ReusedAfter(granted, later, |pending|, p)
  {
    var known := granted + pending + [p];
    assert forall i :: 0 <= i < |known| ==> stream[i] == known[i];
    forall i | |granted| <= i < |later| && i < |granted| + |pending| ensures later[i] != p {
      assert later[i] == stream[i] == known[i] == pending[i - |granted|];
    }
    if |granted| + |pending| < |later| {
      assert later[|granted| + |pending|] == stream[|granted| + |pending|] == known[|granted| + |pending|];
    }
  }

  // ---- Sufficiency and the drained state ----

  /** With nothing in transit and nothing leaked, fewer live ports than the range means a free port. */
  lemma Sufficient(s: PortState, lo: nat, hi: nat)
    requires Sound(s, lo, hi) && s.leaked == multiset{} && s.hand.None? && s.channel == []
    requires |s.live| < hi - lo
    ensures s.queue != []
  {
    SoundSizes(s, lo, hi);
  }

  /** The processor left alone until it has nothing to do. */
  function DrainSteps(s: PortState): seq<PortStep>
    decreases |s.channel|, if s.hand.Some? then 1 else 0
  {
    if s.hand.Some? then [Requeue] + DrainSteps(Do(s, Requeue))
    else if s.channel != [] then [Receive, Requeue] + DrainSteps(Do(Do(s, Receive), Requeue))
    else []
  }

  lemma {:induction false} DrainResult(s: PortState, lo: nat, hi: nat)
    requires Sound(s, lo, hi)
    ensures RunPorts(s, DrainSteps(s)) == s.(queue := Pending(s), hand := None, channel := [])
    decreases |s.channel|, if s.hand.Some? then 1 else 0
  {
    if s.hand.Some? {
      var t := Do(s, Requeue);
      HandNotQueued(s, lo, hi);
      PendingMoves(s, Requeue);
      StepSound(s, Requeue, lo, hi);
      DrainResult(t, lo, hi);
      assert DrainSteps(s)[1..] == DrainSteps(t);
    } else if s.channel != [] {
      var r := Do(s, Receive);
      var t := Do(r, Requeue);
      PendingMoves(s, Receive);
      StepSound(s, Receive, lo, hi);
      HandNotQueued(r, lo, hi);
      PendingMoves(r, Requeue);
      StepSound(r, Requeue, lo, hi);
      DrainResult(t, lo, hi);
      assert DrainSteps(s)[1..][1..] == DrainSteps(t);
      assert DrainSteps(s)[1..][0] == Requeue;
    } else {
      assert Pending(s) == s.queue;
    }
  }

  // ---- The processor among users of the allocator ----

  lemma {:induction false} RunPortsConcat(s: PortState, a: seq<PortStep>, b: seq<PortStep>)
    ensures RunPorts(s, a + b) == RunPorts(RunPorts(s, a), b)
    decreases |a|
  {
    if a == [] {
      assert a + b == b;
    } else {
      assert (a + b)[1..] == a[1..] + b;
      RunPortsConcat(if Can(s, a[0]) then Do(s, a[0]) else s, a[1..], b);
    }
  }

  /** What the processor does when it runs next. */
  function ProcessorStep(s: PortState): seq<PortStep> {
    if s.hand.Some? then [Requeue] else if s.channel != [] then [Receive] else []
  }

  /** Others run before each of its steps, and once they are done it runs on until it would wait. */
  function Interleaved(s: PortState, turns: seq<seq<PortStep>>): seq<PortStep>
    decreases |turns|
  {
    if turns == [] then DrainSteps(s)
    else
      var t := RunPorts(s, turns[0]);
      turns[0] + ProcessorStep(t) + Interleaved(RunPorts(t, ProcessorStep(t)), turns[1..])
  }

  lemma InterleavedStep(s: PortState, turns: seq<seq<PortStep>>)
    requires turns != []
    ensures var t := RunPorts(s, turns[0]);
            var u := RunPorts(t, ProcessorStep(t));
            RunPorts(s, Interleaved(s, turns)) == RunPorts(u, Interleaved(u, turns[1..]))
  {
    var t := RunPorts(s, turns[0]);
    var u := RunPorts(t, ProcessorStep(t));
    RunPortsConcat(s, turns[0] + ProcessorStep(t), Interleaved(u, turns[1..]));
    RunPortsConcat(s, turns[0], ProcessorStep(t));
  }

  /** Whatever its users do meanwhile, the processor ends with nothing in transit, every return it was sent
      queued once and in the order of sending behind what is left of the queue. */
  lemma {:induction false} InterleavedResult(s: PortState, turns: seq<seq<PortStep>>, lo: nat, hi: nat)
    requires Sound(s, lo, hi)
    ensures var t := RunPorts(s, Interleaved(s, turns));
            && t.hand.None? && t.channel == []
            && Sound(t, lo, hi) && (t.open ==> t.granted + t.queue == Span(lo, hi) + t.sent)
    decreases |turns|
  {
    RunSound(s, Interleaved(s, turns), lo, hi);
    if turns == [] {
      DrainResult(s, lo, hi);
    } else {
      InterleavedStep(s, turns);
      hide Interleaved, ProcessorStep, Sound;
      RunSound(s, turns[0], lo, hi);
      var t := RunPorts(s, turns[0]);
      RunSound(t, ProcessorStep(t), lo, hi);
      InterleavedResult(RunPorts(t, ProcessorStep(t)), turns[1..], lo, hi);
    }
    assert Pending(RunPorts(s, Interleaved(s, turns))) == RunPorts(s, Interleaved(s, turns)).queue;
  }

  /** Once drained, with no `AllocatedPort` left and nothing leaked, the queue is the range again. */
  lemma DrainedIsWhole(s: PortState, lo: nat, hi: nat)
    requires Sound(s, lo, hi) && s.live == multiset{} && s.leaked == multiset{}
    ensures multiset(RunPorts(s, DrainSteps(s)).queue) == multiset(Span(lo, hi))
  {
    DrainResult(s, lo, hi);
  }
}
