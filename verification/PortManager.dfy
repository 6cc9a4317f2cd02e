/** The port manager: free ports in a `QueueSet`, returns arriving through a bounded channel. */
module PortManagers {
  import opened Bags
  import opened QueueSets
  import opened PortSpec

  /** Steps that are not the return processor's. */
  predicate UsersOnly(steps: seq<PortStep>) {
    forall step :: step in steps ==> step.Allocate? || step.Release?
  }

  class PortManager {
    const availablePorts: QueueSet<Port>
    var channel: seq<Port>
    var hand: Option<Port>
    var processorAlive: bool

    // Bookkeeping: which `AllocatedPort`s exist, and what has happened so far.
    var live: multiset<Port>
    var leaked: multiset<Port>
    var granted: seq<Port>
    var sent: seq<Port>

    ghost predicate Valid()
      reads this, availablePorts
    {
      availablePorts.Valid()
    }

    function View(): PortState
      reads this, availablePorts
    {
      PortState(availablePorts.queue, hand, channel, processorAlive, live, leaked, granted, sent)
    }

    constructor (lo: nat, hi: nat)
      requires lo <= hi
      ensures Valid() && fresh(availablePorts)
      ensures View() == Fresh(lo, hi)
    {
      var ports := new QueueSet<Port>();
      for port := lo to hi
        invariant fresh(ports) && ports.Valid()
        invariant ports.queue == Span(lo, port)
      {
        assert Span(lo, port + 1) == Span(lo, port) + [port];
        var inserted := ports.PushBack(port);
      }
      availablePorts := ports;
      channel, hand, processorAlive := [], None, true;
      live, leaked, granted, sent := multiset{}, multiset{}, [], [];
    }

    /** Pops the oldest free port; the caller owns the `AllocatedPort` made for it. */
    method AllocatePort() returns (port: Option<Port>)
      requires Valid()
      modifies this, availablePorts
      ensures Valid()
      ensures View() == Do(old(View()), Allocate)
      ensures port == if old(availablePorts.queue) == [] then None else Some(old(availablePorts.queue)[0])
    {
      port := availablePorts.PopFront();
      if port.Some? {
        live := live + multiset{port.value};
        granted := granted + [port.value];
      }
    }

    /** The destructor of an `AllocatedPort`: a send that never waits, and may find the channel full or
        closed. */
    method DropAllocatedPort(port: Port)
      requires Valid() && port in live
      modifies this
      ensures Valid()
      ensures View() == Do(old(View()), Release(port))
      ensures port in channel || port in leaked
    {
      live := live - multiset{port};
      if !processorAlive {
        leaked := leaked + multiset{port};
      } else if |channel| < CHANNEL_CAPACITY {
        channel := channel + [port];
        sent := sent + [port];
      } else {
        leaked := leaked + multiset{port};
      }
    }

    /** The return processor is torn down with the runtime: its end of the channel closes. */
    method StopProcessor()
      requires Valid() && processorAlive
      modifies this
      ensures Valid()
      ensures View() == Do(old(View()), Close)
      ensures !processorAlive && channel == [] && hand.None?
    {
      LoseTransit(multiset(AsSeq(hand) + channel));
      processorAlive := false;
    }

    method LoseTransit(transit: multiset<Port>)
      modifies this`leaked, this`hand, this`channel
      ensures View() == old(View()).(hand := None, channel := [], leaked := old(leaked) + transit)
      ensures hand.None? && channel == []
    {
      leaked, hand, channel := leaked + transit, None, [];
    }

    method ReceiveReturn()
      requires Valid() && hand.None? && channel != []
      modifies this
      ensures Valid()
      ensures View() == Do(old(View()), Receive)
    {
      hand := Some(channel[0]);
      channel := channel[1..];
    }

    method RequeueReturn() returns (successful: bool)
      requires Valid() && hand.Some?
      modifies this, availablePorts
      ensures Valid()
      ensures View() == Do(old(View()), Requeue)
      ensures successful <==> old(hand).value !in old(availablePorts.queue)
    {
      successful := availablePorts.PushBack(hand.value);
      hand := None;
    }

    /** Other tasks use the allocator: a step that cannot be taken when its turn comes is skipped. */
    method Use(steps: seq<PortStep>)
      requires Valid() && UsersOnly(steps)
      modifies this, availablePorts
      ensures Valid()
      ensures View() == RunPorts(old(View()), steps)
    {
      ghost var start := View();
      for i := 0 to |steps|
        invariant Valid()
        invariant RunPorts(View(), steps[i..]) == RunPorts(start, steps)
      {
        assert steps[i] in steps;
        assert steps[i..][1..] == steps[i + 1..];
        match steps[i] {
          case Allocate => var _ := AllocatePort();
          case Release(port) => if port in live { DropAllocatedPort(port); }
        }
      }
    }

    /** The return loop. Others run before each of its steps for as long as they have turns; then it runs on
        until it would wait for the next return. */
    method ProcessPortReturns(turns: seq<seq<PortStep>>)
      requires Valid() && forall turn :: turn in turns ==> UsersOnly(turn)
      modifies this, availablePorts
      ensures Valid()
      ensures View() == RunPorts(old(View()), Interleaved(old(View()), turns))
      ensures hand.None? && channel == []
    {
      ghost var start := View();
      for i := 0 to |turns|
        invariant Valid()
        invariant RunPorts(View(), Interleaved(View(), turns[i..])) == RunPorts(start, Interleaved(start, turns))
      {
        InterleavedStep(View(), turns[i..]);
        assert turns[i..][1..] == turns[i + 1..];
        Use(turns[i]);
        TakeTurn();
      }
      Drain();
    }

    method TakeTurn()
      requires Valid()
      modifies this, availablePorts
      ensures Valid()
      ensures View() == RunPorts(old(View()), ProcessorStep(old(View())))
    {
      ghost var start := View();
      if hand.Some? {
        var _ := RequeueReturn();
        assert RunPorts(start, [Requeue]) == RunPorts(Do(start, Requeue), []) by { assert [Requeue][1..] == []; }
      } else if channel != [] {
        ReceiveReturn();
        assert RunPorts(start, [Receive]) == RunPorts(Do(start, Receive), []) by { assert [Receive][1..] == []; }
      }
    }

    method Drain()
      requires Valid()
      modifies this, availablePorts
      ensures Valid()
      ensures View() == RunPorts(old(View()), DrainSteps(old(View())))
      ensures hand.None? && channel == []
    {
      ghost var start := View();
      if hand.Some? {
        var _ := RequeueReturn();
      }
      while channel != []
        invariant Valid() && hand.None?
        invariant RunPorts(View(), DrainSteps(View())) == RunPorts(start, DrainSteps(start))
        decreases |channel|
      {
        ghost var before := View();
        ReceiveReturn();
        var _ := RequeueReturn();
        assert DrainSteps(before)[1..][1..] == DrainSteps(View());
        assert DrainSteps(before)[1..][0] == Requeue;
      }
    }
  }
}
