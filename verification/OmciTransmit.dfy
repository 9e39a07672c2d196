/**
  Transmission on the OMCI channel: the two queues that are drained one after the other while new requests keep
  arriving.
*/
module OmciTransmit {

  type Request = nat   // stands for a queued frame

  /** What happened, in order.  `HighEmpty` records that the high-priority drain found its queue empty when so many
      high-priority requests had arrived. */
  datatype Event =
    | Sent(req: Request, high: bool)
    | Dropped(req: Request, high: bool)
    | HighEmpty(arrived: nat)

  predicate Leaves(e: Event, high: bool) {
    !e.HighEmpty? && e.high == high
  }

  function Departure(req: Request, high: bool, fails: bool): Event {
    if fails then Dropped(req, high) else Sent(req, high)
  }

  /** The requests of one priority that left, in order. */
  function Left(log: seq<Event>, high: bool): seq<Request> {
    if log == [] then []
    else Left(log[..|log| - 1], high) + if Leaves(log[|log| - 1], high) then [log[|log| - 1].req] else []
  }

  /** Every low-priority request left right after the high-priority queue was found empty, and at that moment all
      high-priority requests that had arrived were gone. */
  ghost predicate HighFirst(log: seq<Event>) {
    && (forall i | 0 <= i < |log| && Leaves(log[i], false) :: i > 0 && log[i - 1].HighEmpty?)
    && (forall i | 0 <= i < |log| && log[i].HighEmpty? :: log[i].arrived == |Left(log[..i], true)|)
  }

  lemma {:induction false} LeftSnoc(log: seq<Event>, e: Event, high: bool)
    ensures Left(log + [e], high) == Left(log, high) + if Leaves(e, high) then [e.req] else []
  {
    assert (log + [e])[..|log|] == log;
  }

  lemma {:induction false} HighFirstSnoc(log: seq<Event>, e: Event)
    requires HighFirst(log)
    requires Leaves(e, false) ==> log != [] && log[|log| - 1].HighEmpty?
    requires e.HighEmpty? ==> e.arrived == |Left(log, true)|
    ensures HighFirst(log + [e])
  {
    var all := log + [e];
    forall i | 0 <= i < |all| && all[i].HighEmpty? ensures all[i].arrived == |Left(all[..i], true)| {
      assert all[..i] == log[..i];
    }
  }

  /** Between any two low-priority sends the high-priority queue was observed empty. */
  lemma {:induction false} ObservedBetween(log: seq<Event>, i: nat, j: nat)
    requires HighFirst(log) && i < j < |log| && Leaves(log[i], false) && Leaves(log[j], false)
    ensures exists k :: i < k < j && log[k].HighEmpty? && log[k].arrived == |Left(log[..k], true)|
  {
    assert log[j - 1].HighEmpty?;
  }

  /** What the environment does around one step of a drain: new arrivals, and whether the next send fails. */
  datatype Moment = Moment(highArrivals: seq<Request>, lowArrivals: seq<Request>, sendFails: bool)

  /** Whether the send with this number fails. */
  predicate FailsAt(plan: seq<Moment>, send: nat) {
    send < |plan| && plan[send].sendFails
  }

  /** What arrives just before the send with this number. */
  function ArrivingAt(plan: seq<Moment>, send: nat, high: bool): seq<Request> {
    if send >= |plan| then [] else if high then plan[send].highArrivals else plan[send].lowArrivals
  }

  /** What arrives from one send up to another. */
  function Arrivals(plan: seq<Moment>, first: nat, end: nat, high: bool): seq<Request>
    decreases end
  {
    if first >= end then [] else Arrivals(plan, first, end - 1, high) + ArrivingAt(plan, end - 1, high)
  }

  /** For every departure, in order, whether it failed. */
  function Fates(log: seq<Event>): seq<bool> {
    if log == [] then []
    else Fates(log[..|log| - 1]) + if log[|log| - 1].HighEmpty? then [] else [log[|log| - 1].Dropped?]
  }

  /** Every departure had the fate that its moment decided. */
  ghost predicate Decided(plan: seq<Moment>, log: seq<Event>, sends: nat) {
    |Fates(log)| == sends && forall k | 0 <= k < sends :: Fates(log)[k] == FailsAt(plan, k)
  }

  lemma {:induction false} DecidedSnoc(plan: seq<Moment>, log: seq<Event>, e: Event, sends: nat)
    requires Decided(plan, log, sends) && (!e.HighEmpty? ==> e.Dropped? == FailsAt(plan, sends))
    ensures Decided(plan, log + [e], if e.HighEmpty? then sends else sends + 1)
  {
    assert (log + [e])[..|log|] == log;
  }

  // ---------------------------------------------------------------- the channel

  /** The two queues, the number of moments that have passed, what happened and what has arrived. */
  datatype Channel = Channel(high: seq<Request>, low: seq<Request>, sends: nat, log: seq<Event>,
                             highArrived: seq<Request>, lowArrived: seq<Request>)

  /** Both queues are first in, first out, and every request leaves exactly once: what left, followed by what is still
      queued, is what arrived. */
  ghost predicate Fifo(c: Channel) {
    match c
    case Channel(high, low, _, log, highArrived, lowArrived) =>
      Left(log, true) + high == highArrived && Left(log, false) + low == lowArrived
  }

  ghost predicate Sound(plan: seq<Moment>, c: Channel) {
    match c
    case Channel(_, _, sends, log, _, _) => Fifo(c) && HighFirst(log) && Decided(plan, log, sends)
  }

  /** The last thing that happened is that the high-priority queue was found empty. */
  ghost predicate SeenEmpty(c: Channel) { c.log != [] && c.log[|c.log| - 1].HighEmpty? }

  /** The last thing that happened is a failed send. */
  ghost predicate SeenFailure(c: Channel) { c.log != [] && c.log[|c.log| - 1].Dropped? }

  function Arrive(c: Channel, more: seq<Request>, high: bool): Channel {
    if high then c.(high := c.high + more, highArrived := c.highArrived + more)
    else c.(low := c.low + more, lowArrived := c.lowArrived + more)
  }

  /** The environment acts before a send. */
  function Interfered(plan: seq<Moment>, c: Channel): Channel {
    Arrive(Arrive(c, ArrivingAt(plan, c.sends, true), true), ArrivingAt(plan, c.sends, false), false)
  }

  /** The front request leaves, sent or dropped. */
  function Depart(c: Channel, high: bool, fails: bool): Channel
    requires if high then c.high != [] else c.low != []
  {
    var c1 := c.(sends := c.sends + 1, log := c.log + [Departure(if high then c.high[0] else c.low[0], high, fails)]);
    if high then c1.(high := c.high[1..]) else c1.(low := c.low[1..])
  }

  /** The drain finds the high-priority queue empty. */
  function Observe(c: Channel): Channel {
    c.(log := c.log + [HighEmpty(|c.highArrived|)])
  }

  lemma {:induction false} ArriveSound(plan: seq<Moment>, c: Channel, more: seq<Request>, high: bool)
    requires Sound(plan, c)
    ensures Sound(plan, Arrive(c, more, high))
  {
    if high { assert Left(c.log, true) + (c.high + more) == (Left(c.log, true) + c.high) + more; }
    else { assert Left(c.log, false) + (c.low + more) == (Left(c.log, false) + c.low) + more; }
  }

  lemma {:induction false} MovesOn(left: seq<Request>, queue: seq<Request>)
    requires queue != []
    ensures (left + [queue[0]]) + queue[1..] == left + queue
  {
  }

  lemma {:induction false} LogSound(plan: seq<Moment>, log: seq<Event>, e: Event, sends: nat)
    requires HighFirst(log) && Decided(plan, log, sends) && !e.HighEmpty? && e.Dropped? == FailsAt(plan, sends)
    requires Leaves(e, false) ==> log != [] && log[|log| - 1].HighEmpty?
    ensures HighFirst(log + [e]) && Decided(plan, log + [e], sends + 1)
  {
    HighFirstSnoc(log, e);
    DecidedSnoc(plan, log, e, sends);
  }

  lemma {:induction false} DepartFifo(c: Channel, high: bool, fails: bool)
    requires Fifo(c) && (if high then c.high != [] else c.low != [])
    ensures var d := Depart(c, high, fails);
            Fifo(d) && Left(d.log, false) == Left(c.log, false) + if high then [] else [c.low[0]]
  {
    var e := Departure(if high then c.high[0] else c.low[0], high, fails);
    LeftSnoc(c.log, e, true);
    LeftSnoc(c.log, e, false);
    if high { MovesOn(Left(c.log, true), c.high); } else { MovesOn(Left(c.log, false), c.low); }
  }

  lemma {:induction false} DepartSound(plan: seq<Moment>, c: Channel, high: bool)
    requires Sound(plan, c) && (if high then c.high != [] else c.low != [] && SeenEmpty(c))
    ensures Sound(plan, Depart(c, high, FailsAt(plan, c.sends)))
  {
    DepartFifo(c, high, FailsAt(plan, c.sends));
    LogSound(plan, c.log, Departure(if high then c.high[0] else c.low[0], high, FailsAt(plan, c.sends)), c.sends);
  }

  lemma {:induction false} InterferedSound(plan: seq<Moment>, c: Channel)
    requires Sound(plan, c)
    ensures Sound(plan, Interfered(plan, c))
  {
    var more := ArrivingAt(plan, c.sends, true);
    ArriveSound(plan, c, more, true);
    ArriveSound(plan, Arrive(c, more, true), ArrivingAt(plan, c.sends, false), false);
  }

  lemma {:induction false} ObserveSound(plan: seq<Moment>, c: Channel)
    requires Sound(plan, c) && c.high == []
    ensures Sound(plan, Observe(c)) && Left(Observe(c).log, false) == Left(c.log, false)
  {
    var e := HighEmpty(|c.highArrived|);
    assert Left(c.log, true) == c.highArrived;
    LeftSnoc(c.log, e, true);
    LeftSnoc(c.log, e, false);
    HighFirstSnoc(c.log, e);
    DecidedSnoc(plan, c.log, e, c.sends);
  }

  // ---------------------------------------------------------------- drains

  /** The part of a run from `a` to `b`: all its sends but the last succeeded, and it reports success exactly if the last one
      did too; what arrived is what the moments brought. */
  ghost predicate Drained(plan: seq<Moment>, a: Channel, b: Channel, ok: bool) {
    match a
    case Channel(_, _, first, log, high, low) =>
      && first <= b.sends && log <= b.log
      && (forall k | first <= k < b.sends - 1 :: !FailsAt(plan, k))
      && (ok <==> b.sends == first || !FailsAt(plan, b.sends - 1))
      && b.highArrived == high + Arrivals(plan, first, b.sends, true)
      && b.lowArrived == low + Arrivals(plan, first, b.sends, false)
  }

  lemma {:induction false} DrainedNone(plan: seq<Moment>, a: Channel)
    ensures Drained(plan, a, a, true)
  {
  }

  lemma {:induction false} ArrivalsJoin(plan: seq<Moment>, i: nat, j: nat, k: nat, high: bool)
    requires i <= j <= k
    ensures Arrivals(plan, i, k, high) == Arrivals(plan, i, j, high) + Arrivals(plan, j, k, high)
    decreases k
  {
    if j < k { ArrivalsJoin(plan, i, j, k - 1, high); }
  }

  lemma {:induction false} NothingArrives(plan: seq<Moment>, first: nat, end: nat, high: bool)
    requires first >= |plan|
    ensures Arrivals(plan, first, end, high) == []
    decreases end
  {
    if end > first { NothingArrives(plan, first, end - 1, high); }
  }

  /** Drains one after the other are one drain. */
  lemma {:induction false} DrainedMore(plan: seq<Moment>, a: Channel, b: Channel, c: Channel, ok: bool)
    requires Drained(plan, a, b, true) && Drained(plan, b, c, ok)
    ensures Drained(plan, a, c, ok)
  {
    ArrivalsJoin(plan, a.sends, b.sends, c.sends, true);
    ArrivalsJoin(plan, a.sends, b.sends, c.sends, false);
  }

  lemma {:induction false} OneDrained(plan: seq<Moment>, c: Channel, high: bool)
    requires if high then c.high != [] else c.low != []
    ensures Drained(plan, c, Depart(Interfered(plan, c), high, FailsAt(plan, c.sends)), !FailsAt(plan, c.sends))
  {
  }

  /** One send, and what arrives before it. */
  lemma {:induction false} OneHighSend(plan: seq<Moment>, c: Channel)
    requires Sound(plan, c) && c.high != []
    ensures var d := Depart(Interfered(plan, c), true, FailsAt(plan, c.sends));
            Sound(plan, d) && Drained(plan, c, d, !FailsAt(plan, c.sends)) && Left(d.log, false) == Left(c.log, false)
  {
    InterferedSound(plan, c);
    DepartSound(plan, Interfered(plan, c), true);
    DepartFifo(Interfered(plan, c), true, FailsAt(plan, c.sends));
    OneDrained(plan, c, true);
  }

  lemma {:induction false} OneLowSend(plan: seq<Moment>, c: Channel)
    requires Sound(plan, c) && c.low != [] && SeenEmpty(c)
    ensures var d := Depart(Interfered(plan, c), false, FailsAt(plan, c.sends));
            && Sound(plan, d) && Drained(plan, c, d, !FailsAt(plan, c.sends))
            && Left(d.log, false) == Left(c.log, false) + [c.low[0]]
  {
    InterferedSound(plan, c);
    DepartSound(plan, Interfered(plan, c), false);
    DepartFifo(Interfered(plan, c), false, FailsAt(plan, c.sends));
    OneDrained(plan, c, false);
  }

  lemma {:induction false} ObservedDrain(plan: seq<Moment>, a: Channel, b: Channel)
    requires Drained(plan, a, b, true)
    ensures Drained(plan, a, Observe(b), true)
  {
  }

  /** Once nothing arrives any more, a low-priority request that leaves makes its queue shorter. */
  lemma {:induction false} ShorterQueue(plan: seq<Moment>, a: Channel, b: Channel, ok: bool)
    requires Sound(plan, a) && Sound(plan, b) && Drained(plan, a, b, ok) && a.low != []
    requires Left(b.log, false) == Left(a.log, false) + [a.low[0]]
    ensures a.sends >= |plan| ==> |b.low| < |a.low|
  {
    if a.sends >= |plan| {
      NothingArrives(plan, a.sends, b.sends, false);
      assert |Left(b.log, false)| + |b.low| == |Left(a.log, false)| + |a.low|;
    }
  }

  /** Where no send fails, a drain succeeds. */
  lemma {:induction false} SucceedsWithoutFailure(plan: seq<Moment>, a: Channel, b: Channel, ok: bool)
    requires Drained(plan, a, b, ok) && forall k | a.sends <= k < |plan| :: !plan[k].sendFails
    ensures ok
  {
  }

  class OmciCC {
    const environment: seq<Moment>   // one for each send; afterwards nothing arrives and nothing fails
    var highPrioTxQueue: seq<Request>
    var lowPrioTxQueue: seq<Request>
    var sends: nat                   // how many moments have passed
    ghost var log: seq<Event>
    ghost var highArrived: seq<Request>
    ghost var lowArrived: seq<Request>

    ghost function View(): Channel
      reads this
    {
      Channel(highPrioTxQueue, lowPrioTxQueue, sends, log, highArrived, lowArrived)
    }

    ghost predicate Valid()
      reads this
    {
      Sound(environment, View())
    }

    /** The moments that are still to come. */
    ghost function Ahead(): nat
      reads this
    {
      if sends < |environment| then |environment| - sends else 0
    }

    constructor (environment: seq<Moment>)
      ensures Valid() && View() == Channel([], [], 0, [], [], []) && this.environment == environment
    {
      this.environment := environment;
      highPrioTxQueue, lowPrioTxQueue, sends := [], [], 0;
      log, highArrived, lowArrived := [], [], [];
    }

    method Enqueue(req: Request, high: bool)
      requires Valid()
      modifies this
      ensures Valid() && View() == Arrive(old(View()), [req], high)
    {
      ArriveSound(environment, View(), [req], high);
      if high {
        highPrioTxQueue, highArrived := highPrioTxQueue + [req], highArrived + [req];
      } else {
        lowPrioTxQueue, lowArrived := lowPrioTxQueue + [req], lowArrived + [req];
      }
    }

    /** The environment acts before a send: requests arrive, and the outcome of the send is decided. */
    method Interfere() returns (sendFails: bool)
      modifies this
      ensures View() == Interfered(environment, old(View())) && sendFails == FailsAt(environment, sends)
    {
      sendFails := false;
      if sends < |environment| {
        var m := environment[sends];
        highPrioTxQueue, highArrived := highPrioTxQueue + m.highArrivals, highArrived + m.highArrivals;
        lowPrioTxQueue, lowArrived := lowPrioTxQueue + m.lowArrivals, lowArrived + m.lowArrivals;
        sendFails := m.sendFails;
      }
    }

    method SendOneHighPrioRequest() returns (ok: bool)
      requires Valid() && highPrioTxQueue != []
      modifies this
      ensures Valid() && Drained(environment, old(View()), View(), ok) && (ok <==> !SeenFailure(View()))
      ensures sends == old(sends) + 1 && Left(log, false) == Left(old(log), false)
      ensures |highPrioTxQueue| + 1 == |old(highPrioTxQueue)| + |ArrivingAt(environment, old(sends), true)|
    {
      OneHighSend(environment, View());
      var fails := Interfere();
      log := log + [Departure(highPrioTxQueue[0], true, fails)];
      highPrioTxQueue, sends := highPrioTxQueue[1..], sends + 1;
      ok := !fails;
    }

    /** The drain that began in `start` finds the high-priority queue empty. */
    ghost method RecordEmpty(start: Channel)
      requires Valid() && highPrioTxQueue == [] && Drained(environment, start, View(), true)
      modifies this`log
      ensures Valid() && Drained(environment, start, View(), true) && SeenEmpty(View())
      ensures Left(log, false) == Left(old(log), false)
    {
      ObserveSound(environment, View());
      ObservedDrain(environment, start, View());
      log := log + [HighEmpty(|highArrived|)];
    }

    /** Success means that the queue was found empty; a failure, that the last request to leave was dropped. */
    method SendQueuedHighPrioRequests() returns (ok: bool)
      requires Valid()
      modifies this
      ensures Valid() && Drained(environment, old(View()), View(), ok)
      ensures if ok then highPrioTxQueue == [] && SeenEmpty(View()) else SeenFailure(View())
      ensures Left(log, false) == Left(old(log), false)
    {
      DrainedNone(environment, View());
      while highPrioTxQueue != []
        invariant Valid() && Drained(environment, old(View()), View(), true) && Left(log, false) == Left(old(log), false)
        decreases Ahead(), |highPrioTxQueue|
      {
        ghost var before := View();
        ok := SendOneHighPrioRequest();
        DrainedMore(environment, old(View()), before, View(), ok);
        if !ok {
          return false;
        }
      }
      RecordEmpty(old(View()));
      return true;
    }

    method SendLowPrioRequest() returns (ok: bool)
      requires Valid() && lowPrioTxQueue != [] && SeenEmpty(View())
      modifies this
      ensures Valid() && Drained(environment, old(View()), View(), ok) && (ok <==> !SeenFailure(View()))
      ensures sends == old(sends) + 1 && Left(log, false) == Left(old(log), false) + [old(lowPrioTxQueue)[0]]
    {
      OneLowSend(environment, View());
      var fails := Interfere();
      log := log + [Departure(lowPrioTxQueue[0], false, fails)];
      lowPrioTxQueue, sends := lowPrioTxQueue[1..], sends + 1;
      ok := !fails;
    }

    /** After every low-priority send the high-priority queue is drained again. */
    method SendOneLowPrioRequest() returns (ok: bool)
      requires Valid() && lowPrioTxQueue != [] && SeenEmpty(View())
      modifies this
      ensures Valid() && Drained(environment, old(View()), View(), ok) && sends > old(sends)
      ensures if ok then highPrioTxQueue == [] && SeenEmpty(View()) else SeenFailure(View())
      ensures Left(log, false) == Left(old(log), false) + [old(lowPrioTxQueue)[0]]
    {
      ok := SendLowPrioRequest();
      if ok {
        ghost var before := View();
        ok := SendQueuedHighPrioRequests();
        DrainedMore(environment, old(View()), before, View(), ok);
      }
    }

    /** Only a failed send ends the loop before the queue is empty. */
    method SendQueuedLowPrioRequests() returns (ok: bool)
      requires Valid() && SeenEmpty(View())
      modifies this
      ensures Valid() && Drained(environment, old(View()), View(), ok)
      ensures if ok then lowPrioTxQueue == [] && SeenEmpty(View())
                         && (old(highPrioTxQueue) == [] ==> highPrioTxQueue == [])
              else SeenFailure(View())
    {
      DrainedNone(environment, View());
      while lowPrioTxQueue != []
        invariant Valid() && SeenEmpty(View()) && Drained(environment, old(View()), View(), true)
        invariant old(highPrioTxQueue) == [] ==> highPrioTxQueue == []
        decreases Ahead(), |lowPrioTxQueue|
      {
        ghost var before := View();
        ok := SendOneLowPrioRequest();
        ShorterQueue(environment, before, View(), ok);
        DrainedMore(environment, old(View()), before, View(), ok);
        if !ok {
          return false;
        }
      }
      return true;
    }

    /** Both drains: with success everything that arrived has left, and without a failing send there is success. */
    method SendQueuedRequests() returns (ok: bool)
      requires Valid()
      modifies this
      ensures Valid() && Drained(environment, old(View()), View(), ok)
      ensures if ok then Left(log, true) == highArrived && Left(log, false) == lowArrived && SeenEmpty(View())
              else SeenFailure(View())
      ensures (forall k | old(sends) <= k < |environment| :: !environment[k].sendFails) ==> ok
    {
      ok := SendQueuedHighPrioRequests();
      if ok {
        ghost var before := View();
        ok := SendQueuedLowPrioRequests();
        DrainedMore(environment, old(View()), before, View(), ok);
      }
    }
  }
}
