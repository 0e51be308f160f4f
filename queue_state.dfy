/**
  The abstract state of the process-wide FIFO queue and its lock-held
  critical sections, each one an atomic transition on that state.

  The chain of nodes is abstracted to the sequence of payloads it holds,
  head first; the five counters are kept as they are. The mutex and the
  condition variable have no state of their own here: each transition below
  is one lock-held section of enqueue, dequeue or tryDequeue, or one of the
  unlocked operations initQueue, size, waiting and visited, taken whole.
*/
module QueueState {

  datatype Option<T> = None | Some(value: T)

  /** The fields of the `Queue` record that the operations read and write. */
  datatype State<T> = State(
    items: seq<T>,         // payloads of the chain from head to tail
    waitCounter: nat,      // callers currently inside the wait of a blocking dequeue
    visitCounter: nat,     // successful retrievals over the queue's lifetime
    servingTicket: nat,    // the ticket that may retrieve next
    nextTicket: nat        // the ticket handed out next
  )

  /** The file-scope handle: no queue (NULL), or a queue with state `q`. */
  datatype Global<T> = NoQueue | Live(q: State<T>)

  /** Where a blocking dequeue stands when it releases the mutex. */
  datatype Call<T> =
    | Blocked(ticket: nat)         // waiting on the condition variable, holding `ticket`
    | Returned(item: Option<T>)    // the call returned: the payload taken, or None for the NULL returned without a queue

  /** The ticket being served is never past the next ticket to be handed out. */
  predicate TicketsOrdered<T>(q: State<T>)
  {
    q.servingTicket <= q.nextTicket
  }

  /**
    Between critical sections every ticket in [servingTicket, nextTicket)
    is held by a caller counted as waiting, so no ticket is leaked.
  */
  predicate TicketsAccounted<T>(q: State<T>)
  {
    q.nextTicket == q.servingTicket + q.waitCounter
  }

  /** initQueue: `allocOk` is whether the allocation of the record succeeded. */
  function Init<T>(allocOk: bool): Global<T>
  {
    if allocOk then Live(State([], 0, 0, 0, 0)) else NoQueue
  }

  /** enqueue: append at the tail; without a queue, nothing happens. */
  function Enqueue<T>(g: Global<T>, x: T): Global<T>
  {
    match g
    case NoQueue => NoQueue
    case Live(q) => Live(q.(items := q.items + [x]))
  }

  /** The negation of the wait loop's condition: there is data and it is this ticket's turn. */
  predicate Ready<T>(q: State<T>, ticket: nat)
  {
    |q.items| > 0 && ticket == q.servingTicket
  }

  /** `my_ticket = next_ticket++`: the new state and the ticket drawn. */
  function DrawTicket<T>(q: State<T>): (State<T>, nat)
  {
    (q.(nextTicket := q.nextTicket + 1), q.nextTicket)
  }

  /** Detach the head node and do the accounting of a successful retrieval. */
  function Serve<T>(q: State<T>): (r: (State<T>, T))
    requires q.items != []
    ensures [r.1] + r.0.items == q.items
    ensures |r.0.items| == |q.items| - 1
    ensures r.0.servingTicket == q.servingTicket + 1
    ensures r.0.visitCounter == q.visitCounter + 1
    ensures r.0.nextTicket == q.nextTicket && r.0.waitCounter == q.waitCounter
  {
    assert [q.items[0]] + q.items[1..] == q.items;
    (q.(items := q.items[1..], servingTicket := q.servingTicket + 1, visitCounter := q.visitCounter + 1),
     q.items[0])
  }

  /**
    One evaluation of the wait loop's condition by the holder of `ticket`:
    either it enters the wait (counting itself as waiting) or it leaves the
    loop and takes the head.
  */
  function Check<T>(q: State<T>, ticket: nat): (State<T>, Call<T>)
  {
    if !Ready(q, ticket) then
      (q.(waitCounter := q.waitCounter + 1), Blocked(ticket))
    else
      var (q', x) := Serve(q);
      (q', Returned(Some(x)))
  }

  /**
    The first critical section of a blocking dequeue: draw a ticket, then
    evaluate the wait condition once. Without a queue it returns NULL.
  */
  function DequeueBegin<T>(g: Global<T>): (r: (Global<T>, Call<T>))
    ensures r.0.Live? <==> g.Live?
    ensures r.1 == Returned(None) <==> g.NoQueue?
    ensures g.Live? ==>
      (r.1.Returned? <==> g.q.items != [] && g.q.servingTicket == g.q.nextTicket)
    ensures g.Live? && r.1.Returned? ==>
      r.1.item == Some(g.q.items[0]) && r.0.q.items == g.q.items[1..] &&
      r.0.q.servingTicket == g.q.servingTicket + 1 && r.0.q.visitCounter == g.q.visitCounter + 1 &&
      r.0.q.nextTicket == g.q.nextTicket + 1 && r.0.q.waitCounter == g.q.waitCounter
    ensures g.Live? && r.1.Blocked? ==>
      r.1.ticket == g.q.nextTicket &&
      r.0.q == g.q.(nextTicket := g.q.nextTicket + 1, waitCounter := g.q.waitCounter + 1)
  {
    match g
    case NoQueue => (NoQueue, Returned(None))
    case Live(q) =>
      var (q1, t) := DrawTicket(q);
      var (q2, c) := Check(q1, t);
      (Live(q2), c)
  }

  /**
    A later critical section of a blocking dequeue: the holder of `ticket`
    wakes from the wait (no longer counted as waiting) and evaluates the
    wait condition again.
  */
  function DequeueResume<T>(q: State<T>, ticket: nat): (r: (State<T>, Call<T>))
    requires q.waitCounter > 0
    ensures r.1.Returned? <==> Ready(q, ticket)
    ensures r.1.Blocked? ==> r.1.ticket == ticket && r.0 == q
    ensures r.1.Returned? ==>
      r.1.item == Some(q.items[0]) && r.0.items == q.items[1..] &&
      r.0.servingTicket == q.servingTicket + 1 && r.0.visitCounter == q.visitCounter + 1 &&
      r.0.nextTicket == q.nextTicket && r.0.waitCounter == q.waitCounter - 1
  {
    Check(q.(waitCounter := q.waitCounter - 1), ticket)
  }

  /**
    tryDequeue: draw a ticket; take the head if it is this ticket's turn and
    there is data, otherwise give the ticket back. The result is the new
    handle, the returned flag and what is stored through `item`.
  */
  function TryDequeue<T>(g: Global<T>): (r: (Global<T>, bool, Option<T>))
    ensures r.1 <==> g.Live? && g.q.items != [] && g.q.servingTicket == g.q.nextTicket
    ensures !r.1 ==> r.0 == g && r.2 == None
    ensures r.1 ==>
      r.0.Live? && r.2 == Some(g.q.items[0]) && r.0.q.items == g.q.items[1..] &&
      r.0.q.servingTicket == g.q.servingTicket + 1 && r.0.q.visitCounter == g.q.visitCounter + 1 &&
      r.0.q.nextTicket == g.q.nextTicket + 1 && r.0.q.waitCounter == g.q.waitCounter
  {
    match g
    case NoQueue => (NoQueue, false, None)
    case Live(q) =>
      var (q1, t) := DrawTicket(q);
      if Ready(q1, t) then
        var (q2, x) := Serve(q1);
        (Live(q2), true, Some(x))
      else
        (Live(q1.(nextTicket := q1.nextTicket - 1)), false, None)
  }

  /** size(): the number of queued items, 0 without a queue. */
  function Size<T>(g: Global<T>): nat
  {
    match g
    case NoQueue => 0
    case Live(q) => |q.items|
  }

  /** waiting(): the wait counter, 0 without a queue. */
  function Waiting<T>(g: Global<T>): nat
  {
    match g
    case NoQueue => 0
    case Live(q) => q.waitCounter
  }

  /** visited(): the retrieval counter, 0 without a queue. */
  function Visited<T>(g: Global<T>): nat
  {
    match g
    case NoQueue => 0
    case Live(q) => q.visitCounter
  }

  // ---------------------------------------------------------------------
  // Sequential use: K enqueues followed by M blocking dequeues
  // ---------------------------------------------------------------------

  function EnqueueAll<T>(g: Global<T>, xs: seq<T>): Global<T>
    decreases |xs|
  {
    if xs == [] then g else EnqueueAll(Enqueue(g, xs[0]), xs[1..])
  }

  /** `m` blocking dequeues, one after the other, each by a new caller. */
  function DequeueAll<T>(g: Global<T>, m: nat): (Global<T>, seq<Call<T>>)
    decreases m
  {
    if m == 0 then (g, [])
    else
      var (g1, c) := DequeueBegin(g);
      var (g2, cs) := DequeueAll(g1, m - 1);
      (g2, [c] + cs)
  }

  /** The calls that return the payloads `xs`, in order. */
  function Returns<T>(xs: seq<T>): (cs: seq<Call<T>>)
  {
    seq(|xs|, i requires 0 <= i < |xs| => Returned(Some(xs[i])))
  }

  lemma {:induction false} EnqueueAllAppends<T>(q: State<T>, xs: seq<T>)
    ensures EnqueueAll(Live(q), xs) == Live(q.(items := q.items + xs))
    decreases |xs|
  {
    if xs != [] {
      EnqueueAllAppends(q.(items := q.items + [xs[0]]), xs[1..]);
      assert q.items + [xs[0]] + xs[1..] == q.items + xs;
    }
  }

  /**
    With no caller holding an unserved ticket, `m` blocking dequeues never
    wait, and return the first `m` payloads in order.
  */
  lemma {:induction false} DequeueAllTakesPrefix<T>(q: State<T>, m: nat)
    requires m <= |q.items| && q.servingTicket == q.nextTicket
    ensures DequeueAll(Live(q), m) ==
      (Live(q.(items := q.items[m..],
               visitCounter := q.visitCounter + m,
               servingTicket := q.servingTicket + m,
               nextTicket := q.nextTicket + m)),
       Returns(q.items[..m]))
    decreases m
  {
    if m > 0 {
      var (g1, c) := DequeueBegin(Live(q));
      assert c == Returned(Some(q.items[0]));
      assert g1.q.items == q.items[1..];
      DequeueAllTakesPrefix(g1.q, m - 1);
      assert g1.q.items[m - 1..] == q.items[m..];
      assert g1.q.items[..m - 1] == q.items[1..m];
      assert [c] + Returns(q.items[1..m]) == Returns(q.items[..m]);
    } else {
      assert q.items[0..] == q.items;
      assert Returns(q.items[..0]) == [];
    }
  }

  /**
    FIFO round trip: after initQueue, enqueuing `xs` and then `m` blocking
    dequeues returns the first `m` of `xs` in enqueue order, and leaves
    size() == |xs| - m, visited() == m and the tickets ordered.
  */
  lemma FifoRoundTrip<T>(xs: seq<T>, m: nat)
    requires m <= |xs|
    ensures var (g, cs) := DequeueAll(EnqueueAll(Init(true), xs), m);
      cs == Returns(xs[..m]) &&
      Size(g) == |xs| - m && Visited(g) == m && Waiting(g) == 0 &&
      g.Live? && TicketsOrdered(g.q)
  {
    var q0: State<T> := State([], 0, 0, 0, 0);
    EnqueueAllAppends(q0, xs);
    assert q0.items + xs == xs;
    DequeueAllTakesPrefix(q0.(items := xs), m);
  }

  // ---------------------------------------------------------------------
  // No ticket leak
  // ---------------------------------------------------------------------

  function TryDequeueTimes<T>(g: Global<T>, m: nat): Global<T>
    decreases m
  {
    if m == 0 then g else TryDequeueTimes(TryDequeue(g).0, m - 1)
  }

  /** Failed tryDequeue calls on an empty queue leave it exactly as it was. */
  lemma {:induction false} FailedTriesChangeNothing<T>(g: Global<T>, m: nat)
    requires g.Live? ==> g.q.items == []
    ensures TryDequeueTimes(g, m) == g
    decreases m
  {
    if m > 0 {
      FailedTriesChangeNothing(TryDequeue(g).0, m - 1);
    }
  }

  /**
    No ticket leak: after any number of failed tryDequeue calls on an empty
    queue with no waiting caller, one enqueue lets a new blocking dequeue
    take the item at once, its ticket being the one served.
  */
  lemma {:induction false} NoTicketLeak<T>(q: State<T>, m: nat, x: T)
    requires q.items == [] && q.servingTicket == q.nextTicket
    ensures var g := Enqueue(TryDequeueTimes(Live(q), m), x);
      g.Live? && g.q.nextTicket == g.q.servingTicket &&
      DequeueBegin(g).1 == Returned(Some(x))
  {
    FailedTriesChangeNothing(Live(q), m);
  }

  // ---------------------------------------------------------------------
  // Arbitrary interleavings of critical sections
  // ---------------------------------------------------------------------

  /** One lock-held critical section of some caller. */
  datatype Event<T> =
    | Put(x: T)            // an enqueue
    | TryTake              // a tryDequeue
    | Take                 // the first section of a blocking dequeue
    | Retry(ticket: nat)   // a blocking dequeue holding `ticket` wakes and re-checks

  /** A payload handed out, with the ticket of the call that took it. */
  datatype Delivery<T> = Delivery(ticket: nat, item: T)

  /** A re-check is made by a caller that drew its ticket and is counted as waiting. */
  predicate Enabled<T>(g: Global<T>, e: Event<T>)
  {
    e.Retry? ==> g.Live? && g.q.waitCounter > 0 && e.ticket < g.q.nextTicket
  }

  /** The new handle and the deliveries (none or one) of one critical section. */
  function Step<T>(g: Global<T>, e: Event<T>): (Global<T>, seq<Delivery<T>>)
    requires Enabled(g, e)
  {
    match e
    case Put(x) => (Enqueue(g, x), [])
    case TryTake =>
      var (g', ok, item) := TryDequeue(g);
      (g', if ok && g.Live? && item.Some? then [Delivery(g.q.nextTicket, item.value)] else [])
    case Take =>
      var (g', c) := DequeueBegin(g);
      (g', if g.Live? && c.Returned? && c.item.Some? then [Delivery(g.q.nextTicket, c.item.value)] else [])
    case Retry(t) =>
      var (q', c) := DequeueResume(g.q, t);
      (Live(q'), if c.Returned? && c.item.Some? then [Delivery(t, c.item.value)] else [])
  }

  predicate Runnable<T>(g: Global<T>, evs: seq<Event<T>>)
    decreases |evs|
  {
    evs == [] || (Enabled(g, evs[0]) && Runnable(Step(g, evs[0]).0, evs[1..]))
  }

  /** The handle after the sections `evs`, in order, and every delivery they made. */
  function Run<T>(g: Global<T>, evs: seq<Event<T>>): (Global<T>, seq<Delivery<T>>)
    requires Runnable(g, evs)
    decreases |evs|
  {
    if evs == [] then (g, [])
    else
      var (g1, d) := Step(g, evs[0]);
      var (g2, ds) := Run(g1, evs[1..]);
      (g2, d + ds)
  }

  /** The payloads enqueued by `evs`, in order. */
  function Puts<T>(evs: seq<Event<T>>): seq<T>
    decreases |evs|
  {
    if evs == [] then [] else (if evs[0].Put? then [evs[0].x] else []) + Puts(evs[1..])
  }

  function Items<T>(ds: seq<Delivery<T>>): seq<T>
    decreases |ds|
  {
    if ds == [] then [] else [ds[0].item] + Items(ds[1..])
  }

  lemma {:induction false} ItemsAppend<T>(d: seq<Delivery<T>>, ds: seq<Delivery<T>>)
    ensures Items(d + ds) == Items(d) + Items(ds)
    decreases |d|
  {
    if d != [] {
      assert (d + ds)[0] == d[0];
      assert (d + ds)[1..] == d[1..] + ds;
      ItemsAppend(d[1..], ds);
      calc {
        Items(d + ds);
        [d[0].item] + Items(d[1..] + ds);
        [d[0].item] + (Items(d[1..]) + Items(ds));
        ([d[0].item] + Items(d[1..])) + Items(ds);
      }
    } else {
      assert d + ds == ds;
    }
  }

  /**
    From `q` to `q'` the deliveries `ds` were made while `puts` were
    enqueued: payloads left in enqueue order, the k-th delivery went to
    ticket servingTicket + k, each delivery advanced servingTicket and
    visitCounter by one, nextTicket did not decrease, the tickets stayed
    ordered, and every outstanding ticket stayed held by a waiting caller.
  */
  ghost predicate Accounts<T>(q: State<T>, q': State<T>, ds: seq<Delivery<T>>, puts: seq<T>)
  {
    TicketsOrdered(q') &&
    Items(ds) + q'.items == q.items + puts &&
    (forall i | 0 <= i < |ds| :: ds[i].ticket == q.servingTicket + i) &&
    q'.servingTicket == q.servingTicket + |ds| &&
    q'.visitCounter == q.visitCounter + |ds| &&
    q.nextTicket <= q'.nextTicket &&
    (TicketsAccounted(q) ==> TicketsAccounted(q'))
  }

  lemma ItemsCompose<T>(i0: seq<T>, i1: seq<T>, i2: seq<T>,
                        d1: seq<Delivery<T>>, d2: seq<Delivery<T>>, p1: seq<T>, p2: seq<T>)
    requires Items(d1) + i1 == i0 + p1 && Items(d2) + i2 == i1 + p2
    ensures Items(d1 + d2) + i2 == i0 + (p1 + p2)
  {
    ItemsAppend(d1, d2);
    calc {
      Items(d1 + d2) + i2;
      Items(d1) + (Items(d2) + i2);
      Items(d1) + (i1 + p2);
      (Items(d1) + i1) + p2;
      (i0 + p1) + p2;
    }
  }

  lemma TicketsCompose<T>(s0: nat, d1: seq<Delivery<T>>, d2: seq<Delivery<T>>)
    requires forall i | 0 <= i < |d1| :: d1[i].ticket == s0 + i
    requires forall i | 0 <= i < |d2| :: d2[i].ticket == s0 + |d1| + i
    ensures forall i | 0 <= i < |d1 + d2| :: (d1 + d2)[i].ticket == s0 + i
  {
  }

  lemma AccountsCompose<T>(q: State<T>, q1: State<T>, q2: State<T>,
                           d1: seq<Delivery<T>>, d2: seq<Delivery<T>>, p1: seq<T>, p2: seq<T>)
    requires Accounts(q, q1, d1, p1) && Accounts(q1, q2, d2, p2)
    ensures Accounts(q, q2, d1 + d2, p1 + p2)
  {
    ItemsCompose(q.items, q1.items, q2.items, d1, d2, p1, p2);
    TicketsCompose(q.servingTicket, d1, d2);
  }

  /** One critical section, started with the tickets ordered, delivers at most once and accounts for it. */
  lemma StepAccounts<T>(q: State<T>, e: Event<T>)
    requires TicketsOrdered(q) && Enabled(Live(q), e)
    ensures var (g', d) := Step(Live(q), e);
      g'.Live? && |d| <= 1 && Accounts(q, g'.q, d, Puts([e]))
  {
  }

  /**
    Over any interleaving of critical sections, payloads are handed out in
    enqueue order and the k-th delivery goes to the holder of ticket
    servingTicket + k, that is in the order the calls drew their tickets;
    and when every outstanding ticket is held by a waiting caller, that
    stays so: no interleaving leaks a ticket.
  */
  lemma {:induction false} RunDeliversInTicketOrder<T>(q: State<T>, evs: seq<Event<T>>)
    requires TicketsOrdered(q) && Runnable(Live(q), evs)
    ensures var (g', ds) := Run(Live(q), evs);
      g'.Live? && Accounts(q, g'.q, ds, Puts(evs))
    decreases |evs|
  {
    if evs != [] {
      var e := evs[0];
      var (g1, d) := Step(Live(q), e);
      StepAccounts(q, e);
      RunDeliversInTicketOrder(g1.q, evs[1..]);
      var (g2, ds) := Run(g1, evs[1..]);
      assert Run(Live(q), evs) == (g2, d + ds);
      assert Puts(evs) == Puts([e]) + Puts(evs[1..]);
      AccountsCompose(q, g1.q, g2.q, d, ds, Puts([e]), Puts(evs[1..]));
    } else {
      assert q.items + Puts(evs) == q.items;
      assert Items<T>([]) == [];
    }
  }

  /**
    With every outstanding ticket held by a waiter and nobody waiting, a
    non-empty queue serves a new caller at once, blocking or not.
  */
  lemma NobodyWaitingServesAtOnce<T>(q: State<T>)
    requires TicketsAccounted(q) && q.waitCounter == 0 && q.items != []
    ensures DequeueBegin(Live(q)).1 == Returned(Some(q.items[0]))
    ensures TryDequeue(Live(q)).1 && TryDequeue(Live(q)).2 == Some(q.items[0])
  {
  }

  /**
    Every outstanding ticket is held by a waiting caller, so waiting()
    counts exactly the tickets drawn and not yet served, and visited()
    equals both the number of deliveries `ds` and servingTicket.
  */
  predicate NoLeak<T>(g: Global<T>, ds: seq<Delivery<T>>)
  {
    g.Live? && TicketsAccounted(g.q) &&
    Waiting(g) == g.q.nextTicket - g.q.servingTicket &&
    Visited(g) == |ds| == g.q.servingTicket
  }

  /**
    From initQueue, any interleaving of critical sections leaves every
    outstanding ticket held by a waiting caller: waiting() measures exactly
    the tickets drawn and not yet served.
  */
  lemma RunFromInitLeaksNoTicket<T>(evs: seq<Event<T>>)
    requires Runnable(Init(true), evs)
    ensures NoLeak(Run(Init(true), evs).0, Run(Init(true), evs).1)
  {
    var q0: State<T> := State([], 0, 0, 0, 0);
    RunDeliversInTicketOrder(q0, evs);
    var (g', ds) := Run(Init(true), evs);
    AccountedFromInit(g', ds, Puts(evs));
  }

  /** The accounting of a run from initQueue, read off as counter values. */
  lemma AccountedFromInit<T>(g': Global<T>, ds: seq<Delivery<T>>, puts: seq<T>)
    requires g'.Live? && Accounts(State([], 0, 0, 0, 0), g'.q, ds, puts)
    ensures NoLeak(g', ds)
  {
  }
}
