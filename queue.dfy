/**
  The queue record and its singly linked chain of nodes, updated in place.

  One `Queue` object stands for the file-scope `queue` pointer together with
  the record it points to: `live` is false exactly when the pointer is NULL.
  Every method is one operation, or one lock-held critical section of one,
  taken as an atomic step, and is proved to move `View()` as a `QueueState`
  function says: `InitQueue` as
  `Init`, `TakeHead` as `Serve`, `DestroyQueue` to `NoQueue`, and the others
  as the function of the same name.
*/
module ConcurrentQueue {
  import opened QueueState

  /** A link of the chain; the payload is opaque and never changes. */
  class Node<T> {
    const data: T
    var next: Node?<T>

    constructor (data: T)
      ensures this.data == data && next == null
    {
      this.data := data;
      next := null;
    }
  }

  /** The payloads of a list of nodes, in order. */
  ghost function Payloads<T>(ns: seq<Node<T>>): seq<T>
  {
    seq(|ns|, i requires 0 <= i < |ns| => ns[i].data)
  }

  class Queue<T> {
    var live: bool
    var head: Node?<T>
    var tail: Node?<T>
    var numOfItems: nat
    var waitCounter: nat
    var visitCounter: nat
    var servingTicket: nat
    var nextTicket: nat

    /** The nodes of the chain from head to tail. */
    ghost var nodes: seq<Node<T>>
    ghost var Repr: set<object>

    /**
      The record's invariant while the mutex is free: `numOfItems` counts
      the chain, head is its first node and tail its last (both null when it
      is empty), each node links to the next, the last links to null, and no
      node occurs twice.
    */
    ghost predicate Valid()
      reads this, Repr
    {
      this in Repr &&
      (forall i | 0 <= i < |nodes| :: nodes[i] in Repr) &&
      (live ==>
        numOfItems == |nodes| &&
        head == (if nodes == [] then null else nodes[0]) &&
        tail == (if nodes == [] then null else nodes[|nodes| - 1]) &&
        (forall i | 0 <= i < |nodes| - 1 :: nodes[i].next == nodes[i + 1]) &&
        (nodes != [] ==> nodes[|nodes| - 1].next == null) &&
        (forall i, j | 0 <= i < j < |nodes| :: nodes[i] != nodes[j]))
    }

    /** The abstract value of the handle and the record. */
    ghost function View(): Global<T>
      reads this
    {
      if live then
        Live(State(Payloads(nodes), waitCounter, visitCounter, servingTicket, nextTicket))
      else
        NoQueue
    }

    /** head is null iff tail is null iff the count is zero. */
    lemma NullIffEmpty()
      requires Valid() && live
      ensures head == null <==> tail == null
      ensures head == null <==> numOfItems == 0
      ensures numOfItems == |View().q.items|
    {
    }

    /** The handle before initQueue: `static Queue *queue = NULL`. */
    constructor ()
      ensures Valid() && fresh(Repr)
      ensures View() == NoQueue
    {
      live := false;
      nodes := [];
      Repr := {this};
    }

    /**
      initQueue. `allocOk` is the outcome of allocating the record: on
      failure the handle is NULL, otherwise a fresh empty record with every
      counter zero. A previous record, if any, is abandoned.
    */
    method InitQueue(allocOk: bool)
      requires Valid()
      modifies this
      ensures Valid() && fresh(Repr - old(Repr))
      ensures View() == Init(allocOk)
      ensures allocOk ==> head == null && tail == null
    {
      live := allocOk;
      if allocOk {
        head, tail := null, null;
        numOfItems := 0;
        waitCounter := 0;
        visitCounter := 0;
        servingTicket := 0;
        nextTicket := 0;
      }
      nodes := [];
      Repr := {this};
    }

    /**
      destroyQueue: walk the chain from head, releasing each node, then
      clear the handle. `freed` lists the nodes released, in order: exactly
      the chain, which has `numOfItems` nodes. Payloads are not touched.
    */
    method DestroyQueue() returns (ghost freed: seq<Node<T>>)
      requires Valid()
      modifies this
      ensures Valid() && fresh(Repr - old(Repr))
      ensures View() == NoQueue
      ensures freed == if old(live) then old(nodes) else []
      ensures old(live) ==> |freed| == old(numOfItems)
    {
      freed := [];
      if live {
        ghost var chain := nodes;
        ghost var k := 0;
        while head != null
          invariant 0 <= k <= |chain|
          invariant head == if k < |chain| then chain[k] else null
          invariant freed == chain[..k]
          invariant forall i | 0 <= i < |chain| - 1 :: chain[i].next == chain[i + 1]
          invariant chain != [] ==> chain[|chain| - 1].next == null
          decreases |chain| - k
        {
          freed := freed + [head];
          head := head.next;
          k := k + 1;
        }
        assert freed == chain;
        live := false;
        nodes := [];
        Repr := {this};
      }
    }

    /**
      enqueue: link a new node holding `item` after the tail (or make it the
      whole chain) and count it. Without a queue, nothing happens.
    */
    method Enqueue(item: T)
      requires Valid()
      modifies Repr
      ensures Valid() && fresh(Repr - old(Repr))
      ensures View() == QueueState.Enqueue(old(View()), item)
    {
      if live {
        var node := new Node(item);
        if tail == null {
          head, tail := node, node;
        } else {
          tail.next := node;
          tail := node;
        }
        numOfItems := numOfItems + 1;
        nodes := nodes + [node];
        Repr := Repr + {node};
        assert Payloads(nodes) == Payloads(old(nodes)) + [item];
      }
    }

    /** `my_ticket = next_ticket++`. */
    method DrawTicket() returns (ticket: nat)
      requires Valid() && live
      modifies this
      ensures Valid() && Repr == old(Repr) && live
      ensures (View().q, ticket) == QueueState.DrawTicket(old(View()).q)
    {
      ticket := nextTicket;
      nextTicket := nextTicket + 1;
    }

    /**
      Unlink the head node, take its payload, and do the accounting of a
      successful retrieval (the caller holds the ticket being served).
    */
    method TakeHead() returns (item: T)
      requires Valid() && live && numOfItems > 0
      modifies this
      ensures Valid() && Repr == old(Repr) && live
      ensures (View().q, item) == Serve(old(View()).q)
    {
      var node := head;
      item := node.data;
      head := head.next;
      if head == null {
        tail := null;
      }
      numOfItems := numOfItems - 1;
      servingTicket := servingTicket + 1;
      visitCounter := visitCounter + 1;
      nodes := nodes[1..];
      assert Payloads(nodes) == Payloads(old(nodes))[1..];
    }

    /**
      One evaluation of the wait loop's condition by the holder of `ticket`:
      wait (counted in `waitCounter`) while the queue is empty or it is not
      this ticket's turn, otherwise take the head.
    */
    method Check(ticket: nat) returns (c: Call<T>)
      requires Valid() && live
      modifies this
      ensures Valid() && Repr == old(Repr) && live
      ensures (View().q, c) == QueueState.Check(old(View()).q, ticket)
    {
      if numOfItems == 0 || ticket != servingTicket {
        waitCounter := waitCounter + 1;
        c := Blocked(ticket);
      } else {
        var item := TakeHead();
        c := Returned(Some(item));
      }
    }

    /**
      dequeue, up to the first time it releases the mutex: draw a ticket and
      evaluate the wait condition once. Without a queue it returns NULL.
    */
    method DequeueBegin() returns (c: Call<T>)
      requires Valid()
      modifies this
      ensures Valid() && Repr == old(Repr)
      ensures (View(), c) == QueueState.DequeueBegin(old(View()))
    {
      if !live {
        c := Returned(None);
        return;
      }
      var ticket := DrawTicket();
      c := Check(ticket);
    }

    /**
      dequeue, each time it wakes from the wait holding `ticket`: stop
      counting itself as waiting and evaluate the wait condition again.
    */
    method DequeueResume(ticket: nat) returns (c: Call<T>)
      requires Valid() && live && waitCounter > 0
      modifies this
      ensures Valid() && Repr == old(Repr) && live
      ensures (View().q, c) == QueueState.DequeueResume(old(View()).q, ticket)
    {
      waitCounter := waitCounter - 1;
      c := Check(ticket);
    }

    /**
      tryDequeue: `flag` is the result and `item` what is stored through
      the out-pointer: the payload taken, or None for the NULL stored when
      the call fails. On failure the drawn ticket is given
      back before the section ends.
    */
    method TryDequeue() returns (flag: bool, item: Option<T>)
      requires Valid()
      modifies this
      ensures Valid() && Repr == old(Repr)
      ensures (View(), flag, item) == QueueState.TryDequeue(old(View()))
    {
      flag := false;
      if live {
        var ticket := DrawTicket();
        if numOfItems > 0 && ticket == servingTicket {
          var x := TakeHead();
          item := Some(x);
          flag := true;
        } else {
          item := None;
          nextTicket := nextTicket - 1;
        }
      } else {
        item := None;
      }
    }

    /** size(): the length of the chain, 0 without a queue. */
    method Size() returns (n: nat)
      requires Valid()
      ensures n == QueueState.Size(View())
    {
      n := if live then numOfItems else 0;
    }

    /** waiting(): the wait counter, 0 without a queue. */
    method Waiting() returns (n: nat)
      requires Valid()
      ensures n == QueueState.Waiting(View())
    {
      n := if live then waitCounter else 0;
    }

    /** visited(): the number of successful retrievals, 0 without a queue. */
    method Visited() returns (n: nat)
      requires Valid()
      ensures n == QueueState.Visited(View())
    {
      n := if live then visitCounter else 0;
    }
  }

  /**
    A single consumer after three enqueues: three blocking dequeues never
    wait and return the payloads in enqueue order.
  */
  method ThreeInThreeOut<T>(a: T, b: T, c: T) returns (r1: Call<T>, r2: Call<T>, r3: Call<T>, size: nat, visited: nat)
    ensures r1 == Returned(Some(a)) && r2 == Returned(Some(b)) && r3 == Returned(Some(c))
    ensures size == 0 && visited == 3
  {
    var q := new Queue<T>();
    q.InitQueue(true);
    q.Enqueue(a);
    q.Enqueue(b);
    q.Enqueue(c);
    assert q.View() == Live(State([a, b, c], 0, 0, 0, 0));
    r1 := q.DequeueBegin();
    assert q.View() == Live(State([b, c], 0, 1, 1, 1));
    r2 := q.DequeueBegin();
    assert q.View() == Live(State([c], 0, 2, 2, 2));
    r3 := q.DequeueBegin();
    size := q.Size();
    visited := q.Visited();
  }

  /**
    `m` failed tryDequeue calls on a fresh queue, then one enqueue: a new
    blocking dequeue takes the item at once, so no ticket was leaked.
  */
  method NoLeakAfterFailedTries<T>(m: nat, x: T) returns (failures: nat, r: Call<T>)
    ensures failures == m
    ensures r == Returned(Some(x))
  {
    var q := new Queue<T>();
    q.InitQueue(true);
    failures := 0;
    for i := 0 to m
      invariant q.Valid() && fresh(q.Repr)
      invariant q.View() == Init(true)
      invariant failures == i
    {
      var ok, item := q.TryDequeue();
      if !ok {
        failures := failures + 1;
      }
    }
    q.Enqueue(x);
    r := q.DequeueBegin();
  }
}
