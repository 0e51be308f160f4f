# Fair FIFO queue with ticket-ordered retrieval

This project models the process-wide FIFO queue of `queue.c` in Dafny. The
queue is a singly linked chain of nodes holding opaque payloads. It keeps five
counters: the item count, the wait counter, the visit counter, and the two
ticket counters `next_ticket` and `serving_ticket`. A retrieval draws a ticket and
may take the head only when the queue is non-empty and its ticket is the one
being served. The non-blocking `tryDequeue` gives its ticket back when it fails.

`enqueue`, `dequeue` and `tryDequeue` run under one mutex, and so does the walk
of the chain in `destroyQueue`. Each lock-held critical section is modelled as
one atomic transition. `initQueue`, `size`, `waiting` and `visited` take no lock.

- `queue_state.dfy` (module `QueueState`) is the abstract record. Its `items`
  is the chain as a sequence of payloads, head first, and its five counters are
  `nat`. A `Global` is the file-scope handle: `NoQueue` (NULL) or `Live(q)`.
  Each critical section is a function on these values. The lemmas over them
  state the FIFO round trip, the absence of ticket leaks, and ticket-order
  delivery over any interleaving of critical sections.
- `queue.dfy` (module `ConcurrentQueue`) is the record updated in place. It has
  a `Node` class with `next` links and a `Queue` class with `head`, `tail` and
  the counters as fields. A `live` flag stands for `queue != NULL`. The ghost
  `nodes` lists the chain. `Valid()` is the record's invariant: the count equals
  the chain length, head and tail are its ends (null when it is empty), the
  links run in order to a null, and no node is repeated. `View()` maps the
  object to a `QueueState.Global`. Every method is proved to move `View()` exactly
  as a `QueueState` function says: `InitQueue` as `Init`, `TakeHead` as
  `Serve`, `DestroyQueue` to `NoQueue`, and the other methods as the
  function of the same name.

The blocking `dequeue` releases the mutex inside its wait loop
(queue.c:108-113), so it is modelled as several critical sections:
- `DequeueBegin`: lock, draw a ticket, evaluate the loop condition once, then either
  enter the wait (`wait_counter++`) or take the head.
- `DequeueResume(ticket)`, one per wake-up: `wait_counter--`, evaluate the
  condition again, then wait or take the head.

A caller between sections is `Blocked(ticket)`. The loop condition is the
predicate `Ready` negated.

The allocation inside `initQueue` is a parameter (`allocOk`), because the
source checks it (queue.c:38-39). Payload pointers are a type parameter `T`.
Two NULLs that are not payloads are `None`: the one `dequeue` returns when
there is no queue (queue.c:101, 131), and the one `tryDequeue` stores through
`*item` when it fails (queue.c:161, 169). A NULL enqueued as a payload is an
ordinary value of `T`, and a later retrieval hands it back as `Some`.

## Model

| member | source | states |
|---|---|---|
| `QueueState.Serve` | queue.c:115-126 | the payload taken is the old head and the remaining items are the old tail (`[x] + rest == items`); `serving_ticket` and `visit_counter` rise by exactly 1; `next_ticket` and `wait_counter` are unchanged |
| `QueueState.DequeueBegin` | queue.c:99-127 | no queue: returns NULL and changes nothing; otherwise the call returns at once iff the queue is non-empty and no earlier ticket is outstanding (`serving == next`), and then it returns the old head with the accounting of a retrieval; if not, it is blocked with ticket `next_ticket`, and only `next_ticket` and `wait_counter` rose by 1 |
| `QueueState.DequeueResume` | queue.c:108-127 | a woken caller takes the item iff the queue is non-empty and its ticket equals `serving_ticket`; a failed re-check leaves the state exactly as before (the wait counter's net change is zero); a success returns the old head, decrements the wait counter and does the retrieval accounting |
| `QueueState.TryDequeue` | queue.c:134-172 | succeeds iff the queue exists, is non-empty and its freshly drawn ticket is the one served; on failure `*item` is NULL and the handle, `next_ticket` included, is exactly as before (no ticket leak); on success it returns the old head, the rest are the old tail, and `serving_ticket`, `visit_counter` and `next_ticket` each rise by 1 |
| `QueueState.EnqueueAllAppends` | queue.c:71-97 | enqueuing a sequence appends it at the tail, leaving earlier items and every counter untouched |
| `QueueState.DequeueAllTakesPrefix` | queue.c:99-132 | with no outstanding ticket, `m <= size` blocking dequeues never wait and return the first `m` items in order; the rest remain, and the two tickets and the visit counter each rise by exactly `m` |
| `QueueState.FifoRoundTrip` | queue.c:36-132 | after `initQueue`, enqueuing `xs` and then performing `m <= |xs|` blocking dequeues returns `xs[..m]` in enqueue order; then `size() == |xs| - m`, `visited() == m`, `waiting() == 0` and `serving_ticket <= next_ticket` |
| `QueueState.FailedTriesChangeNothing` | queue.c:141-163 | any number of `tryDequeue` calls on an empty queue (or with no queue) leave the handle exactly as it was |
| `QueueState.NoTicketLeak` | queue.c:134-172 | after any number of failed `tryDequeue` calls on an empty queue with no waiting caller, one `enqueue(x)` lets a new blocking dequeue return `x` at once, because its ticket equals `serving_ticket` |
| `QueueState.StepAccounts` | queue.c:71-172 | every critical section (enqueue, tryDequeue, first or later section of dequeue) keeps `serving_ticket <= next_ticket` and delivers at most one payload. A delivery is the old head, goes to the ticket `serving_ticket`, and raises `serving_ticket` and `visit_counter` by one. `next_ticket` never decreases, and `next_ticket == serving_ticket + wait_counter` is kept |
| `QueueState.AccountsCompose` | queue.c:71-172 | the accounting of two consecutive runs composes: deliveries concatenate, enqueued payloads concatenate, and ticket numbers continue |
| `QueueState.RunDeliversInTicketOrder` | queue.c:71-172 | over any interleaving of critical sections, the payloads delivered followed by those still queued equal the initial ones followed by those enqueued (FIFO). The k-th delivery goes to ticket `serving_ticket + k`, so callers are served in the order they drew tickets. `serving_ticket` and `visit_counter` rise by the number of deliveries, `next_ticket` is monotone, and the tickets stay ordered. If every ticket in `[serving_ticket, next_ticket)` starts out held by a waiting caller (`next_ticket == serving_ticket + wait_counter`), that stays true: no interleaving leaks a ticket |
| `QueueState.RunFromInitLeaksNoTicket` | queue.c:36-172 | from `initQueue`, after any interleaving of critical sections, `next_ticket == serving_ticket + wait_counter`: `waiting()` is exactly the number of tickets drawn and not yet served, and `visited()` equals the number of deliveries and `serving_ticket` (the predicate `NoLeak`) |
| `QueueState.NobodyWaitingServesAtOnce` | queue.c:104-157 | with no leaked ticket and nobody waiting, a non-empty queue serves a new `dequeue` or `tryDequeue` at once with the head item |
| `ConcurrentQueue.Queue.NullIffEmpty` | queue.c:81-89 | in a valid live record, `head == NULL` iff `tail == NULL` iff `num_of_items == 0`, and `num_of_items` is the length of the chain |
| `ConcurrentQueue.Queue.constructor` | queue.c:34 | before `initQueue` the handle is NULL |
| `ConcurrentQueue.Queue.InitQueue` | queue.c:36-50 | on successful allocation: an empty chain with head and tail null and all five counters zero; on failed allocation the handle is NULL |
| `ConcurrentQueue.Queue.DestroyQueue` | queue.c:52-69 | the loop releases exactly the nodes of the chain, in order from head, which is `num_of_items` nodes; afterwards the handle is NULL; with no queue it does nothing |
| `ConcurrentQueue.Node.constructor` | queue.c:77-79 | a new node holds the payload and links to NULL |
| `ConcurrentQueue.Queue.Enqueue` | queue.c:71-97 | links a new node after the tail, or makes it head and tail of an empty chain; the chain invariant is kept and the abstract state moves as `QueueState.Enqueue`: the item is appended, the count rises by 1, and the other counters are unchanged; with no queue it does nothing |
| `ConcurrentQueue.Queue.DrawTicket` | queue.c:106 | returns the old `next_ticket` and increments it, nothing else changes |
| `ConcurrentQueue.Queue.TakeHead` | queue.c:115-126 | unlinks the head node (clearing `tail` when the chain becomes empty), keeps the chain invariant, and moves the state as `QueueState.Serve` |
| `ConcurrentQueue.Queue.Check` | queue.c:108-127 | one evaluation of the wait-loop condition on the linked record, matching `QueueState.Check` |
| `ConcurrentQueue.Queue.DequeueBegin` | queue.c:99-113 | the first critical section of `dequeue` on the linked record, matching `QueueState.DequeueBegin` |
| `ConcurrentQueue.Queue.DequeueResume` | queue.c:108-127 | a re-check after a wake-up on the linked record, matching `QueueState.DequeueResume` |
| `ConcurrentQueue.Queue.TryDequeue` | queue.c:134-172 | `tryDequeue` on the linked record, including the ticket rollback, matching `QueueState.TryDequeue` |
| `ConcurrentQueue.Queue.Size` | queue.c:174-177 | returns the number of nodes in the chain, 0 with no queue |
| `ConcurrentQueue.Queue.Waiting` | queue.c:179-182 | returns the wait counter, 0 with no queue |
| `ConcurrentQueue.Queue.Visited` | queue.c:184-187 | returns the number of successful retrievals, 0 with no queue |
| `ConcurrentQueue.ThreeInThreeOut` | queue.c:71-132 | on the linked record, `enqueue(a)`, `enqueue(b)` and `enqueue(c)` followed by three blocking dequeues return a, b and c in that order; then `size() == 0` and `visited() == 3` |
| `ConcurrentQueue.NoLeakAfterFailedTries` | queue.c:134-172 | on the linked record, `m` failed `tryDequeue` calls on a fresh queue, then one enqueue, let a new blocking dequeue return the item immediately |

## Left out

- The mutex and the condition variable (`mtx_*`, `cnd_wait`, `cnd_signal`, `cnd_broadcast`) are concurrency primitives. Each lock-held section is one atomic transition instead. The model does not say which waiter a signal or broadcast wakes. A wake-up is a `Retry` event that any blocked caller may take. So the model says nothing about liveness: for example, it does not rule out the single `cnd_signal` in `enqueue` waking a caller whose ticket is not being served.
- Thread scheduling, and fairness or liveness claims across threads, are not modelled. Only the per-section ticket predicate and ticket-ordered delivery over a given interleaving are.
- `malloc` and `free` are not modelled. The node allocation in `enqueue` is unchecked in the source and always succeeds here. Releasing a node is only the node being dropped from the chain, and `DestroyQueue` reports the nodes it releases. Payloads are never freed.
- The size of the `Queue` record and of `Node`, and the `mtx_init`/`cnd_init`/`mtx_destroy`/`cnd_destroy` calls, are not modelled.
- `initQueue` (queue.c:36-50) takes no lock, and `destroyQueue` releases and destroys the mutex and the condition variable (queue.c:63-65) before it frees the record and clears the handle (queue.c:66-67). The model treats `initQueue` and the whole of `destroyQueue` as single atomic transitions. It does not capture a caller that runs between those steps.
- `size`, `waiting` and `visited` read without the mutex in the source. They are plain reads of the state here, so their racy snapshots are not captured.
- The `wait_counter` is incremented before each wait and decremented after it. Between critical sections it equals `next_ticket - serving_ticket`, which `RunFromInitLeaksNoTicket` proves. Which waiter runs next depends on scheduling, which is not modelled.
- `size_t` wrap-around of the counters is not modelled. All counters are unbounded `nat`.
- A NULL payload is not told apart from the NULL of "no queue" or of a failed `tryDequeue`. In C a caller cannot tell them apart. The model keeps them apart: an enqueued NULL comes back as `Some`, not `None`. So `QueueState.DequeueBegin`'s "returns `None` iff there is no queue" describes the model, not what a C caller can observe.
- Use of the queue after `destroyQueue` by a caller still blocked inside `dequeue` is undefined behaviour in the source. `DequeueResume` requires a live queue.
- Calling `initQueue` on a live queue abandons the old record and its nodes (a leak in the source). The model starts from a fresh empty record and does not track the old one.
