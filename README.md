# cpp_channel in Dafny

A model of `Channel<T>` from `channel.h`: a closable, unbounded FIFO queue
shared by two handles, a sender and a receiver, created together by
`make_channel`. The shared `State` holds the queue and a one-way `closed`
flag. `send` appends on a live sender of an open channel. `recv` pops the
front on a live receiver, or reports absence once the queue is drained and
the channel closed. `close` sets `closed` once and says whether it did. The
destructor of either handle calls `close`.

Layout:

- `channel.dfy`, module `Channels`:
  - `SendStep`, `RecvStep`, `CloseStep` state each operation's decision as a
    function of the handle (`Handle`: has a state, is a sender) and of the
    value of the shared state (`Shared`: queue and closed flag).
  - Class `State` has the fields `queue` and `closed`.
  - Class `Channel` has the fields `state` (null for a moved-from or
    destroyed handle) and `isSender`. Its methods `Send`, `Recv`, `Close`
    and `Drop` (the destructor) update the shared `State` in place. Each is
    proved equal to the corresponding step function.
  - `MakeChannel` builds the pair of handles on one fresh state.
  - `Run` executes a sequence of operations by the two live handles, in any
    interleaving of sends, receives and closes. Its lemmas state what holds
    over whole runs: FIFO order (`Fifo`), sends rejected after close, a
    single successful close, and nothing lost across close.
- `demo.dfy`, module `Demo`: clients that rely only on the `Channel`
  contracts. `Stream` is the demonstration program's producer/consumer run
  with the two threads' operations placed one after the other.
  `CloseFromBothEnds` calls close through both handles of one channel.

The code has a single endpoint class with an `is_sender` flag; a call in
the wrong role returns `false` or an empty optional at run time, and the
model follows that.

## Model

| member | source | states |
|---|---|---|
| Channels.RecvReady | channel.h:44-46 | the condition recv waits for: a sender or a stateless handle never waits, and a live receiver that may go on with an empty queue finds the channel closed |
| Channels.WakesReceiver | channel.h:33-61 | after a successful send, or a close through any live handle, a receiver waiting on the channel can go on (what `notify_one` signals) |
| Channels.SendStep | channel.h:28-38 | send succeeds iff the handle is a sender, has a state and the channel is open; on success the item joins the tail of the queue, otherwise the queue is unchanged; `closed` never changes |
| Channels.RecvStep | channel.h:40-53 | once the wait predicate holds, recv returns an item iff the handle is a live receiver and the queue is non-empty; that item is the front and exactly it is removed; an absent result leaves the state unchanged, and from a live receiver it means the queue is empty and the channel closed |
| Channels.CloseStep | channel.h:55-65 | close succeeds iff the handle has a state and the channel was open; afterwards the channel is closed whenever the handle has a state; the queue is never touched |
| Channels.State.constructor | channel.h:72-77 | a new shared state has an empty queue and is open |
| Channels.Channel.constructor | channel.h:82-83 | a handle records the state it refers to and its role |
| Channels.Channel.Send | channel.h:28-38 | the in-place send returns and leaves exactly what SendStep gives for the old shared state; a stateless handle returns false |
| Channels.Channel.Recv | channel.h:40-53 | the in-place recv, called once the wait predicate holds, returns and leaves exactly what RecvStep gives; a stateless handle returns absent |
| Channels.Channel.Close | channel.h:55-65 | the in-place close returns and leaves exactly what CloseStep gives; a stateless handle returns false |
| Channels.Channel.Drop | channel.h:67-69 | destroying a handle has the effect of close through it on the shared state, and the handle no longer refers to the state |
| Channels.MakeChannel | channel.h:12-18 | make_channel returns two distinct fresh handles, a sender and a receiver, on one fresh state that is empty and open |
| Channels.Step | channel.h:28-65 | an operation by a live handle is blocked only when it is a recv on an empty open channel; afterwards the channel is closed iff it was closed before or the operation was a successful close, and a close succeeds only on an open channel |
| Channels.Run | channel.h:28-65 | a completed run yields one outcome per operation, and a run from a closed state ends closed: `closed` never reverts |
| Channels.SendsAppendInOrder | channel.h:31-35 | on an open channel, sends of x1..xn all succeed and append x1..xn, in that order, to the tail of the queue; the channel stays open |
| Channels.SendsRejectedWhenClosed | channel.h:32 | on a closed channel every send fails and the state is unchanged |
| Channels.RecvsTakeFront | channel.h:47-50 | n receives, n at most the queue length, return the first n pending items front first and leave the rest; the closed flag is untouched |
| Channels.DrainAfterClose | channel.h:44-50 | after close, every pending item is still delivered in order, then recv reports absent and the state is empty and closed |
| Channels.SendCloseDrain | main.cc:9-21 | on a fresh channel, sending x1..xn, closing from the sender's side and receiving until absent yields n successful sends, one successful close, x1..xn in order and then absent |
| Channels.ClosedIsTerminal | channel.h:59-60 | from a closed state, every run ends closed, no send in it succeeds and no close in it succeeds |
| Channels.CloseSucceedsOnce | channel.h:55-65 | over any completed run, the number of successful closes is 1 if the run takes the channel from open to closed and 0 otherwise |
| Channels.NoSendAfterClose | channel.h:32 | in any completed run, no send after a successful close succeeds |
| Channels.Fifo | channel.h:33-49 | over any completed run, however sends and receives interleave, the items received followed by the items still pending equal the items pending at the start followed by the items of the successful sends, in call order: the receiver gets exactly a prefix of that sequence, with nothing lost, duplicated or reordered |
| Demo.Stream | main.cc:9-26 | a producer that sends every item and drops its handle, and a consumer that receives until absent, deliver exactly the items sent, in order |
| Demo.CloseFromBothEnds | channel.h:55-69 | closing through one handle and then through the other, in either order, succeeds only the first time, and a later send is refused |

## Left out

- The mutex, lock guards, condition variable and `notify_one` are not modelled. The operations are modelled as atomic steps on the shared state, as the lock makes them. What a notification tells a waiting receiver is stated by `WakesReceiver`.
- Channels.Channel.Recv: the blocking wait on the condition variable is its precondition (`RecvReady`: a live receiver's queue is non-empty or its channel closed). Waking up on another thread's send or close, and spurious wake-ups, are not modelled. In `Run`, a recv that would wait makes the run `None`.
- Channels.Run: covers only operations by the two live handles of a channel. Calls through a moved-from handle and calls in the wrong role are covered by the step functions and the class methods.
- `shared_ptr` reference counting and the lifetime of `State` are not modelled. Dafny references stand in for shared ownership, and `Drop` sets the handle's `state` to null in place of releasing it.
- The defaulted move constructor and move assignment are not modelled. The deleted copy operations have no behaviour to state. A moved-from handle is represented by `state == null`.
- The constructor of `Channel` is private in the source. Dafny has no access control, so the model does not enforce that `MakeChannel` is the only caller.
- A `send` that fails discards its item. With value semantics this has nothing to model.
- The demonstration program's threads, its 100 ms sleep, `std::to_string` and printing are not modelled. `Demo.Stream` and `SendCloseDrain` are generic over the items, and they run all sends before all receives; runs that interleave them are covered by `Fifo`.
