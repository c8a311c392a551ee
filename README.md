# Chan4Net channels as atomic-step state machines

This project models the channel library Chan4Net in Dafny. A channel carries
items from producer threads to consumer threads. The library has two kinds:

- **Bounded channel** (`BufferedChan`). It has a fixed capacity of at least 1, a
  FIFO queue of pending items and a one-way closed flag. `Send` appends at the
  tail and waits while the queue is full. `Receive` takes the head and waits
  while the queue is empty. Closing stops further sends, but the pending items
  can still be received.
- **Unbuffered channel** (`UnbufferedChan`). It has a FIFO queue of waiting
  receivers. Each receiver waits on its own one-shot cell (`UnbufferedChanReceiver`).
  `Send` never waits. It fills the cell of the earliest waiting receiver, or
  fails at once when no receiver is queued.

The iteration adapter (`ChanYieldEnumerator` and the `Yield` loops) turns
repeated receives into a sequence. It ends silently on cancellation or on an
InvalidOperationException. The facade `Chan` picks the kind from an optional
size and forwards every call.

How the model works:

- **Atomic steps.** Every blocking wait is one atomic step. A step returns
  `Done`, `Failed(error)` or `WouldBlock`. Nothing waits or runs in parallel.
  Each wait loop of the source becomes one step. Its first pass either leaves
  the loop or reaches the wait, and a wait with no other thread running is
  `WouldBlock`. For the bounded channel, a blocked operation is resumed by
  repeating the step. For the unbuffered channel, `Receive` registers a fresh
  cell and reports `WouldBlock` with that cell. The receive completes when the
  cell's `WaitForValue` reports `Done`.
- **Cancellation.** A cancellation token is a boolean `cancel` read at the
  step. The overloads without a token are the same calls with `cancel` false.
- **Errors.** Exceptions become the `Error` kinds `Closed`, `NoReceiver`,
  `Canceled`, `BadArgument` and `NotImplemented`. `Closed` and `NoReceiver` are
  both InvalidOperationException in the source (`IsInvalidOperation`).
- **Interface.** The interface `IChan` is a sum type with one variant per kind
  (`ChanInterface.IChan`). A call through the interface is a `match`.
- **Bounded channel.** There are two near-identical copies: `Chan/BufferedChan.cs`
  and `Chan/BufferedChan/BufferedChan.cs`. The second is `internal`, uses
  `ChanUtility.AssertChanNotClosed`, and behaves the same apart from the
  constructor's message text. One class, `BufferedChannel.BufferedChan`,
  models both. The copies' lines are: constructor at 16-23, `Count` at 25-28,
  `Send` at 32-42, `Close` at 49-52, `Receive` at 59-79 and `Yield` at 86-93.
  The class's methods are proved equal to the pure step functions `SendStep`,
  `ReceiveStep` and `CloseStep`.
- **Trace lemma.** `RunKeepsFifo` covers any interleaving of whole operations.
  It proves the capacity bound and the FIFO law for that atomic-step model.

Facts about the code that the model keeps:

- `Chan(0)` fails with an argument error, like any size below 1. Only an
  absent size builds an unbuffered channel.
- `Close` does not signal any waiter.
- An unbuffered `Send` to a receiver that was cancelled does not skip that
  receiver. The item goes into the abandoned cell.
- A bounded `Send` tests whether the queue is full (Chan/BufferedChan.cs:54)
  and enqueues at a later point (Chan/BufferedChan.cs:59-60). Nothing makes the
  two atomic, and the duplicate copy has the same gap. Two threads sending to an
  empty channel of capacity 1 can both pass the test, and `Count` becomes 2.
  While `Count` stays above the capacity, the `==` test does not hold, so
  further sends do not wait and `Count` can keep growing. Once receives bring
  `Count` back to the capacity, sends wait again. The model
  treats each `Send` as one atomic step, so its capacity bound is a property of
  that model, not of the concurrent library.

## Model

| member | source | states |
|---|---|---|
| `ChanCore.AssertNotClosed` | Chan/Helpers/ChanUtility.cs:7-10 | Throws "closed" exactly when the flag is set and does nothing else. The private copies at Chan/BufferedChan.cs:147-150 and Chan/UnbufferedChan.cs:72-75 are the same guard. |
| `BufferedChannel.SendStep` | Chan/BufferedChan.cs:52-62 | Succeeds iff open and not full, and then appends the item at the tail. Closed gives `Closed` whether full or not. Full and open gives `Canceled` iff the token fired, otherwise `WouldBlock`, so the token is observed only while full. Every failure or block leaves the state unchanged. `count <= capacity` is preserved. |
| `BufferedChannel.ReceiveStep` | Chan/BufferedChan.cs:98-118 | A fired token gives `Canceled` and removes nothing, even with items pending. Otherwise it returns the head and removes only it, closed or not. Empty and closed gives `Closed`. Empty and open gives `WouldBlock`. Failures leave the state unchanged and the capacity bound is preserved. |
| `BufferedChannel.CloseStep` | Chan/BufferedChan.cs:76-79 | Sets the closed flag and keeps the items and the capacity. Closing a closed channel changes nothing. |
| `BufferedChannel.RunKeepsFifo` | ChanTests/BufferedChanTests.cs:300-332 | For any sequence of whole (atomic) sends, receives and closes: `0 <= Count <= capacity` holds throughout. Received items followed by pending items equal the initial pending items followed by sent items, so nothing is lost, duplicated or reordered. Closed stays closed, and no send succeeds after close. |
| `BufferedChannel.BufferedChan.constructor` | Chan/BufferedChan.cs:22-29 | A new channel is empty and open, with the given capacity. |
| `BufferedChannel.BufferedChan.Create` | Chan/BufferedChan.cs:22-29 | A size below 1 fails with `BadArgument`. Any other size gives a fresh, empty, open channel of exactly that capacity. |
| `BufferedChannel.BufferedChan.Count` | Chan/BufferedChan.cs:34-37 | Returns the number of pending items, which never exceeds the capacity in the atomic-step model. |
| `BufferedChannel.BufferedChan.Send` | Chan/BufferedChan.cs:52-62 | The outcome and the new state are exactly `SendStep` of the old state, and the invariant is kept. |
| `BufferedChannel.BufferedChan.Receive` | Chan/BufferedChan.cs:98-118 | The outcome and the new state are exactly `ReceiveStep` of the old state, and the invariant is kept. |
| `BufferedChannel.BufferedChan.Close` | Chan/BufferedChan.cs:76-79 | The new state is `CloseStep` of the old state. |
| `UnbufferedReceiver.UnbufferedChanReceiver.constructor` | Chan/UnbufferedChan/UnbufferedChanReceiver.cs:11-14 | A new cell holds no value. |
| `UnbufferedReceiver.UnbufferedChanReceiver.WakeUp` | Chan/UnbufferedChan/UnbufferedChanReceiver.cs:21-26 | An absent provider fails with `BadArgument` and leaves the cell unchanged. A present one is stored and overwrites any earlier one. |
| `UnbufferedReceiver.UnbufferedChanReceiver.WaitForValue` | Chan/UnbufferedChan/UnbufferedChanReceiver.cs:28-35 | A filled cell returns exactly the deposited item, whatever the token. An empty cell gives `Canceled` if the token fired, otherwise `WouldBlock`. |
| `UnbufferedChannel.SendOutcome` | Chan/UnbufferedChan.cs:29-38 | An unbuffered send never blocks. Closed is checked first, then the token, then the queue. It succeeds iff open, not cancelled and at least one receiver is queued, and otherwise fails with `NoReceiver`. |
| `UnbufferedChannel.ReceiveOutcome` | Chan/UnbufferedChan.cs:45-56 | A fired token gives `Canceled` before the closed check. Closed gives `Closed`. Otherwise the receive waits and never completes within its own step. |
| `UnbufferedChannel.UnbufferedChan.constructor` | Chan/UnbufferedChan.cs:12-15 | A new channel is open with no queued receiver. |
| `UnbufferedChannel.UnbufferedChan.Close` | Chan/UnbufferedChan.cs:19-22 | Sets the flag and leaves the receiver queue as it was. |
| `UnbufferedChannel.UnbufferedChan.Send` | Chan/UnbufferedChan.cs:29-38 | The outcome is `SendOutcome`. A success removes exactly the head cell and fills it with the item, and leaves the other cells untouched. A failure changes neither the queue nor any cell. |
| `UnbufferedChannel.UnbufferedChan.Receive` | Chan/UnbufferedChan.cs:45-56 | The outcome is `ReceiveOutcome`. A refused receive registers no cell. An accepted one appends one fresh, empty cell at the tail and returns it. |
| `UnbufferedChannel.ReceiversThenSends` | ChanTests/UnbufferedChanTests.cs:89-106 | N receivers queue, then N items are sent. Every send succeeds, and the i-th receiver obtains exactly the i-th item. The received multiset equals the sent multiset, and the queue ends empty. |
| `UnbufferedChannel.CanceledReceiverKeepsItsCell` | Chan/UnbufferedChan.cs:51-55 | A receiver cancelled while waiting keeps its cell in the queue. The next send succeeds by filling that abandoned cell. |
| `YieldEnumerator.MoveNextResult` | Chan/Helpers/ChanYieldEnumerator.cs:23-38 | Returns true iff the receive succeeded. It waits iff the receive waits. It returns false iff the receive failed with cancellation or an InvalidOperationException. Any other error escapes unchanged. |
| `YieldEnumerator.ChanYieldEnumerator.constructor` | Chan/Helpers/ChanYieldEnumerator.cs:13-17 | Keeps the target channel and the token. |
| `YieldEnumerator.ChanYieldEnumerator.MoveNext` | Chan/Helpers/ChanYieldEnumerator.cs:23-38 | On a bounded target it performs exactly one `ReceiveStep`. `Current` becomes the received item on success and is otherwise unchanged. On an unbuffered target it registers one fresh, empty cell at the tail exactly when the receive is accepted, and never moves on. |
| `YieldEnumerator.ChanYieldEnumerator.Reset` | Chan/Helpers/ChanYieldEnumerator.cs:40-43 | Always fails with `NotImplemented`, so the enumeration is single-pass. |
| `YieldEnumerator.YieldDrainsPending` | Chan/BufferedChan.cs:138-145 | With a fired token, `Yield` yields nothing and ends, even when items are pending. Otherwise it yields every pending item in FIFO order and empties the queue. It then ends if the channel is closed, and does not terminate if the channel is open. |
| `YieldEnumerator.YieldAfterCloseDeliversAll` | ChanTests/BufferedChanTests.cs:270-298 | After any interleaving of whole (atomic) operations on a new bounded channel, close it and iterate. The receives followed by the iteration give exactly the sent items in order. The iteration then ends without an exception and leaves the channel empty. |
| `YieldEnumerator.YieldBuffered` | Chan/BufferedChan.cs:138-145 | The `MoveNext` loop yields exactly what `DrainBuffered` describes: all pending items in order when the token has not fired, then it ends iff the channel is closed. With a fired token it yields nothing and changes nothing. |
| `YieldEnumerator.YieldUnbuffered` | Chan/UnbufferedChan.cs:63-70 | It yields nothing in its first step. It ends, registering nothing, when the token fired or the channel is closed. Otherwise it appends one fresh, empty cell at the tail of the queue and waits. |
| `Facade.SelectKind` | Chan/Chan.cs:19-29 | An absent size selects unbuffered. A size of at least 1 selects bounded with exactly that capacity. A present size below 1, 0 included, is `BadArgument` and never falls back to unbuffered. |
| `Facade.Chan.Create` | Chan/Chan.cs:19-29 | Builds the channel that `SelectKind` chooses (fresh, empty and open), or fails with its error. |
| `Facade.Chan.IsClosed` | Chan/Chan.cs:34-37 | Returns the wrapped channel's closed flag. |
| `Facade.Chan.Close` | Chan/Chan.cs:41-44 | Closes the wrapped channel and changes nothing else. |
| `Facade.Chan.Send` | Chan/Chan.cs:62-65 | Forwards the item and the token. The outcome and the new state are those of the wrapped channel's `Send`. On an unbuffered channel a failed send changes neither the queue nor the head cell. |
| `Facade.Chan.Receive` | Chan/Chan.cs:82-85 | Forwards the token. The outcome and the new state are those of the wrapped channel's `Receive`. |
| `Facade.Chan.Yield` | Chan/Chan.cs:103-106 | Forwards the token. It yields what the wrapped channel's `Yield` yields. On an unbuffered channel that waits, the only change is one fresh, empty cell at the tail. |

## Left out

- `BufferedChannel.RunKeepsFifo`: the source's full test and its enqueue are
  separate steps (Chan/BufferedChan.cs:54 and 59-60), so concurrent senders can
  push `Count` above the capacity. The proved bound holds only for the model,
  where each `Send` is one atomic step.
- Real blocking, wake-ups and thread interleaving are not modelled. The event
  handles' `Wait` and `Set`, and the thread safety of the concurrent queues,
  are replaced by atomic steps and the `WouldBlock` outcome. `Run` lets any
  interleaving of whole steps be stated, but not interleavings inside a step.
- Liveness after `Close` is not modelled. `Close` sets no event, and nothing
  here claims that a blocked waiter wakes.
- Cancellation tokens are reduced to a boolean read at the step.
- `Dispose` of a receiver cell and of the enumerator only releases resources.
  What a disposed event handle does when a later send signals it is not
  modelled.
- `YieldEnumerator.YieldUnbuffered`: an unbuffered `Yield` that waits in its
  first `MoveNext` is not resumed. The item a later send puts in the
  registered cell would be the first item yielded. The model ends at that wait.
- `YieldEnumerator.ChanYieldEnumerator.MoveNext`: on an unbuffered target, a
  `MoveNext` that waits is not resumed, for the same reason.
- `Yield` is a lazy C# iterator. The model computes the items it yields up to
  the point where it ends or waits.
- A value provider is modelled by the item it returns. Every provider a sender
  stores returns the sent item.
- `Current` before the first successful `MoveNext` is the default value of the
  item type in the source. The model writes it as `None`.
- `Count` is not modelled for the unbuffered channel, which has no such member.
- The `Chan` facade's `Send`, `Receive` and `Yield` overloads without a token
  are the same calls with `cancel` false.
- ChanTests/ChanTests.cs calls members that `Chan` does not have. The
  benchmark ChanTests/ChanVsBlockingCollectionPerformanceTests.cs measures
  timing. Neither is modelled.
