/**
 * The bounded channel (`BufferedChan`): a fixed capacity, a FIFO queue of
 * pending items and a one-way closed flag.
 *
 * The source waits in `while` loops that re-check the queue length after
 * every wake-up. With every wait collapsed into one atomic step the first
 * pass of such a loop either leaves it or reaches the wait, and a wait with
 * no other thread running is reported as `WouldBlock` with the state left
 * as it was. `SendStep`, `ReceiveStep` and `CloseStep` are that step as
 * functions on the abstract state; the class `BufferedChan` performs them
 * in place and is proved equal to them.
 */
module BufferedChannel {
  import opened ChanCore

  /** Abstract state of a bounded channel; `items[0]` is the head. */
  datatype Buffer<T> = Buffer(capacity: nat, items: seq<T>, closed: bool)

  /** The invariant the channel keeps at every observable instant. */
  predicate Invariant<T>(b: Buffer<T>) {
    1 <= b.capacity && |b.items| <= b.capacity
  }

  /** One step of `Send(item, token)`. The token is looked at only while the
      queue is full; the closed flag is looked at both while full and before
      the enqueue. */
  function SendStep<T>(b: Buffer<T>, item: T, cancel: bool): (r: (Outcome<()>, Buffer<T>))
    ensures r.0.Done? <==> !b.closed && |b.items| != b.capacity
    ensures r.0.Done? ==> r.1 == b.(items := b.items + [item])
    ensures !r.0.Done? ==> r.1 == b
    ensures r.0 == Failed(Closed) <==> b.closed
    ensures r.0 == Failed(Canceled) <==> !b.closed && |b.items| == b.capacity && cancel
    ensures r.0 == WouldBlock <==> !b.closed && |b.items| == b.capacity && !cancel
    ensures Invariant(b) ==> Invariant(r.1)
  {
    if |b.items| == b.capacity then
      if b.closed then (Failed(Closed), b)
      else if cancel then (Failed(Canceled), b)
      else (WouldBlock, b)
    else
      var guard := AssertNotClosed(b.closed);
      if guard.Failed? then (guard, b)
      else (Done(()), b.(items := b.items + [item]))
  }

  /** One step of `Receive(token)`: the token first, then the head of the
      queue (closed or not), then the closed flag of an empty queue. */
  function ReceiveStep<T>(b: Buffer<T>, cancel: bool): (r: (Outcome<T>, Buffer<T>))
    ensures r.0.Done? <==> !cancel && |b.items| > 0
    ensures r.0.Done? ==> r.0.value == b.items[0] && r.1 == b.(items := b.items[1..])
    ensures !r.0.Done? ==> r.1 == b
    ensures r.0 == Failed(Canceled) <==> cancel
    ensures r.0 == Failed(Closed) <==> !cancel && |b.items| == 0 && b.closed
    ensures r.0 == WouldBlock <==> !cancel && |b.items| == 0 && !b.closed
    ensures Invariant(b) ==> Invariant(r.1)
  {
    if cancel then (Failed(Canceled), b)
    else if |b.items| > 0 then (Done(b.items[0]), b.(items := b.items[1..]))
    else
      var guard := AssertNotClosed(b.closed);
      if guard.Failed? then (Failed(guard.error), b)
      else (WouldBlock, b)
  }

  /** `Close()`: sets the flag and nothing else; closing twice is closing once. */
  function CloseStep<T>(b: Buffer<T>): (r: Buffer<T>)
    ensures r.closed
    ensures r.items == b.items && r.capacity == b.capacity
    ensures b.closed ==> r == b
  {
    b.(closed := true)
  }

  /** An operation issued by some thread, as one atomic step. */
  datatype Op<T> = SendOp(item: T, cancel: bool) | ReceiveOp(cancel: bool) | CloseOp

  /** What a run of steps did: the final state, the items whose `Send`
      succeeded and the items `Receive` returned, each in step order. */
  datatype Trace<T> = Trace(final: Buffer<T>, sent: seq<T>, received: seq<T>)

  /** Any interleaving of whole (atomic) operations, applied in order.
      A step that would block has no effect; retrying it later is another
      operation of the sequence. */
  function Run<T>(b: Buffer<T>, ops: seq<Op<T>>): Trace<T>
    decreases |ops|
  {
    if |ops| == 0 then Trace(b, [], [])
    else match ops[0]
      case SendOp(x, c) =>
        var step := SendStep(b, x, c);
        var t := Run(step.1, ops[1..]);
        if step.0.Done? then t.(sent := [x] + t.sent) else t
      case ReceiveOp(c) =>
        var step := ReceiveStep(b, c);
        var t := Run(step.1, ops[1..]);
        if step.0.Done? then t.(received := [step.0.value] + t.received) else t
      case CloseOp =>
        Run(CloseStep(b), ops[1..])
  }

  /** Under any interleaving of whole (atomic) operations the channel keeps
      `0 <= Count <= capacity`, what was received followed by what is still pending is exactly what
      was pending followed by what was sent (FIFO: no loss, no duplication,
      no reordering), the closed flag never goes back, and once closed no
      `Send` succeeds. */
  lemma {:induction false} RunKeepsFifo<T>(b: Buffer<T>, ops: seq<Op<T>>)
    requires Invariant(b)
    ensures Invariant(Run(b, ops).final)
    ensures Run(b, ops).final.capacity == b.capacity
    ensures Run(b, ops).received + Run(b, ops).final.items == b.items + Run(b, ops).sent
    ensures b.closed ==> Run(b, ops).final.closed && Run(b, ops).sent == []
    decreases |ops|
  {
    if |ops| > 0 {
      match ops[0]
      case SendOp(x, c) =>
        var step := SendStep(b, x, c);
        RunKeepsFifo(step.1, ops[1..]);
        var t := Run(step.1, ops[1..]);
        if step.0.Done? {
          assert b.items + ([x] + t.sent) == (b.items + [x]) + t.sent;
        }
      case ReceiveOp(c) =>
        var step := ReceiveStep(b, c);
        RunKeepsFifo(step.1, ops[1..]);
        var t := Run(step.1, ops[1..]);
        if step.0.Done? {
          assert b.items == [b.items[0]] + b.items[1..];
          assert ([b.items[0]] + t.received) + t.final.items == [b.items[0]] + (t.received + t.final.items);
        }
      case CloseOp =>
        RunKeepsFifo(CloseStep(b), ops[1..]);
    }
  }

  /** The channel object: `_size`, `_queue` and `IsClosed` of the source. */
  class BufferedChan<T> {
    const capacity: nat
    var items: seq<T>
    var isClosed: bool

    ghost predicate Valid()
      reads this
    {
      Invariant(State())
    }

    /** The abstract state this object stands for. */
    function State(): Buffer<T>
      reads this
    {
      Buffer(capacity, items, isClosed)
    }

    constructor (size: nat)
      requires 1 <= size
      ensures Valid() && State() == Buffer(size, [], false)
    {
      capacity := size;
      items := [];
      isClosed := false;
    }

    /** The source constructor: a size below 1 is rejected, any other size
        gives an empty, open channel of exactly that capacity. */
    static method Create(size: int) returns (r: Outcome<BufferedChan<T>>)
      ensures r.Failed? <==> size < 1
      ensures r.Failed? ==> r.error == BadArgument
      ensures !r.WouldBlock?
      ensures r.Done? ==> fresh(r.value) && r.value.Valid()
      ensures r.Done? ==> r.value.capacity == size && r.value.items == [] && !r.value.isClosed
    {
      if size < 1 {
        return Failed(BadArgument);
      }
      var c := new BufferedChan(size);
      return Done(c);
    }

    /** `Count`: the number of pending items, never above the capacity. */
    function Count(): (n: nat)
      reads this
      requires Valid()
      ensures n == |items|
      ensures n <= capacity
    {
      |items|
    }

    method Send(item: T, cancel: bool) returns (r: Outcome<()>)
      requires Valid()
      modifies this
      ensures Valid()
      ensures (r, State()) == SendStep(old(State()), item, cancel)
    {
      if |items| == capacity {
        r := AssertNotClosed(isClosed);
        if r.Failed? {
          return;
        }
        // the wait on "can add": the token is observed here only
        r := if cancel then Failed(Canceled) else WouldBlock;
        return;
      }
      r := AssertNotClosed(isClosed);
      if r.Failed? {
        return;
      }
      items := items + [item];
    }

    method Receive(cancel: bool) returns (r: Outcome<T>)
      requires Valid()
      modifies this
      ensures Valid()
      ensures (r, State()) == ReceiveStep(old(State()), cancel)
    {
      if cancel {
        return Failed(Canceled);
      }
      if |items| > 0 {
        r := Done(items[0]);
        items := items[1..];
        return;
      }
      var guard := AssertNotClosed(isClosed);
      if guard.Failed? {
        return Failed(guard.error);
      }
      // the wait on "can take", with a token that has not fired
      r := WouldBlock;
    }

    method Close()
      requires Valid()
      modifies this
      ensures Valid()
      ensures State() == CloseStep(old(State()))
    {
      isClosed := true;
    }
  }
}
