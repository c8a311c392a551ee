/**
 * The iteration adapter (`ChanYieldEnumerator`) and the `Yield` loops of
 * both channels. Each `MoveNext` performs one `Receive` step: a received
 * item becomes `Current` and the enumeration moves on; cancellation and
 * every InvalidOperationException end it silently; any other error would
 * escape to the consumer; a receive that has to wait makes `MoveNext` wait.
 */
module YieldEnumerator {
  import opened ChanCore
  import opened BufferedChannel
  import opened UnbufferedReceiver
  import opened UnbufferedChannel
  import opened ChanInterface

  /** What one `MoveNext` does: returns true, returns false, waits, or lets
      an exception through. */
  datatype MoveResult = Moved | Ended | Stuck | Threw(error: Error)

  /** `MoveNext` as a function of the outcome of the `Receive` it calls. */
  function MoveNextResult<T>(o: Outcome<T>): (m: MoveResult)
    ensures m == Moved <==> o.Done?
    ensures m == Stuck <==> o.WouldBlock?
    ensures m == Ended <==> o.Failed? && (o.error == Canceled || IsInvalidOperation(o.error))
    ensures m.Threw? ==> o.Failed? && m.error == o.error
  {
    match o
    case Done(_) => Moved
    case WouldBlock => Stuck
    case Failed(e) => if e == Canceled || IsInvalidOperation(e) then Ended else Threw(e)
  }

  class ChanYieldEnumerator<T> {
    const target: IChan<T>
    const cancel: bool
    /** `Current`; `None` stands for the default value it has before the
        first successful `MoveNext`. */
    var current: Option<T>

    ghost predicate Valid()
      reads this, Repr(target)
    {
      ChanInterface.Valid(target)
    }

    constructor (target: IChan<T>, cancel: bool)
      requires ChanInterface.Valid(target)
      ensures Valid()
      ensures this.target == target && this.cancel == cancel && current == None
    {
      this.target := target;
      this.cancel := cancel;
      current := None;
    }

    /** One receive from the target. On a bounded channel it is exactly one
        `ReceiveStep`; on an unbuffered channel it registers a cell exactly
        when the receive is accepted, and can never move on within the step.
        `Current` changes only when an item is received. */
    method MoveNext() returns (m: MoveResult)
      requires Valid()
      modifies this, Repr(target)
      ensures Valid()
      ensures target.Buffered? ==>
        var step := ReceiveStep(old(target.b.State()), cancel);
        && target.b.State() == step.1
        && m == MoveNextResult(step.0)
        && current == (if step.0.Done? then Some(step.0.value) else old(current))
      ensures target.Unbuffered? ==>
        var o := ReceiveOutcome<T>(old(target.u.isClosed), cancel);
        && m == MoveNextResult(o)
        && current == old(current)
        && target.u.isClosed == old(target.u.isClosed)
        && (o.WouldBlock? ==>
              |target.u.receivers| == |old(target.u.receivers)| + 1
              && target.u.receivers[..|old(target.u.receivers)|] == old(target.u.receivers)
              && fresh(target.u.receivers[|old(target.u.receivers)|])
              && target.u.receivers[|old(target.u.receivers)|].provider == None)
        && (!o.WouldBlock? ==> target.u.receivers == old(target.u.receivers))
    {
      var o: Outcome<T>;
      match target {
        case Buffered(b) =>
          o := b.Receive(cancel);
        case Unbuffered(u) =>
          var cell;
          o, cell := u.Receive(cancel);
      }
      m := MoveNextResult(o);
      if o.Done? {
        current := Some(o.value);
      }
    }

    /** Restarting the enumeration is not supported: it always throws and
        changes nothing, so the sequence is single-pass. */
    method Reset() returns (r: Outcome<()>)
      ensures r == Failed(NotImplemented)
    {
      r := Failed(NotImplemented);
    }
  }

  /** What `Yield` over a bounded channel in state `b` produces before it
      stops or has to wait: the items yielded, the last `MoveNext` result,
      and the state left behind. */
  function DrainBuffered<T>(b: Buffer<T>, cancel: bool): (seq<T>, MoveResult, Buffer<T>)
    decreases |b.items|
  {
    var step := ReceiveStep(b, cancel);
    var m := MoveNextResult(step.0);
    if m == Moved then
      var rest := DrainBuffered(step.1, cancel);
      ([step.0.value] + rest.0, rest.1, rest.2)
    else ([], m, step.1)
  }

  /** `Yield` with a fired token yields nothing and ends at once, even when
      items are pending. Otherwise it yields every pending item in FIFO
      order and empties the queue; it then ends if the channel is closed,
      and waits forever (does not terminate) if the channel is open. */
  lemma {:induction false} YieldDrainsPending<T>(b: Buffer<T>, cancel: bool)
    ensures cancel ==> DrainBuffered(b, cancel) == ([], Ended, b)
    ensures !cancel ==>
      DrainBuffered(b, cancel) == (b.items, if b.closed then Ended else Stuck, b.(items := []))
    decreases |b.items|
  {
    if !cancel {
      if |b.items| > 0 {
        YieldDrainsPending(b.(items := b.items[1..]), cancel);
        assert b.items == [b.items[0]] + b.items[1..];
      } else {
        assert b.items == [];
      }
    }
  }

  /** Under any interleaving of whole (atomic) sends, receives and closes on
      a new bounded channel, closing it and then iterating it yields exactly the sent items
      that no `Receive` took, in send order, and the iteration then ends
      without an exception and leaves the channel empty. */
  lemma YieldAfterCloseDeliversAll<T>(capacity: nat, ops: seq<Op<T>>)
    requires 1 <= capacity
    ensures var t := Run(Buffer(capacity, [], false), ops);
            var y := DrainBuffered(CloseStep(t.final), false);
            t.received + y.0 == t.sent && y.1 == Ended && y.2.items == []
  {
    var b0: Buffer<T> := Buffer(capacity, [], false);
    RunKeepsFifo(b0, ops);
    var t := Run(b0, ops);
    YieldDrainsPending(CloseStep(t.final), false);
    assert b0.items + t.sent == t.sent;
  }

  /** `BufferedChan.Yield`: loops on `MoveNext` and yields `Current` until
      `MoveNext` returns false or has to wait. */
  method YieldBuffered<T>(c: BufferedChan<T>, cancel: bool) returns (ys: seq<T>, m: MoveResult)
    requires c.Valid()
    modifies c
    ensures c.Valid()
    ensures (ys, m, c.State()) == DrainBuffered(old(c.State()), cancel)
    ensures cancel ==> ys == [] && m == Ended && c.State() == old(c.State())
    ensures !cancel ==> ys == old(c.items) && c.items == [] && c.isClosed == old(c.isClosed)
    ensures !cancel ==> (m == Ended <==> old(c.isClosed)) && (m == Stuck <==> !old(c.isClosed))
  {
    YieldDrainsPending(c.State(), cancel);
    var e := new ChanYieldEnumerator(Buffered(c), cancel);
    ys := [];
    while true
      invariant c.Valid() && e.Valid() && fresh(e) && e.target == Buffered(c) && e.cancel == cancel
      invariant c.isClosed == old(c.isClosed)
      invariant cancel ==> ys == [] && c.items == old(c.items)
      invariant !cancel ==> old(c.items) == ys + c.items
      decreases |c.items|
    {
      ghost var before := c.items;
      m := e.MoveNext();
      if m != Moved {
        assert !cancel ==> before == [] && ys == old(c.items);
        assert c.State() == if cancel then old(c.State()) else old(c.State()).(items := []);
        return;
      }
      assert before == [e.current.value] + c.items;
      assert ys + before == (ys + [e.current.value]) + c.items;
      ys := ys + [e.current.value];
    }
  }

  /** `UnbufferedChan.Yield`: the first `MoveNext` either ends the
      enumeration (fired token, or closed channel) with nothing registered,
      or registers one receiver cell and waits on it. */
  method YieldUnbuffered<T>(c: UnbufferedChan<T>, cancel: bool) returns (ys: seq<T>, m: MoveResult)
    requires c.Valid()
    modifies c
    ensures c.Valid() && c.isClosed == old(c.isClosed)
    ensures ys == []
    ensures cancel || old(c.isClosed) ==> m == Ended && c.receivers == old(c.receivers)
    ensures !cancel && !old(c.isClosed) ==>
      && m == Stuck
      && |c.receivers| == |old(c.receivers)| + 1
      && c.receivers[..|old(c.receivers)|] == old(c.receivers)
      && fresh(c.receivers[|old(c.receivers)|])
      && c.receivers[|old(c.receivers)|].provider == None
  {
    var e := new ChanYieldEnumerator(Unbuffered(c), cancel);
    ys := [];
    // the loop of the source stops at its first test: an unbuffered receive
    // never completes within the step that registers its cell
    m := e.MoveNext();
  }
}
