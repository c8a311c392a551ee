/**
 * The unbuffered channel (`UnbufferedChan`): no item is ever buffered. A
 * receiver registers a fresh cell at the tail of the queue of waiting
 * receivers and waits on it; a sender never waits: it takes the head cell
 * and fills it, or fails at once when no receiver is queued.
 *
 * With waits collapsed into steps, `Receive` registers the cell and reports
 * `WouldBlock` together with the cell; the receive completes when
 * `WaitForValue` on that cell reports `Done`.
 */
module UnbufferedChannel {
  import opened ChanCore
  import opened UnbufferedReceiver

  /** What one `Send(item, token)` step reports, given the closed flag, the
      token and the number of queued receivers. It never blocks; the closed
      flag is checked before the token, the token before the queue. */
  function SendOutcome(closed: bool, cancel: bool, waiting: nat): (r: Outcome<()>)
    ensures !r.WouldBlock?
    ensures r.Done? <==> !closed && !cancel && waiting > 0
    ensures closed ==> r == Failed(Closed)
    ensures !closed && cancel ==> r == Failed(Canceled)
    ensures !closed && !cancel && waiting == 0 ==> r == Failed(NoReceiver)
  {
    var guard := AssertNotClosed(closed);
    if guard.Failed? then guard
    else if cancel then Failed(Canceled)
    else if waiting == 0 then Failed(NoReceiver)
    else Done(())
  }

  /** What one `Receive(token)` step reports. The token is checked before
      the closed flag; an accepted receive always has to wait for a sender,
      so it never completes within the step. */
  function ReceiveOutcome<T>(closed: bool, cancel: bool): (r: Outcome<T>)
    ensures !r.Done?
    ensures cancel ==> r == Failed(Canceled)
    ensures !cancel && closed ==> r == Failed(Closed)
    ensures !cancel && !closed ==> r == WouldBlock
  {
    if cancel then Failed(Canceled)
    else
      var guard := AssertNotClosed(closed);
      if guard.Failed? then Failed(guard.error)
      else WouldBlock
  }

  class UnbufferedChan<T> {
    var isClosed: bool
    /** The `_receivers` queue; the head is the earliest waiting receiver. */
    var receivers: seq<UnbufferedChanReceiver<T>>

    /** Every queued cell is a distinct object. */
    ghost predicate Valid()
      reads this
    {
      forall i, j :: 0 <= i < j < |receivers| ==> receivers[i] != receivers[j]
    }

    /** The cell the next successful `Send` fills. */
    ghost function Head(): set<object>
      reads this
    {
      if |receivers| == 0 then {} else {receivers[0]}
    }

    constructor ()
      ensures Valid() && !isClosed && receivers == []
    {
      isClosed := false;
      receivers := [];
    }

    method Close()
      modifies this
      ensures isClosed && receivers == old(receivers)
    {
      isClosed := true;
    }

    /** A successful send removes exactly the head cell and fills it with the
        item; the other queued cells are neither removed nor touched. A failed
        send changes nothing and stores the item nowhere. */
    method Send(item: T, cancel: bool) returns (r: Outcome<()>)
      requires Valid()
      modifies this, Head()
      ensures Valid() && isClosed == old(isClosed)
      ensures r == SendOutcome(old(isClosed), cancel, |old(receivers)|)
      ensures r.Done? ==> receivers == old(receivers)[1..] && old(receivers)[0].provider == Some(item)
      ensures !r.Done? ==> receivers == old(receivers) && unchanged(old(Head()))
    {
      r := AssertNotClosed(isClosed);
      if r.Failed? {
        return;
      }
      if cancel {
        return Failed(Canceled);
      }
      if |receivers| == 0 {
        return Failed(NoReceiver);
      }
      var receiver := receivers[0];
      receivers := receivers[1..];
      r := receiver.WakeUp(Some(item));
    }

    /** A refused receive (token fired, or channel closed) registers nothing.
        An accepted one appends a fresh, empty cell at the tail and waits on
        it; the caller resumes the wait with `cell.WaitForValue`. */
    method Receive(cancel: bool) returns (r: Outcome<T>, cell: UnbufferedChanReceiver?<T>)
      requires Valid()
      modifies this
      ensures Valid() && isClosed == old(isClosed)
      ensures r == ReceiveOutcome(old(isClosed), cancel)
      ensures r.WouldBlock? ==> cell != null && fresh(cell) && cell.provider == None
      ensures r.WouldBlock? ==> receivers == old(receivers) + [cell]
      ensures !r.WouldBlock? ==> cell == null && receivers == old(receivers)
    {
      if cancel {
        return Failed(Canceled), null;
      }
      var guard := AssertNotClosed(isClosed);
      if guard.Failed? {
        return Failed(guard.error), null;
      }
      cell := new UnbufferedChanReceiver();
      receivers := receivers + [cell];
      r := cell.WaitForValue(cancel);
    }
  }

  /** N receivers queue up on an open channel with no receiver waiting, then
      N items are sent one after another, then each receiver resumes its
      wait. Every send succeeds and the i-th receiver obtains exactly the
      i-th item: each item is delivered once, to one receiver, in FIFO order
      of the receivers, so what is received is what was sent. */
  method ReceiversThenSends<T>(c: UnbufferedChan<T>, items: seq<T>) returns (received: seq<T>)
    requires c.Valid() && !c.isClosed && c.receivers == []
    modifies c
    ensures c.Valid() && c.receivers == []
    ensures received == items
    ensures multiset(received) == multiset(items)
  {
    var cells: seq<UnbufferedChanReceiver<T>> := [];
    for i := 0 to |items|
      invariant c.Valid() && !c.isClosed && c.receivers == cells && |cells| == i
      invariant forall k :: 0 <= k < i ==> fresh(cells[k]) && cells[k].provider == None
    {
      var r, cell := c.Receive(false);
      cells := cells + [cell];
    }
    var all := cells;
    assert forall p, q :: 0 <= p < q < |all| ==> all[p] != all[q];
    for i := 0 to |items|
      invariant |all| == |items|
      invariant c.Valid() && !c.isClosed && c.receivers == all[i..]
      invariant forall k :: 0 <= k < i ==> all[k].provider == Some(items[k])
    {
      var r := c.Send(items[i], false);
    }
    assert |all[|items|..]| == 0;
    received := [];
    for i := 0 to |items|
      invariant c.Valid() && c.receivers == []
      invariant forall k :: 0 <= k < |items| ==> all[k].provider == Some(items[k])
      invariant received == items[..i]
    {
      var r := all[i].WaitForValue(false);
      received := received + [r.value];
    }
    assert items[..|items|] == items;
  }

  /** A receiver registers its cell, then its token fires while it waits:
      its receive fails with cancellation, but nothing takes the cell off the
      queue. The next send therefore succeeds by filling that abandoned
      cell, and no waiting receiver obtains the item. */
  method CanceledReceiverKeepsItsCell<T>(c: UnbufferedChan<T>, item: T)
      returns (waited: Outcome<T>, sent: Outcome<()>, cell: UnbufferedChanReceiver?<T>)
    requires c.Valid() && !c.isClosed && c.receivers == []
    modifies c
    ensures waited == Failed(Canceled)
    ensures sent == Done(())
    ensures cell != null && fresh(cell) && cell.provider == Some(item)
    ensures c.Valid() && c.receivers == []
  {
    var r;
    r, cell := c.Receive(false);
    waited := cell.WaitForValue(true);
    assert c.receivers == [cell];
    sent := c.Send(item, false);
  }
}
