/**
 * The public channel (`Chan`): chooses an implementation from the optional
 * size given at construction and forwards every operation to it unchanged.
 */
module Facade {
  import opened ChanCore
  import opened BufferedChannel
  import opened UnbufferedReceiver
  import opened UnbufferedChannel
  import opened ChanInterface
  import opened YieldEnumerator

  datatype Kind = BufferedKind(capacity: nat) | UnbufferedKind

  /** The construction rule: an absent size gives an unbuffered channel; a
      present size gives a bounded channel of exactly that capacity, and a
      present size below 1 (0 included) is an argument error, never a fall
      back to the unbuffered channel. */
  function SelectKind(size: Option<int>): (k: Outcome<Kind>)
    ensures !k.WouldBlock?
    ensures k == Done(UnbufferedKind) <==> size.None?
    ensures k.Failed? <==> size.Some? && size.value < 1
    ensures k.Failed? ==> k.error == BadArgument
    ensures k.Done? && k.value.BufferedKind? ==> size == Some(k.value.capacity as int)
  {
    match size
    case None => Done(UnbufferedKind)
    case Some(n) => if n < 1 then Failed(BadArgument) else Done(BufferedKind(n))
  }

  class Chan<T> {
    const inner: IChan<T>

    ghost predicate Valid()
      reads this, Repr(inner)
    {
      ChanInterface.Valid(inner)
    }

    constructor Wrap(c: IChan<T>)
      requires ChanInterface.Valid(c)
      ensures inner == c && Valid()
    {
      inner := c;
    }

    /** The source constructor `Chan(size)`, following `SelectKind`. */
    static method Create(size: Option<int>) returns (r: Outcome<Chan<T>>)
      ensures SelectKind(size).Failed? ==> r == Failed(SelectKind(size).error)
      ensures SelectKind(size).Done? ==>
        r.Done? && fresh(r.value) && fresh(Repr(r.value.inner)) && r.value.Valid()
      ensures SelectKind(size) == Done(UnbufferedKind) ==>
        && r.Done? && r.value.inner.Unbuffered?
        && !r.value.inner.u.isClosed && r.value.inner.u.receivers == []
      ensures SelectKind(size).Done? && SelectKind(size).value.BufferedKind? ==>
        && r.Done? && r.value.inner.Buffered?
        && r.value.inner.b.State() == Buffer(SelectKind(size).value.capacity, [], false)
    {
      if size.None? {
        var u := new UnbufferedChan<T>();
        var c := new Chan.Wrap(Unbuffered(u));
        return Done(c);
      }
      var made := BufferedChan<T>.Create(size.value);
      if !made.Done? {
        return Failed(made.error);
      }
      var c := new Chan.Wrap(Buffered(made.value));
      return Done(c);
    }

    /** `IsClosed` reads the wrapped channel's flag. */
    function IsClosed(): (closed: bool)
      reads this, Repr(inner)
      ensures inner.Buffered? ==> (closed <==> inner.b.isClosed)
      ensures inner.Unbuffered? ==> (closed <==> inner.u.isClosed)
    {
      ChanInterface.IsClosed(inner)
    }

    /** `Close` closes the wrapped channel and touches nothing else. */
    method Close()
      requires Valid()
      modifies Repr(inner)
      ensures Valid() && IsClosed()
      ensures inner.Buffered? ==> inner.b.State() == CloseStep(old(inner.b.State()))
      ensures inner.Unbuffered? ==> inner.u.receivers == old(inner.u.receivers)
    {
      match inner {
        case Buffered(b) => b.Close();
        case Unbuffered(u) => u.Close();
      }
    }

    /** `Send` forwards the item and the token and reports what the wrapped
        channel reports. */
    method Send(item: T, cancel: bool) returns (r: Outcome<()>)
      requires Valid()
      modifies SendFrame(inner)
      ensures Valid()
      ensures inner.Buffered? ==>
        (r, inner.b.State()) == SendStep(old(inner.b.State()), item, cancel)
      ensures inner.Unbuffered? ==>
        && r == SendOutcome(old(inner.u.isClosed), cancel, |old(inner.u.receivers)|)
        && inner.u.isClosed == old(inner.u.isClosed)
        && (r.Done? ==>
              inner.u.receivers == old(inner.u.receivers)[1..]
              && old(inner.u.receivers)[0].provider == Some(item))
        && (!r.Done? ==> inner.u.receivers == old(inner.u.receivers) && unchanged(old(inner.u.Head())))
    {
      match inner {
        case Buffered(b) => r := b.Send(item, cancel);
        case Unbuffered(u) => r := u.Send(item, cancel);
      }
    }

    /** `Receive` forwards the token and reports what the wrapped channel
        reports; for an unbuffered channel the registered cell is where the
        receive resumes. */
    method Receive(cancel: bool) returns (r: Outcome<T>, cell: UnbufferedChanReceiver?<T>)
      requires Valid()
      modifies Repr(inner)
      ensures Valid()
      ensures inner.Buffered? ==>
        (r, inner.b.State()) == ReceiveStep(old(inner.b.State()), cancel) && cell == null
      ensures inner.Unbuffered? ==>
        && r == ReceiveOutcome(old(inner.u.isClosed), cancel)
        && inner.u.isClosed == old(inner.u.isClosed)
        && (r.WouldBlock? ==>
              cell != null && fresh(cell) && cell.provider == None
              && inner.u.receivers == old(inner.u.receivers) + [cell])
        && (!r.WouldBlock? ==> cell == null && inner.u.receivers == old(inner.u.receivers))
    {
      match inner {
        case Buffered(b) =>
          r := b.Receive(cancel);
          cell := null;
        case Unbuffered(u) =>
          r, cell := u.Receive(cancel);
      }
    }

    /** `Yield` forwards the token to the wrapped channel's `Yield`. */
    method Yield(cancel: bool) returns (ys: seq<T>, m: MoveResult)
      requires Valid()
      modifies Repr(inner)
      ensures Valid()
      ensures inner.Buffered? ==>
        (ys, m, inner.b.State()) == DrainBuffered(old(inner.b.State()), cancel)
      ensures inner.Unbuffered? ==>
        && ys == []
        && m == MoveNextResult(ReceiveOutcome<T>(old(inner.u.isClosed), cancel))
        && inner.u.isClosed == old(inner.u.isClosed)
        && (m == Stuck ==>
              |inner.u.receivers| == |old(inner.u.receivers)| + 1
              && inner.u.receivers[..|old(inner.u.receivers)|] == old(inner.u.receivers)
              && fresh(inner.u.receivers[|old(inner.u.receivers)|])
              && inner.u.receivers[|old(inner.u.receivers)|].provider == None)
        && (m != Stuck ==> inner.u.receivers == old(inner.u.receivers))
    {
      match inner {
        case Buffered(b) => ys, m := YieldBuffered(b, cancel);
        case Unbuffered(u) => ys, m := YieldUnbuffered(u, cancel);
      }
    }
  }
}
