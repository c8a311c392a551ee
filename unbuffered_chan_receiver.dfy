/**
 * The one-shot cell through which an unbuffered channel hands an item from
 * a sender to one waiting receiver (`UnbufferedChanReceiver`). The source
 * stores a value provider; the only provider any sender stores returns the
 * sent item, so the model stores that item. A null provider is `None`.
 */
module UnbufferedReceiver {
  import opened ChanCore

  class UnbufferedChanReceiver<T> {
    /** What a sender deposited; `None` until `WakeUp` is called. */
    var provider: Option<T>

    /** A new cell is empty. */
    constructor ()
      ensures provider == None
    {
      provider := None;
    }

    /** Deposits a provider and signals the cell. An absent provider is an
        argument error and leaves the cell as it was; a second deposit
        overwrites the first. */
    method WakeUp(f: Option<T>) returns (r: Outcome<()>)
      modifies this
      ensures f.None? ==> r == Failed(BadArgument) && provider == old(provider)
      ensures f.Some? ==> r == Done(()) && provider == f
    {
      if f.None? {
        return Failed(BadArgument);
      }
      provider := f;
      r := Done(());
    }

    /** The receiver's wait on the cell: a filled cell yields exactly the
        deposited item, whatever the token says; an empty cell waits, so the
        step reports `WouldBlock`, or cancellation if the token has fired. */
    method WaitForValue(cancel: bool) returns (r: Outcome<T>)
      ensures provider.Some? ==> r == Done(provider.value)
      ensures provider.None? && cancel ==> r == Failed(Canceled)
      ensures provider.None? && !cancel ==> r == WouldBlock
    {
      if provider.None? {
        // the wait on the event handle
        r := if cancel then Failed(Canceled) else WouldBlock;
        return;
      }
      r := Done(provider.value);
    }
  }
}
