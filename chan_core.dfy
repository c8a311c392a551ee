/**
 * Vocabulary shared by every channel of the model: the exceptions the
 * channel operations throw, grouped by kind, and the outcome of one atomic
 * step. A step that would suspend the calling thread (a wait on an event
 * handle) returns `WouldBlock` instead of waiting, and changes nothing
 * unless its contract says otherwise.
 */
module ChanCore {

  /** The exceptions of the channel library, by kind. */
  datatype Error =
    | Closed          // InvalidOperationException: the channel has been closed
    | NoReceiver      // InvalidOperationException: unbuffered send with no queued receiver
    | Canceled        // OperationCanceledException: the cancellation token has fired
    | BadArgument     // ArgumentOutOfRangeException or ArgumentNullException
    | NotImplemented  // NotImplementedException

  /** The kinds that are an InvalidOperationException in the library. */
  predicate IsInvalidOperation(e: Error) {
    e == Closed || e == NoReceiver
  }

  /** The outcome of one atomic step of a channel operation. */
  datatype Outcome<+T> = Done(value: T) | Failed(error: Error) | WouldBlock

  datatype Option<+T> = None | Some(value: T)

  /** The guard every channel runs before it accepts an item: it throws
      "closed" exactly when the closed flag is set, and does nothing else. */
  function AssertNotClosed(closed: bool): (r: Outcome<()>)
    ensures r.Done? <==> !closed
    ensures !r.Done? ==> r == Failed(Closed)
  {
    if closed then Failed(Closed) else Done(())
  }
}
