/**
 * The operation set every channel offers (`IChan`): `IsClosed`, `Close`,
 * `Send`, `Receive` and `Yield`. The two implementations are the two
 * variants of a sum type; a call through the interface is a `match`.
 */
module ChanInterface {
  import opened BufferedChannel
  import opened UnbufferedChannel

  datatype IChan<T> = Buffered(b: BufferedChan<T>) | Unbuffered(u: UnbufferedChan<T>)

  /** The object behind the interface. */
  function Repr<T>(c: IChan<T>): set<object> {
    match c
    case Buffered(b) => {b}
    case Unbuffered(u) => {u}
  }

  /** What a `Send` may change: the channel, and for an unbuffered channel
      the head receiver cell that it fills. */
  ghost function SendFrame<T>(c: IChan<T>): set<object>
    reads Repr(c)
  {
    match c
    case Buffered(b) => {b}
    case Unbuffered(u) => {u} + u.Head()
  }

  ghost predicate Valid<T>(c: IChan<T>)
    reads Repr(c)
  {
    match c
    case Buffered(b) => b.Valid()
    case Unbuffered(u) => u.Valid()
  }

  function IsClosed<T>(c: IChan<T>): bool
    reads Repr(c)
  {
    match c
    case Buffered(b) => b.isClosed
    case Unbuffered(u) => u.isClosed
  }
}
