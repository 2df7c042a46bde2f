/**
 * What the subscription clients rely on from the browser: the ready states of a
 * WebSocket, the effect of calling `close()` on one, and the timer table behind
 * `setTimeout`/`clearTimeout`, with timers as tokens rather than wall-clock time.
 */
module HostApi {

  /** The four values of `WebSocket.readyState`. */
  datatype ReadyState = Connecting | Open | Closing | Closed

  /**
   * The ready state after `socket.close()`: a CONNECTING or OPEN socket starts its
   * closing handshake; on a CLOSING or CLOSED socket the call does nothing.
   */
  function AfterCloseCall(st: ReadyState): (r: ReadyState)
    ensures r == Closing || r == Closed
    ensures r == Closed <==> st == Closed
    ensures st == Closing ==> r == Closing
  {
    match st
    case Connecting => Closing
    case Open => Closing
    case Closing => Closing
    case Closed => Closed
  }

  /**
   * Every timer ever set, as the delay it was given (its handle is its index), and
   * the handles that have neither fired nor been cleared.
   */
  datatype Timers = Timers(delays: seq<nat>, pending: set<nat>) {

    ghost predicate Valid() {
      forall h | h in pending :: h < |delays|
    }

    /** `setTimeout(callback, delay)`: the new handle is the next unused index. */
    function Schedule(delay: nat): (t: Timers)
      requires Valid()
      ensures t.Valid()
      ensures |delays| in t.pending && |delays| !in pending
      ensures t.delays == delays + [delay] && t.pending == pending + {|delays|}
    {
      Timers(delays + [delay], pending + {|delays|})
    }

    /** A timer that fires, or `clearTimeout(h)`: either way `h` is no longer pending. */
    function Clear(h: nat): (t: Timers)
      requires Valid()
      ensures t.Valid()
      ensures h !in t.pending && t.pending <= pending
      ensures t.delays == delays && t.pending == pending - {h}
    {
      Timers(delays, pending - {h})
    }
  }

  const NoTimers: Timers := Timers([], {})
}
