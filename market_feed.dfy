/**
 * The reconnecting market-data client of src/lib/ws.ts, `connectMarketWS(symbol, onData)`.
 *
 * The closure's four variables (`ws`, `reconnectTimer`, `manuallyClosed`,
 * `reconnectAttempts`) and the host state they point into (the sockets created so
 * far, the timer table, the visibility listener, the values handed to `onData`) are
 * the fields of `MarketSubscription`; every external event is one of its methods.
 * `Feed` is the same state as a value and the `...Step` functions are the handlers
 * on that value: each method is proved to take its object from `Model()` to the
 * matching step of `old(Model())`, and the lemmas in MarketFeedProperties are stated
 * about the steps.
 */
module MarketFeed {
  import opened Wrappers
  import opened HostApi
  import Backoff
  import Endpoint

  /**
   * The state of one subscription. A socket's identity is its index in `sockets`;
   * sockets that are no longer referenced by `ws` stay in the list, with their
   * handlers still attached.
   */
  datatype Feed<V> = Feed(
    url: string,                  // the address every socket of this subscription is opened at
    sockets: seq<ReadyState>,     // every socket created so far, with its readyState
    ws: Option<nat>,              // the `ws` variable
    reconnectTimer: Option<nat>,  // the `reconnectTimer` variable
    timers: Timers,               // the host's timers; each one calls `connect` when it fires
    manuallyClosed: bool,         // the `manuallyClosed` variable
    reconnectAttempts: nat,       // the `reconnectAttempts` variable
    listening: bool,              // the visibilitychange listener is registered
    delivered: seq<V>)            // the values passed to `onData`, in order

  ghost predicate WellFormed<V>(f: Feed<V>) {
    && f.timers.Valid()
    && (f.ws.Some? ==> f.ws.value < |f.sockets|)
    && (f.reconnectTimer.Some? ==> f.reconnectTimer.value < |f.timers.delays|)
  }

  /**
   * `connect` (src/lib/ws.ts:22-65): nothing once manually closed; otherwise a new
   * CONNECTING socket becomes `ws`, unless the WebSocket constructor throws
   * (`ctorOk` false), in which case the catch only logs and `ws` keeps its value.
   */
  function ConnectStep<V>(f: Feed<V>, ctorOk: bool): (g: Feed<V>)
    requires WellFormed(f)
    ensures WellFormed(g)
  {
    if f.manuallyClosed || !ctorOk then f
    else f.(sockets := f.sockets + [Connecting], ws := Some(|f.sockets|))
  }

  /** The state right after `connectMarketWS` returns (src/lib/ws.ts:15-18, 77-79). */
  function Subscribe<V>(url: string, ctorOk: bool): (f: Feed<V>)
    ensures WellFormed(f)
  {
    ConnectStep(Feed(url, [], None, None, NoTimers, false, 0, true, []), ctorOk)
  }

  /** The host marks socket `s` OPEN, then `onopen` resets the counter (src/lib/ws.ts:28-31). */
  function OpenStep<V>(f: Feed<V>, s: nat): (g: Feed<V>)
    requires WellFormed(f) && s < |f.sockets|
    ensures WellFormed(g)
  {
    f.(sockets := f.sockets[s := Open], reconnectAttempts := 0)
  }

  /**
   * `onmessage` (src/lib/ws.ts:33-40), given what `JSON.parse` made of the frame:
   * the parsed value goes to `onData`; a parse failure is caught and logged.
   */
  function MessageStep<V>(f: Feed<V>, parsed: Option<V>): (g: Feed<V>)
    requires WellFormed(f)
    ensures WellFormed(g)
  {
    match parsed
    case Some(v) => f.(delivered := f.delivered + [v])
    case None => f
  }

  /**
   * The host marks socket `s` CLOSED, then `onclose` (src/lib/ws.ts:46-61) runs:
   * unless manually closed, it computes the delay from the current counter, then
   * increments the counter and schedules `connect` after that delay.
   */
  function CloseEventStep<V>(f: Feed<V>, s: nat): (g: Feed<V>)
    requires WellFormed(f) && s < |f.sockets|
    ensures WellFormed(g)
  {
    var marked := f.(sockets := f.sockets[s := Closed]);
    if f.manuallyClosed then marked
    else
      var delay := Backoff.Delay(f.reconnectAttempts);
      marked.(reconnectAttempts := f.reconnectAttempts + 1,
              reconnectTimer := Some(|f.timers.delays|),
              timers := f.timers.Schedule(delay))
  }

  /** Timer `h` fires and runs `connect` (src/lib/ws.ts:60); `reconnectTimer` still holds its handle. */
  function TimerStep<V>(f: Feed<V>, h: nat, ctorOk: bool): (g: Feed<V>)
    requires WellFormed(f)
    ensures WellFormed(g)
  {
    ConnectStep(f.(timers := f.timers.Clear(h)), ctorOk)
  }

  /**
   * A `visibilitychange` event reaching `handleVisibility` (src/lib/ws.ts:68-75)
   * when the listener is still registered: `connect` runs when the page is visible,
   * the feed is not manually closed and `ws` is null or CLOSED. A timer already
   * pending is left alone.
   */
  function VisibilityStep<V>(f: Feed<V>, visible: bool, ctorOk: bool): (g: Feed<V>)
    requires WellFormed(f)
    ensures WellFormed(g)
  {
    if f.listening && visible && !f.manuallyClosed && (f.ws.None? || f.sockets[f.ws.value] == Closed)
    then ConnectStep(f, ctorOk)
    else f
  }

  /**
   * The returned `close()` (src/lib/ws.ts:82-99): set the flag, remove the listener,
   * clear the timer and null it, call `ws.close()` if `ws` is not CLOSED, null `ws`.
   */
  function CloseStep<V>(f: Feed<V>): (g: Feed<V>)
    requires WellFormed(f)
    ensures WellFormed(g)
  {
    var timers := if f.reconnectTimer.Some? then f.timers.Clear(f.reconnectTimer.value) else f.timers;
    var sockets :=
      if f.ws.Some? && f.sockets[f.ws.value] != Closed
      then f.sockets[f.ws.value := AfterCloseCall(f.sockets[f.ws.value])]
      else f.sockets;
    f.(manuallyClosed := true, listening := false, timers := timers, reconnectTimer := None,
       sockets := sockets, ws := None)
  }

  /** Everything that can happen to a subscription, one handler run at a time. */
  datatype Event<V> =
    | Opened(socket: nat)
    | Message(socket: nat, parsed: Option<V>)   // a frame, as `JSON.parse` reads it
    | Errored(socket: nat)
    | SocketClosed(socket: nat)
    | TimerFired(handle: nat, ctorOk: bool)
    | VisibilityChanged(visible: bool, ctorOk: bool)
    | CloseCalled

  /**
   * Whether the host can deliver `e` now: `open` only to a CONNECTING socket,
   * messages only to an OPEN one, `close` once per socket, and only pending timers fire.
   */
  function Deliverable<V>(f: Feed<V>, e: Event<V>): (b: bool)
    ensures e.VisibilityChanged? || e.CloseCalled? ==> b
    ensures e.Opened? ==> (b <==> e.socket < |f.sockets| && f.sockets[e.socket] == Connecting)
    ensures e.Message? ==> (b <==> e.socket < |f.sockets| && f.sockets[e.socket] == Open)
    ensures e.SocketClosed? ==> (b <==> e.socket < |f.sockets| && f.sockets[e.socket] != Closed)
    ensures e.TimerFired? ==> (b <==> e.handle in f.timers.pending)
  {
    match e
    case Opened(s) => s < |f.sockets| && f.sockets[s] == Connecting
    case Message(s, _) => s < |f.sockets| && f.sockets[s] == Open
    case Errored(s) => s < |f.sockets|
    case SocketClosed(s) => s < |f.sockets| && f.sockets[s] != Closed
    case TimerFired(h, _) => h in f.timers.pending
    case VisibilityChanged(_, _) => true
    case CloseCalled => true
  }

  /** One event; an event the host cannot deliver in this state leaves it unchanged. */
  function Step<V>(f: Feed<V>, e: Event<V>): (g: Feed<V>)
    requires WellFormed(f)
    ensures WellFormed(g)
  {
    if !Deliverable(f, e) then f
    else
      match e
      case Opened(s) => OpenStep(f, s)
      case Message(_, parsed) => MessageStep(f, parsed)
      case Errored(_) => f   // `onerror` only logs (src/lib/ws.ts:42-44)
      case SocketClosed(s) => CloseEventStep(f, s)
      case TimerFired(h, ok) => TimerStep(f, h, ok)
      case VisibilityChanged(visible, ok) => VisibilityStep(f, visible, ok)
      case CloseCalled => CloseStep(f)
  }

  /** A sequence of events, in the order the event loop runs them. */
  function Run<V>(f: Feed<V>, evs: seq<Event<V>>): (g: Feed<V>)
    requires WellFormed(f)
    ensures WellFormed(g)
    decreases |evs|
  {
    if evs == [] then f else Run(Step(f, evs[0]), evs[1..])
  }

  /** One subscription, its state updated in place by its event handlers. */
  class MarketSubscription<V> {
    const url: string
    /** `JSON.parse`, a partial function left uninterpreted. */
    const parse: string -> Option<V>
    var sockets: seq<ReadyState>
    var ws: Option<nat>
    var reconnectTimer: Option<nat>
    var timers: Timers
    var manuallyClosed: bool
    var reconnectAttempts: nat
    var listening: bool
    var delivered: seq<V>

    function Model(): Feed<V>
      reads this
    {
      Feed(url, sockets, ws, reconnectTimer, timers, manuallyClosed, reconnectAttempts, listening, delivered)
    }

    ghost predicate Valid()
      reads this
    {
      WellFormed(Model())
    }

    /**
     * `connectMarketWS(symbol, onData)`: the address from the configured base, the
     * listener registered, and a first `connect`.
     */
    constructor (symbol: string, envBase: Option<string>, parse: string -> Option<V>, ctorOk: bool)
      ensures Valid()
      ensures this.parse == parse
      ensures Model() == Subscribe(Endpoint.MarketUrl(Endpoint.ConfiguredBase(envBase), symbol), ctorOk)
    {
      url := Endpoint.MarketUrl(Endpoint.ConfiguredBase(envBase), symbol);
      this.parse := parse;
      sockets := [];
      ws := None;
      reconnectTimer := None;
      timers := NoTimers;
      manuallyClosed := false;
      reconnectAttempts := 0;
      listening := true;
      delivered := [];
      new;
      Connect(ctorOk);
    }

    /** The inner `connect`. */
    method Connect(ctorOk: bool)
      requires Valid()
      modifies this`sockets, this`ws
      ensures Valid() && Model() == ConnectStep(old(Model()), ctorOk)
      ensures manuallyClosed ==> sockets == old(sockets) && ws == old(ws)
    {
      if manuallyClosed {
        return;
      }
      if !ctorOk {
        return;
      }
      sockets := sockets + [Connecting];
      ws := Some(|sockets| - 1);
    }

    method HandleOpen(s: nat)
      requires Valid() && s < |sockets| && sockets[s] == Connecting
      modifies this`sockets, this`reconnectAttempts
      ensures Valid() && Model() == OpenStep(old(Model()), s)
      ensures reconnectAttempts == 0
    {
      sockets := sockets[s := Open];
      reconnectAttempts := 0;
    }

    method HandleMessage(s: nat, data: string)
      requires Valid() && s < |sockets| && sockets[s] == Open
      modifies this`delivered
      ensures Valid() && Model() == MessageStep(old(Model()), parse(data))
      ensures parse(data).Some? ==> delivered == old(delivered) + [parse(data).value]
      ensures parse(data).None? ==> delivered == old(delivered)
    {
      var parsed := parse(data);
      match parsed {
        case Some(v) => delivered := delivered + [v];
        case None =>
      }
    }

    method HandleError(s: nat)
      requires Valid() && s < |sockets|
      ensures Model() == old(Model())
    {
    }

    method HandleClose(s: nat)
      requires Valid() && s < |sockets| && sockets[s] != Closed
      modifies this`sockets, this`reconnectAttempts, this`reconnectTimer, this`timers
      ensures Valid() && Model() == CloseEventStep(old(Model()), s)
      ensures old(manuallyClosed) ==> reconnectAttempts == old(reconnectAttempts) && timers == old(timers)
      ensures !old(manuallyClosed) ==>
        && reconnectAttempts == old(reconnectAttempts) + 1
        && reconnectTimer == Some(|old(timers.delays)|)
        && timers.delays == old(timers.delays) + [Backoff.Delay(old(reconnectAttempts))]
    {
      sockets := sockets[s := Closed];
      if manuallyClosed {
        return;
      }
      var delay := Backoff.Delay(reconnectAttempts);
      reconnectAttempts := reconnectAttempts + 1;
      reconnectTimer := Some(|timers.delays|);
      timers := timers.Schedule(delay);
    }

    method FireTimer(h: nat, ctorOk: bool)
      requires Valid() && h in timers.pending
      modifies this`timers, this`sockets, this`ws
      ensures Valid() && Model() == TimerStep(old(Model()), h, ctorOk)
    {
      timers := timers.Clear(h);
      Connect(ctorOk);
    }

    method HandleVisibility(visible: bool, ctorOk: bool)
      requires Valid()
      modifies this`sockets, this`ws
      ensures Valid() && Model() == VisibilityStep(old(Model()), visible, ctorOk)
    {
      if !listening {
        return;
      }
      if visible && !manuallyClosed {
        if ws.None? || sockets[ws.value] == Closed {
          Connect(ctorOk);
        }
      }
    }

    method Close()
      requires Valid()
      modifies this`manuallyClosed, this`listening, this`timers, this`reconnectTimer, this`sockets, this`ws
      ensures Valid() && Model() == CloseStep(old(Model()))
      ensures manuallyClosed && !listening && reconnectTimer.None? && ws.None?
    {
      manuallyClosed := true;
      listening := false;
      if reconnectTimer.Some? {
        timers := timers.Clear(reconnectTimer.value);
        reconnectTimer := None;
      }
      if ws.Some? && sockets[ws.value] != Closed {
        sockets := sockets[ws.value := AfterCloseCall(sockets[ws.value])];
      }
      ws := None;
    }
  }
}
