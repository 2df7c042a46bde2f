/**
 * The earlier draft of the client, lib/ws.ts: the same closure shape with only
 * `ws` and `reconnectTimer`, a fixed 3000 ms reconnect, no attempt counter, no
 * manual-close flag and no visibility listener. As in MarketFeed, `Feed` is the
 * state as a value, the `...Step` functions are the handlers, and the class
 * `LegacySubscription` runs them in place.
 */
module LegacyFeed {
  import opened Wrappers
  import opened HostApi
  import Endpoint

  /** The delay passed to every `setTimeout(connect, 3000)`. */
  const ReconnectDelay: nat := 3000

  datatype Feed<V> = Feed(
    url: string,                  // the address every socket is opened at
    sockets: seq<ReadyState>,     // every socket created so far, with its readyState
    ws: Option<nat>,              // the `ws` variable
    reconnectTimer: Option<nat>,  // the `reconnectTimer` variable
    timers: Timers,               // the host's timers; each one calls `connect` when it fires
    delivered: seq<V>)            // the values passed to `onData`, in order

  ghost predicate WellFormed<V>(f: Feed<V>) {
    && f.timers.Valid()
    && (f.ws.Some? ==> f.ws.value < |f.sockets|)
    && (f.reconnectTimer.Some? ==> f.reconnectTimer.value < |f.timers.delays|)
  }

  /** `connect` (lib/ws.ts:16-40): a new CONNECTING socket always becomes `ws`. */
  function ConnectStep<V>(f: Feed<V>): (g: Feed<V>)
    requires WellFormed(f)
    ensures WellFormed(g)
  {
    f.(sockets := f.sockets + [Connecting], ws := Some(|f.sockets|))
  }

  /** The state right after `connectMarketWS` returns (lib/ws.ts:9-14, 42). */
  function Subscribe<V>(url: string): (f: Feed<V>)
    ensures WellFormed(f)
  {
    ConnectStep(Feed(url, [], None, None, NoTimers, []))
  }

  /** The host marks socket `s` OPEN; `onopen` only logs (lib/ws.ts:19-21). */
  function OpenStep<V>(f: Feed<V>, s: nat): (g: Feed<V>)
    requires WellFormed(f) && s < |f.sockets|
    ensures WellFormed(g)
  {
    f.(sockets := f.sockets[s := Open])
  }

  /** `onmessage` (lib/ws.ts:23-30), given what `JSON.parse` made of the frame. */
  function MessageStep<V>(f: Feed<V>, parsed: Option<V>): (g: Feed<V>)
    requires WellFormed(f)
    ensures WellFormed(g)
  {
    match parsed
    case Some(v) => f.(delivered := f.delivered + [v])
    case None => f
  }

  /** The host marks socket `s` CLOSED; `onclose` schedules `connect` after 3000 ms (lib/ws.ts:36-39). */
  function CloseEventStep<V>(f: Feed<V>, s: nat): (g: Feed<V>)
    requires WellFormed(f) && s < |f.sockets|
    ensures WellFormed(g)
  {
    f.(sockets := f.sockets[s := Closed],
       reconnectTimer := Some(|f.timers.delays|),
       timers := f.timers.Schedule(ReconnectDelay))
  }

  /** Timer `h` fires and runs `connect`. */
  function TimerStep<V>(f: Feed<V>, h: nat): (g: Feed<V>)
    requires WellFormed(f)
    ensures WellFormed(g)
  {
    ConnectStep(f.(timers := f.timers.Clear(h)))
  }

  /**
   * The returned `close()` (lib/ws.ts:45-50): clear the timer if the variable is
   * set, without resetting it, and call `ws.close()` only when `ws` is OPEN.
   */
  function CloseStep<V>(f: Feed<V>): (g: Feed<V>)
    requires WellFormed(f)
    ensures WellFormed(g)
  {
    var timers := if f.reconnectTimer.Some? then f.timers.Clear(f.reconnectTimer.value) else f.timers;
    var sockets :=
      if f.ws.Some? && f.sockets[f.ws.value] == Open
      then f.sockets[f.ws.value := AfterCloseCall(Open)]
      else f.sockets;
    f.(timers := timers, sockets := sockets)
  }

  datatype Event<V> =
    | Opened(socket: nat)
    | Message(socket: nat, parsed: Option<V>)   // a frame, as `JSON.parse` reads it
    | Errored(socket: nat)
    | SocketClosed(socket: nat)
    | TimerFired(handle: nat)
    | CloseCalled

  /** Whether the host can deliver `e` now (as in MarketFeed.Deliverable). */
  function Deliverable<V>(f: Feed<V>, e: Event<V>): (b: bool)
    ensures e.CloseCalled? ==> b
    ensures e.Opened? ==> (b <==> e.socket < |f.sockets| && f.sockets[e.socket] == Connecting)
    ensures e.Message? ==> (b <==> e.socket < |f.sockets| && f.sockets[e.socket] == Open)
    ensures e.SocketClosed? ==> (b <==> e.socket < |f.sockets| && f.sockets[e.socket] != Closed)
    ensures e.TimerFired? ==> (b <==> e.handle in f.timers.pending)
  {
    match e
    case Opened(s) => s < |f.sockets| && f.sockets[s] == Connecting
    case Message(s, _) => s < |f.sockets| && f.sockets[s] == Open
    case Errored(s) => s < |f.sockets|
    case SocketClosed(s) => s < |f.sockets| && f.sockets[s] != Closed
    case TimerFired(h) => h in f.timers.pending
    case CloseCalled => true
  }

  function Step<V>(f: Feed<V>, e: Event<V>): (g: Feed<V>)
    requires WellFormed(f)
    ensures WellFormed(g)
  {
    if !Deliverable(f, e) then f
    else
      match e
      case Opened(s) => OpenStep(f, s)
      case Message(_, parsed) => MessageStep(f, parsed)
      case Errored(_) => f   // `onerror` only logs (lib/ws.ts:32-34)
      case SocketClosed(s) => CloseEventStep(f, s)
      case TimerFired(h) => TimerStep(f, h)
      case CloseCalled => CloseStep(f)
  }

  function Run<V>(f: Feed<V>, evs: seq<Event<V>>): (g: Feed<V>)
    requires WellFormed(f)
    ensures WellFormed(g)
    decreases |evs|
  {
    if evs == [] then f else Run(Step(f, evs[0]), evs[1..])
  }

  class LegacySubscription<V> {
    const url: string
    /** `JSON.parse`, a partial function left uninterpreted. */
    const parse: string -> Option<V>
    var sockets: seq<ReadyState>
    var ws: Option<nat>
    var reconnectTimer: Option<nat>
    var timers: Timers
    var delivered: seq<V>

    function Model(): Feed<V>
      reads this
    {
      Feed(url, sockets, ws, reconnectTimer, timers, delivered)
    }

    ghost predicate Valid()
      reads this
    {
      WellFormed(Model())
    }

    /** `connectMarketWS(symbol, onData)`: the configured base as given, then a first `connect`. */
    constructor (symbol: string, envBase: Option<string>, parse: string -> Option<V>)
      ensures Valid()
      ensures this.parse == parse
      ensures Model() == Subscribe(Endpoint.LegacyMarketUrl(Endpoint.ConfiguredBase(envBase), symbol))
    {
      url := Endpoint.LegacyMarketUrl(Endpoint.ConfiguredBase(envBase), symbol);
      this.parse := parse;
      sockets := [];
      ws := None;
      reconnectTimer := None;
      timers := NoTimers;
      delivered := [];
      new;
      Connect();
    }

    method Connect()
      requires Valid()
      modifies this`sockets, this`ws
      ensures Valid() && Model() == ConnectStep(old(Model()))
      ensures |sockets| == |old(sockets)| + 1 && ws == Some(|old(sockets)|)
    {
      sockets := sockets + [Connecting];
      ws := Some(|sockets| - 1);
    }

    method HandleOpen(s: nat)
      requires Valid() && s < |sockets| && sockets[s] == Connecting
      modifies this`sockets
      ensures Valid() && Model() == OpenStep(old(Model()), s)
    {
      sockets := sockets[s := Open];
    }

    method HandleMessage(s: nat, data: string)
      requires Valid() && s < |sockets| && sockets[s] == Open
      modifies this`delivered
      ensures Valid() && Model() == MessageStep(old(Model()), parse(data))
      ensures parse(data).Some? ==> delivered == old(delivered) + [parse(data).value]
      ensures parse(data).None? ==> delivered == old(delivered)
    {
      var parsed := parse(data);
      match parsed {
        case Some(v) => delivered := delivered + [v];
        case None =>
      }
    }

    method HandleError(s: nat)
      requires Valid() && s < |sockets|
      ensures Model() == old(Model())
    {
    }

    method HandleClose(s: nat)
      requires Valid() && s < |sockets| && sockets[s] != Closed
      modifies this`sockets, this`reconnectTimer, this`timers
      ensures Valid() && Model() == CloseEventStep(old(Model()), s)
      ensures reconnectTimer == Some(|old(timers.delays)|)
      ensures timers.delays == old(timers.delays) + [ReconnectDelay]
    {
      sockets := sockets[s := Closed];
      reconnectTimer := Some(|timers.delays|);
      timers := timers.Schedule(ReconnectDelay);
    }

    method FireTimer(h: nat)
      requires Valid() && h in timers.pending
      modifies this`timers, this`sockets, this`ws
      ensures Valid() && Model() == TimerStep(old(Model()), h)
    {
      timers := timers.Clear(h);
      Connect();
    }

    method Close()
      requires Valid()
      modifies this`timers, this`sockets
      ensures Valid() && Model() == CloseStep(old(Model()))
      ensures reconnectTimer == old(reconnectTimer) && ws == old(ws)
    {
      if reconnectTimer.Some? {
        timers := timers.Clear(reconnectTimer.value);
      }
      if ws.Some? && sockets[ws.value] == Open {
        sockets := sockets[ws.value := AfterCloseCall(Open)];
      }
    }
  }
}
