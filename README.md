# Reconnecting market-data WebSocket client, modelled in Dafny

This project models `connectMarketWS(symbol, onData)`, the market-data subscription client of a
trading-signal dashboard, in its two drafts:

- **src/lib/ws.ts** (module `MarketFeed`): opens a WebSocket at `<base>/ws/market/<symbol>`, where a
  leading `http` of the configured base is rewritten to `ws`. It hands every frame that parses as JSON
  to `onData`. When the socket closes it reconnects after `min(3000 + attempts * 2000, 15000)` ms, and it
  resets the attempt counter on every open. When the page becomes visible and `ws` is null or CLOSED, it
  reconnects at once. The returned `close()` sets `manuallyClosed`, removes the visibility listener,
  cancels the timer and closes the socket.
- **lib/ws.ts** (module `LegacyFeed`): the earlier draft. The base is used as given and every reconnect
  waits 3000 ms. It has no attempt counter, no manual-close flag and no visibility listener. Its
  `close()` closes the socket only when it is OPEN.

Each draft is built the same way:

- The closure variables `ws`, `reconnectTimer`, `manuallyClosed` and `reconnectAttempts` are fields of a
  class. So is the host state they refer to: the sockets created so far with their `readyState`, the
  timer table, whether the listener is registered, and the values handed to `onData`. Every external
  event is a method that updates those fields in place: socket open, message, error and close, a timer
  firing, a visibility change, and `close()`.
- A datatype `Feed` holds the same state as a value. Each handler is a function from one `Feed` to the
  next, and each class method is proved to move `Model()` by exactly that function.
- The two drafts are modelled side by side, so `Feed`, `WellFormed`, `Deliverable`, `MessageStep`,
  `Step`, `Run` and a few lemmas appear once in `MarketFeed` and again, with the same shape, in
  `LegacyFeed`: each copy models its own file.
- `Step` applies one event and `Run` applies a sequence of events, in the order the single-threaded
  event loop runs them. The lemmas in `MarketFeedProperties` and `LegacyFeedProperties` state what the
  handlers guarantee, one event at a time and over whole runs.

Modelling choices:

- A socket's identity is its index in `sockets`. A socket that `ws` no longer points to stays in the
  list with its handlers attached, as it does in the browser.
- A timer is a token: its handle indexes `timers.delays`, the delay it was given. `timers.pending`
  holds the timers that have neither fired nor been cleared. Every timer calls `connect` when it fires.
- The browser changes `readyState` next to the handlers: OPEN before `onopen` runs, CLOSED before
  `onclose` runs. `socket.close()` moves a CONNECTING or OPEN socket to CLOSING (`HostApi.AfterCloseCall`).
  `Deliverable` holds the host's delivery rules: `open` only reaches a CONNECTING socket, messages only
  reach an OPEN one, `close` fires once per socket, and only pending timers fire.
- `JSON.parse` is left uninterpreted. The class holds it as a total function `string -> Option<V>`, and
  trace events carry its outcome.
- A WebSocket constructor that throws is an input (`ctorOk`) to every event that calls `connect`.
- The model follows what the code does, including where that departs from the intent stated in the
  code itself:
  - The address is not forced to `wss`, although the comment at src/lib/ws.ts:12 says "Enforce wss://":
    an `http://` base becomes `ws://` (`Endpoint.WsBaseSchemes`).
  - An unset or empty `NEXT_PUBLIC_WS_BASE` falls back to `wss://api.kp5bot.com`
    (`Endpoint.ConfiguredBase`).
  - There can be more than one live socket and more than one pending timer.
    `handleVisibility` calls `connect` without cancelling a reconnect timer that is already pending.
    When that timer fires, it opens a second socket and overwrites `ws`, and the first socket stays open
    with nothing pointing to it (`MarketFeedProperties.VisibilityRaceOrphansSocket`). `close()` does not
    close that socket, so it still calls `onData` after `close()`
    (`MarketFeedProperties.OrphanDeliversAfterClose`). A timer that is not `reconnectTimer` still fires
    after `close()` (`MarketFeedProperties.VisibilityRaceLeavesTwoTimers`).
  - At most one live socket and one pending timer (`MarketFeedProperties.OneLive`) does hold as long
    as every visibility change arrives while no reconnect timer is pending; visibility changes at other
    times, a hidden page included, are harmless (`MarketFeedProperties.OneLiveStep`, `OneLiveRun`). Under that invariant nothing reaches `onData`
    after `close()` (`MarketFeedProperties.CloseSilencesOneLive`).

## Model

| member | source | states |
|---|---|---|
| `HostApi.AfterCloseCall` | src/lib/ws.ts:95-97 | `socket.close()` leaves a socket CLOSING or CLOSED; it is CLOSED afterwards exactly when it was CLOSED before, and a CLOSING socket stays CLOSING |
| `HostApi.Timers.Schedule` | src/lib/ws.ts:60 | `setTimeout`: the next unused handle becomes pending with the given delay recorded; no other timer changes |
| `HostApi.Timers.Clear` | src/lib/ws.ts:90-93 | `clearTimeout(h)`, or `h` firing: exactly `h` leaves the pending set; recorded delays and other timers are unchanged |
| `Backoff.Delay` | src/lib/ws.ts:49-52 | the reconnect delay lies in [3000, 15000], is 3000 for counter 0, and reaches the 15000 cap exactly from counter 6 on |
| `Backoff.DelayMonotone` | src/lib/ws.ts:49-52 | a larger attempt counter never gives a shorter delay |
| `Backoff.DelayGrowth` | src/lib/ws.ts:49-52 | below the cap, each further attempt adds exactly 2000 ms |
| `Backoff.DelaysFrom` | src/lib/ws.ts:49-54 | the delays of n consecutive closes from counter a: the i-th one is `Delay(a + i)` |
| `Backoff.DelaysFromSorted` | src/lib/ws.ts:49-54 | those delays are non-decreasing and all within [3000, 15000] |
| `Backoff.DelaysFromAppend` | src/lib/ws.ts:49-54 | the delays for counters a .. a+n-1 followed by those for a+n .. a+n+m-1 are the delays for a .. a+n+m-1 |
| `Endpoint.ConfiguredBase` | src/lib/ws.ts:9-10 | the `NEXT_PUBLIC_WS_BASE` variable if set and non-empty, otherwise the fallback `wss://api.kp5bot.com`; never empty |
| `Endpoint.WsBase` | src/lib/ws.ts:13 | a base starting with `http` loses those four letters and gains `ws`; any other base is returned unchanged |
| `Endpoint.WsBaseSchemes` | src/lib/ws.ts:12-13 | `https://h` becomes `wss://h` and `http://h` becomes `ws://h`, so an insecure base stays insecure |
| `Endpoint.WsBaseIdempotent` | src/lib/ws.ts:13 | rewriting a rewritten base changes nothing |
| `Endpoint.DefaultBaseUnchanged` | src/lib/ws.ts:10-13 | the fallback base passes the rewrite unchanged |
| `Endpoint.MarketUrlParts` | src/lib/ws.ts:26 | the socket address is exactly the rewritten base, then `/ws/market/`, then the symbol |
| `Endpoint.MarketUrlInjective` | src/lib/ws.ts:26 | different symbols on one base give different addresses |
| `Endpoint.MarketUrl` | src/lib/ws.ts:26 | the address starts with the rewritten base and ends with the symbol, with exactly the market path's length between |
| `Endpoint.LegacyMarketUrl` | lib/ws.ts:17 | the earlier draft's address is the configured base exactly as given, then `/ws/market/`, then the symbol |
| `MarketFeed.ConnectStep` | src/lib/ws.ts:22-65 | `connect` on the state value; keeps the state well-formed |
| `MarketFeed.Subscribe` | src/lib/ws.ts:9-79 | the state after `connectMarketWS` returns (variables initialised, listener added, first `connect`); well-formed |
| `MarketFeed.OpenStep` | src/lib/ws.ts:28-31 | the `onopen` handler on the state value; keeps it well-formed |
| `MarketFeed.MessageStep` | src/lib/ws.ts:33-40 | the `onmessage` handler on the state value; keeps it well-formed |
| `MarketFeed.CloseEventStep` | src/lib/ws.ts:46-61 | the `onclose` handler on the state value; keeps it well-formed |
| `MarketFeed.TimerStep` | src/lib/ws.ts:60 | a reconnect timer firing and running `connect`; keeps the state well-formed |
| `MarketFeed.VisibilityStep` | src/lib/ws.ts:68-75 | `handleVisibility` on the state value; keeps it well-formed |
| `MarketFeed.CloseStep` | src/lib/ws.ts:82-99 | the returned `close()` on the state value; keeps it well-formed |
| `MarketFeed.Deliverable` | src/lib/ws.ts:28-75 | the host's delivery rules: the visibility listener and `close()` can run at any time; `open` reaches a socket exactly when it is CONNECTING, a message exactly when it is OPEN, `close` exactly when it is not yet CLOSED; a timer fires exactly when it is pending |
| `MarketFeed.Step` | src/lib/ws.ts:22-99 | one handler run chosen by the event; undeliverable events change nothing; keeps the state well-formed |
| `MarketFeed.Run` | src/lib/ws.ts:22-99 | a sequence of handler runs; every reachable state is well-formed |
| `MarketFeed.MarketSubscription.constructor` | src/lib/ws.ts:5-79 | builds the address from the configured base and symbol, registers the listener, calls `connect`; the object equals `Subscribe` |
| `MarketFeed.MarketSubscription.Connect` | src/lib/ws.ts:22-64 | after `close()` nothing changes; otherwise a new CONNECTING socket becomes `ws` unless the constructor throws |
| `MarketFeed.MarketSubscription.HandleOpen` | src/lib/ws.ts:28-31 | socket becomes OPEN and the attempt counter is 0 |
| `MarketFeed.MarketSubscription.HandleMessage` | src/lib/ws.ts:33-40 | `onData` receives the parsed value once if `JSON.parse` succeeds, nothing otherwise; only the delivered list changes |
| `MarketFeed.MarketSubscription.HandleError` | src/lib/ws.ts:42-44 | changes nothing |
| `MarketFeed.MarketSubscription.HandleClose` | src/lib/ws.ts:46-61 | after `close()`: only the socket's readyState changes. Otherwise: counter +1, `reconnectTimer` is a new handle, and the new timer's delay is `Delay` of the counter before the increment |
| `MarketFeed.MarketSubscription.FireTimer` | src/lib/ws.ts:60 | the timer leaves the pending set and `connect` runs |
| `MarketFeed.MarketSubscription.HandleVisibility` | src/lib/ws.ts:68-75 | `connect` runs only when the listener is registered, the page is visible, the feed is not manually closed and `ws` is null or CLOSED |
| `MarketFeed.MarketSubscription.Close` | src/lib/ws.ts:82-99 | flag set, listener removed, `reconnectTimer` cleared and nulled, `ws` closed unless CLOSED, `ws` nulled |
| `MarketFeedProperties.SubscribeOpensOneSocket` | src/lib/ws.ts:15-18 | a new subscription listens, has counter 0, no timer, nothing delivered, and one CONNECTING socket as `ws` (none if the constructor throws) |
| `MarketFeedProperties.CloseEventSchedulesBackoff` | src/lib/ws.ts:46-61 | a non-manual close increments the counter by exactly one and schedules exactly one fresh timer. Its delay is `Delay` of the counter before the increment, within [3000, 15000]. No socket is opened yet |
| `MarketFeedProperties.TimerReconnects` | src/lib/ws.ts:60 | when the WebSocket constructor does not throw, a pending timer firing before `close()` opens exactly one new socket, which becomes `ws` |
| `MarketFeedProperties.OpenResetsBackoff` | src/lib/ws.ts:28-29 | after an open, the next close schedules 3000 ms and leaves the counter at 1 |
| `MarketFeedProperties.StepWithoutOpen` | src/lib/ws.ts:46-61 | any event other than an open raises the counter by at most one, and the timer delays it appends are exactly the backoff delays for the counter values it passed |
| `MarketFeedProperties.BackedOffTrans` | src/lib/ws.ts:49-60 | two consecutive stretches without an open compose: the delays of the second continue the backoff sequence where the first stopped |
| `MarketFeedProperties.BackoffWithoutOpen` | src/lib/ws.ts:49-60 | between opens, the timers scheduled are exactly `Delay(a)`, `Delay(a+1)`, … in order, where a is the counter at the start; the counter never decreases |
| `MarketFeedProperties.BackoffNonDecreasing` | src/lib/ws.ts:49-60 | between opens, scheduled delays never decrease and stay within [3000, 15000] |
| `MarketFeedProperties.DelaysAlwaysInRange` | src/lib/ws.ts:49-60 | over any run, every reconnect timer waits between 3000 and 15000 ms |
| `MarketFeedProperties.ManualCloseHandlers` | src/lib/ws.ts:23 | once manually closed, `connect` does nothing. A close event only marks its socket CLOSED: no timer, and the counter is unchanged. The visibility handler does nothing |
| `MarketFeedProperties.CloseEffects` | src/lib/ws.ts:82-99 | `close()` sets the flag, removes the listener, cancels `reconnectTimer` and nulls it, and leaves the previous `ws` not live. Other sockets, the counter and deliveries are unchanged |
| `MarketFeedProperties.CloseIdempotent` | src/lib/ws.ts:82-99 | a second `close()` changes nothing |
| `MarketFeedProperties.ManualCloseIsFinal` | src/lib/ws.ts:23 | after `close()`, no run clears the flag, creates a socket or schedules a timer. The counter stays as it was, or is reset to 0 by an orphaned socket's open |
| `MarketFeedProperties.CloseThenCloseEventIsQuiet` | src/lib/ws.ts:47 | the close event that follows `close()` schedules nothing and leaves the counter as it was |
| `MarketFeedProperties.VisibilityReconnectsExactlyWhen` | src/lib/ws.ts:68-75 | when the WebSocket constructor does not throw, a new socket is opened if and only if the listener is registered, the page is visible, the feed is not manually closed and `ws` is null or CLOSED. Pending timers are untouched, and otherwise nothing changes |
| `MarketFeedProperties.MessageDelivery` | src/lib/ws.ts:33-40 | on an OPEN socket, `onData` gets the parsed value exactly once on success and nothing on a parse failure; nothing else changes |
| `MarketFeedProperties.BadFrameKeepsConnection` | src/lib/ws.ts:33-40 | a bad frame followed by a good one on the same socket delivers exactly the good one |
| `MarketFeedProperties.ErrorChangesNothing` | src/lib/ws.ts:42-44 | an error event leaves the whole state unchanged |
| `MarketFeedProperties.ThrowingConstructorKeepsWs` | src/lib/ws.ts:25-26 | if the constructor throws when a timer fires, `ws` and the sockets are unchanged and no timer is scheduled |
| `MarketFeedProperties.SubscribeOneLive` | src/lib/ws.ts:15-18 | a new subscription satisfies the one-socket/one-timer invariant |
| `MarketFeedProperties.OneLiveMeansOneSocket` | src/lib/ws.ts:15-18 | under the invariant, at most one socket is CONNECTING or OPEN and at most one timer is pending |
| `MarketFeedProperties.OneLiveStep` | src/lib/ws.ts:22-99 | every event keeps the invariant, except a visibility change while a timer is pending |
| `MarketFeedProperties.OneLiveRun` | src/lib/ws.ts:22-99 | a run keeps the invariant as long as every visibility change in it arrives while no reconnect timer is pending |
| `MarketFeedProperties.ThrowingConstructorStalls` | src/lib/ws.ts:60-64 | under the invariant, a throwing constructor on a timer leaves no live socket and no pending timer |
| `MarketFeedProperties.SilencedRun` | src/lib/ws.ts:33-47 | a manually closed feed with no live socket and no pending timer stays so; `onData` is never called and no socket is created |
| `MarketFeedProperties.CloseSilencesOneLive` | src/lib/ws.ts:82-99 | on a feed that kept the invariant, nothing reaches `onData` after `close()` and no socket is created |
| `MarketFeedProperties.SubscribeThenCloseIsSilent` | src/lib/ws.ts:79-99 | `close()` right after subscribing: `onData` is never called and at most the first socket ever exists |
| `MarketFeedProperties.RunCons` | src/lib/ws.ts:22-99 | running `e` then the rest is running the rest from the state after `e` |
| `MarketFeedProperties.VisibilityRaceOrphansSocket` | src/lib/ws.ts:60-72 | open, drop, page shown while the timer is pending, open, timer fires: two sockets are live, `ws` points at the newer one and the invariant is broken |
| `MarketFeedProperties.OrphanDeliversAfterClose` | src/lib/ws.ts:95-99 | after that race, `close()` leaves the orphaned socket OPEN and its message still reaches `onData` |
| `MarketFeedProperties.VisibilityRaceLeavesTwoTimers` | src/lib/ws.ts:60-93 | the race can leave two pending timers; `close()` cancels only `reconnectTimer`, and the other can still fire |
| `LegacyFeed.ConnectStep` | lib/ws.ts:16-17 | `connect` on the state value; keeps it well-formed |
| `LegacyFeed.Subscribe` | lib/ws.ts:9-42 | the state after `connectMarketWS` returns (variables initialised, first `connect`); well-formed |
| `LegacyFeed.OpenStep` | lib/ws.ts:19-21 | a socket opening; keeps the state well-formed |
| `LegacyFeed.MessageStep` | lib/ws.ts:23-30 | the `onmessage` handler; keeps the state well-formed |
| `LegacyFeed.CloseEventStep` | lib/ws.ts:36-39 | the `onclose` handler; keeps the state well-formed |
| `LegacyFeed.TimerStep` | lib/ws.ts:38 | a timer firing and running `connect`; keeps the state well-formed |
| `LegacyFeed.CloseStep` | lib/ws.ts:45-50 | the returned `close()`; keeps the state well-formed |
| `LegacyFeed.Deliverable` | lib/ws.ts:19-50 | the same host rules for the earlier draft: `close()` can run at any time; `open` only on a CONNECTING socket, messages only on an OPEN one, `close` once per socket, and only pending timers fire |
| `LegacyFeed.Step` | lib/ws.ts:16-50 | one handler run chosen by the event; undeliverable events change nothing |
| `LegacyFeed.Run` | lib/ws.ts:16-50 | a sequence of handler runs; every reachable state is well-formed |
| `LegacyFeed.LegacySubscription.constructor` | lib/ws.ts:5-42 | the address is the configured base as given plus `/ws/market/<symbol>`, then `connect` runs; the object equals `Subscribe` |
| `LegacyFeed.LegacySubscription.Connect` | lib/ws.ts:16-17 | always adds one socket, which becomes `ws` |
| `LegacyFeed.LegacySubscription.HandleOpen` | lib/ws.ts:19-21 | only the socket's readyState changes |
| `LegacyFeed.LegacySubscription.HandleMessage` | lib/ws.ts:23-30 | `onData` receives the parsed value once on success, nothing on a parse failure |
| `LegacyFeed.LegacySubscription.HandleError` | lib/ws.ts:32-34 | changes nothing |
| `LegacyFeed.LegacySubscription.HandleClose` | lib/ws.ts:36-39 | the socket is CLOSED, `reconnectTimer` is a new handle and the new timer waits 3000 ms |
| `LegacyFeed.LegacySubscription.FireTimer` | lib/ws.ts:38 | the timer leaves the pending set and `connect` runs |
| `LegacyFeed.LegacySubscription.Close` | lib/ws.ts:45-50 | clears the timer without resetting `reconnectTimer` and closes `ws` only when OPEN; `ws` stays set |
| `LegacyFeedProperties.SubscribeOpensSocket` | lib/ws.ts:9-17 | the first socket is opened at the base as given; nothing is scheduled or delivered |
| `LegacyFeedProperties.TimerAlwaysReconnects` | lib/ws.ts:16-17 | a firing timer always opens a new socket and overwrites `ws`, even after `close()` |
| `LegacyFeedProperties.CloseEventReschedules` | lib/ws.ts:36-39 | every close event schedules exactly one fresh timer of exactly 3000 ms |
| `LegacyFeedProperties.DelaysStayFixed` | lib/ws.ts:38 | over any run every timer waits 3000 ms: no counter, no growth |
| `LegacyFeedProperties.CloseKeepsHandle` | lib/ws.ts:46 | `close()` cancels the pending timer but keeps its handle in `reconnectTimer`; `ws` stays set |
| `LegacyFeedProperties.CloseOnlyClosesOpen` | lib/ws.ts:47-49 | `close()` starts closing `ws` only when it is OPEN; a CONNECTING socket is left alone |
| `LegacyFeedProperties.CloseIdempotent` | lib/ws.ts:45-50 | a second `close()` changes nothing |
| `LegacyFeedProperties.CloseStillReschedules` | lib/ws.ts:36-50 | the close event that `close()` provokes schedules a 3000 ms reconnect, and its firing opens a new socket |
| `LegacyFeedProperties.OpenAndErrorChangeNothing` | lib/ws.ts:19-34 | `onopen` and `onerror` change nothing but the host's readyState |
| `LegacyFeedProperties.MessageDelivery` | lib/ws.ts:23-30 | on an OPEN socket, `onData` gets the parsed value exactly once on success and nothing on a parse failure |
| `LegacyFeedProperties.RunCons` | lib/ws.ts:16-50 | running `e` then the rest is running the rest from the state after `e` |
| `LegacyFeedProperties.ConnectingSocketOutlivesClose` | lib/ws.ts:47-49 | `close()` on a CONNECTING first socket leaves it alone; it opens and its message reaches `onData` after `close()` |

## Left out

- The real WebSocket transport, the browser's `setTimeout` clock and `document.visibilityState` are
  abstract events and inputs. Timers are tokens, and no model of elapsed time orders their firing.
- The closing handshake's intermediate CLOSING state, when the server starts it, is not modelled. A
  socket goes straight from CONNECTING or OPEN to CLOSED on its close event; only `close()` moves it
  to CLOSING.
- Where the browser sets `readyState` to CLOSED before an error event, that is folded into the close
  event that always follows it. The error handler itself changes nothing.
- The internals of `JSON.parse` are not modelled: it is an uninterpreted total function into `Option`.
- `console.*` logging is not modelled.
- LegacyFeed.ConnectStep: a throwing WebSocket constructor is not modelled for the earlier draft. It
  has no try/catch, so the exception would escape `connectMarketWS` or the timer callback.
- The React components, the axios and fetch wrappers, the page's risk arithmetic (floating point), the
  layout and the build configuration hold no logic of the subscription client. They are not part of
  this model.
