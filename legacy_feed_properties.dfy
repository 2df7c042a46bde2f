/** What the handlers of lib/ws.ts guarantee, and where they differ from src/lib/ws.ts. */
module LegacyFeedProperties {
  import opened Wrappers
  import opened HostApi
  import Endpoint
  import opened LegacyFeed

  /** Subscribing opens one socket at the base as given, with no `http` rewrite, and schedules nothing. */
  lemma SubscribeOpensSocket<V>(base: string, symbol: string)
    ensures var f := Subscribe<V>(Endpoint.LegacyMarketUrl(base, symbol));
      && f.url[..|base|] == base
      && f.sockets == [Connecting] && f.ws == Some(0)
      && f.timers.pending == {} && f.delivered == []
  {
  }

  /** A firing timer always opens a new socket and overwrites `ws`, even after `close()`. */
  lemma TimerAlwaysReconnects<V>(f: Feed<V>, h: nat)
    requires WellFormed(f) && h in f.timers.pending
    ensures var g := Step(f, TimerFired(h));
      && g.sockets == f.sockets + [Connecting] && g.ws == Some(|f.sockets|)
      && g.timers.pending == f.timers.pending - {h}
  {
  }

  /** Every close event schedules one reconnect after exactly 3000 ms, whatever came before. */
  lemma CloseEventReschedules<V>(f: Feed<V>, s: nat)
    requires WellFormed(f) && s < |f.sockets| && f.sockets[s] != Closed
    ensures var g := Step(f, SocketClosed(s));
      var h := |f.timers.delays|;
      && h !in f.timers.pending
      && g.timers.pending == f.timers.pending + {h}
      && g.reconnectTimer == Some(h)
      && g.timers.delays == f.timers.delays + [ReconnectDelay]
      && g.sockets == f.sockets[s := Closed] && g.ws == f.ws
  {
  }

  ghost predicate AllDelaysFixed<V>(f: Feed<V>) {
    forall i | 0 <= i < |f.timers.delays| :: f.timers.delays[i] == ReconnectDelay
  }

  /** There is no growth: every timer ever scheduled waits 3000 ms. */
  lemma {:induction false} DelaysStayFixed<V>(f: Feed<V>, evs: seq<Event<V>>)
    requires WellFormed(f) && AllDelaysFixed(f)
    ensures AllDelaysFixed(Run(f, evs))
    decreases |evs|
  {
    if evs != [] {
      var f1 := Step(f, evs[0]);
      assert AllDelaysFixed(f1);
      DelaysStayFixed(f1, evs[1..]);
    }
  }

  /** `close()` clears the pending timer but leaves its handle in `reconnectTimer`, and leaves `ws` set. */
  lemma CloseKeepsHandle<V>(f: Feed<V>)
    requires WellFormed(f)
    ensures var g := CloseStep(f);
      && g.reconnectTimer == f.reconnectTimer && g.ws == f.ws
      && (f.reconnectTimer.Some? ==> f.reconnectTimer.value !in g.timers.pending)
      && g.timers.pending == f.timers.pending - (if f.reconnectTimer.Some? then {f.reconnectTimer.value} else {})
  {
  }

  /** `close()` starts closing `ws` only when it is OPEN; a CONNECTING socket is left alone. */
  lemma CloseOnlyClosesOpen<V>(f: Feed<V>)
    requires WellFormed(f)
    ensures var g := CloseStep(f);
      && (f.ws.Some? && f.sockets[f.ws.value] == Open ==> g.sockets == f.sockets[f.ws.value := Closing])
      && (f.ws.None? || f.sockets[f.ws.value] != Open ==> g.sockets == f.sockets)
  {
  }

  /** Calling `close()` again changes nothing further. */
  lemma CloseIdempotent<V>(f: Feed<V>)
    requires WellFormed(f)
    ensures CloseStep(CloseStep(f)) == CloseStep(f)
  {
  }

  /**
   * With no manual-close flag, the close event that `close()` itself provokes
   * schedules a fresh reconnect, and when that timer fires a new socket is opened.
   */
  lemma CloseStillReschedules<V>(f: Feed<V>)
    requires WellFormed(f) && f.ws.Some? && f.sockets[f.ws.value] == Open
    ensures var g := Step(CloseStep(f), SocketClosed(f.ws.value));
      var h := |f.timers.delays|;
      && h in g.timers.pending && g.timers.delays[h] == ReconnectDelay
      && Step(g, TimerFired(h)).sockets == g.sockets + [Connecting]
  {
  }

  /** `onopen` and `onerror` change nothing but the host's readyState. */
  lemma OpenAndErrorChangeNothing<V>(f: Feed<V>, s: nat)
    requires WellFormed(f) && s < |f.sockets|
    ensures f.sockets[s] == Connecting ==> Step(f, Opened(s)) == f.(sockets := f.sockets[s := Open])
    ensures Step(f, Errored(s)) == f
  {
  }

  /** `onData` gets the parsed value once on success, nothing on a parse failure; nothing else changes. */
  lemma MessageDelivery<V>(f: Feed<V>, s: nat, parsed: Option<V>)
    requires WellFormed(f) && s < |f.sockets| && f.sockets[s] == Open
    ensures var g := Step(f, Message(s, parsed));
      && g.delivered == f.delivered + (if parsed.Some? then [parsed.value] else [])
      && g.(delivered := f.delivered) == f
  {
  }

  lemma RunCons<V>(f: Feed<V>, e: Event<V>, evs: seq<Event<V>>)
    requires WellFormed(f)
    ensures Run(f, [e] + evs) == Run(Step(f, e), evs)
  {
  }

  /**
   * `close()` while the first socket is still CONNECTING leaves it alone: it then
   * opens and hands messages to `onData` after the caller has closed.
   */
  lemma ConnectingSocketOutlivesClose()
    ensures var f := Run(Subscribe<int>("wss://h/ws/market/NIFTY"),
                         [CloseCalled, Opened(0), Message(0, Some(7))]);
      f.delivered == [7] && f.sockets == [Open]
  {
  }
}
