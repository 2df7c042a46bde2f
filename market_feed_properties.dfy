/** What the handlers of src/lib/ws.ts guarantee, one event at a time and over whole runs. */
module MarketFeedProperties {
  import opened Wrappers
  import opened HostApi
  import Backoff
  import opened MarketFeed

  /** A socket that can still open or deliver messages. */
  predicate Live(st: ReadyState) {
    st == Connecting || st == Open
  }

  // ---------------------------------------------------------------- subscribe

  /** Subscribing registers the listener and opens one socket at the address, unless the constructor throws. */
  lemma SubscribeOpensOneSocket<V>(url: string, ctorOk: bool)
    ensures var f := Subscribe<V>(url, ctorOk);
      && f.url == url && f.listening && !f.manuallyClosed && f.reconnectAttempts == 0
      && f.timers.pending == {} && f.delivered == []
      && (ctorOk ==> f.sockets == [Connecting] && f.ws == Some(0))
      && (!ctorOk ==> f.sockets == [] && f.ws.None?)
  {
  }

  // ---------------------------------------------------------------- backoff

  /**
   * A close event on a feed that is not manually closed increments the counter by
   * one and schedules one new timer, whose delay is computed from the counter
   * before the increment; no socket is opened until that timer fires.
   */
  lemma CloseEventSchedulesBackoff<V>(f: Feed<V>, s: nat)
    requires WellFormed(f) && s < |f.sockets| && f.sockets[s] != Closed && !f.manuallyClosed
    ensures var g := Step(f, SocketClosed(s));
      var h := |f.timers.delays|;
      && g.reconnectAttempts == f.reconnectAttempts + 1
      && h !in f.timers.pending
      && g.timers.pending == f.timers.pending + {h}
      && g.reconnectTimer == Some(h)
      && g.timers.delays == f.timers.delays + [Backoff.Delay(f.reconnectAttempts)]
      && Backoff.BaseDelay <= g.timers.delays[h] <= Backoff.MaxDelay
      && g.sockets == f.sockets[s := Closed] && g.ws == f.ws
  {
  }

  /** A pending timer that fires reconnects: one new CONNECTING socket, which becomes `ws`. */
  lemma TimerReconnects<V>(f: Feed<V>, h: nat)
    requires WellFormed(f) && h in f.timers.pending && !f.manuallyClosed
    ensures var g := Step(f, TimerFired(h, true));
      && g.sockets == f.sockets + [Connecting] && g.ws == Some(|f.sockets|)
      && g.timers.pending == f.timers.pending - {h}
      && g.reconnectAttempts == f.reconnectAttempts
  {
  }

  /** After an open, the next close waits the base delay of 3000 ms, whatever the counter was. */
  lemma OpenResetsBackoff<V>(f: Feed<V>, s: nat)
    requires WellFormed(f) && s < |f.sockets| && f.sockets[s] == Connecting && !f.manuallyClosed
    ensures var g := Step(Step(f, Opened(s)), SocketClosed(s));
      && g.reconnectAttempts == 1
      && g.reconnectTimer == Some(|f.timers.delays|)
      && g.timers.delays == f.timers.delays + [Backoff.BaseDelay]
  {
  }

  /** One event other than an open raises the counter by at most one and appends the delays for the counter values it passed. */
  lemma StepWithoutOpen<V>(f: Feed<V>, e: Event<V>)
    requires WellFormed(f) && !e.Opened?
    ensures var g := Step(f, e);
      && f.reconnectAttempts <= g.reconnectAttempts <= f.reconnectAttempts + 1
      && g.timers.delays
         == f.timers.delays + Backoff.DelaysFrom(f.reconnectAttempts, g.reconnectAttempts - f.reconnectAttempts)
  {
  }

  /** The counter-and-delays relation between two states, as `StepWithoutOpen` states it for one step. */
  ghost predicate BackedOff<V>(f: Feed<V>, g: Feed<V>) {
    && g.reconnectAttempts >= f.reconnectAttempts
    && g.timers.delays
       == f.timers.delays + Backoff.DelaysFrom(f.reconnectAttempts, g.reconnectAttempts - f.reconnectAttempts)
  }

  /** The relation composes: two stretches without an open make one. */
  lemma BackedOffTrans<V>(f: Feed<V>, f1: Feed<V>, g: Feed<V>)
    requires BackedOff(f, f1) && BackedOff(f1, g)
    ensures BackedOff(f, g)
  {
    var a := f.reconnectAttempts;
    var n := f1.reconnectAttempts - a;
    var m := g.reconnectAttempts - f1.reconnectAttempts;
    Backoff.DelaysFromAppend(a, n, m);
    assert g.timers.delays == f.timers.delays + (Backoff.DelaysFrom(a, n) + Backoff.DelaysFrom(a + n, m));
  }

  /**
   * Between two opens, the timers scheduled are exactly the delays for counter
   * values `a`, `a + 1`, ... in order, where `a` is the counter at the start: the
   * Nth delay after a fresh open is `min(3000 + N * 2000, 15000)`.
   */
  lemma {:induction false} BackoffWithoutOpen<V>(f: Feed<V>, evs: seq<Event<V>>)
    requires WellFormed(f)
    requires forall i | 0 <= i < |evs| :: !evs[i].Opened?
    ensures BackedOff(f, Run(f, evs))
    decreases |evs|
  {
    if evs != [] {
      var f1 := Step(f, evs[0]);
      var g := Run(f1, evs[1..]);
      assert Run(f, evs) == g;
      StepWithoutOpen(f, evs[0]);
      BackoffWithoutOpen(f1, evs[1..]);
      BackedOffTrans(f, f1, g);
    }
  }

  /** Hence, without an intervening open, scheduled delays never decrease and stay within [3000, 15000]. */
  lemma BackoffNonDecreasing<V>(f: Feed<V>, evs: seq<Event<V>>)
    requires WellFormed(f)
    requires forall i | 0 <= i < |evs| :: !evs[i].Opened?
    ensures var d := Run(f, evs).timers.delays;
      && |f.timers.delays| <= |d|
      && (forall i, j :: |f.timers.delays| <= i <= j < |d| ==> d[i] <= d[j])
      && (forall i :: |f.timers.delays| <= i < |d| ==> Backoff.BaseDelay <= d[i] <= Backoff.MaxDelay)
  {
    var g := Run(f, evs);
    BackoffWithoutOpen(f, evs);
    var a := f.reconnectAttempts;
    var n := g.reconnectAttempts - a;
    var k := |f.timers.delays|;
    Backoff.DelaysFromSorted(a, n);
    var ds := Backoff.DelaysFrom(a, n);
    assert forall i :: k <= i < |g.timers.delays| ==> g.timers.delays[i] == ds[i - k];
  }

  ghost predicate DelaysInRange<V>(f: Feed<V>) {
    forall i | 0 <= i < |f.timers.delays| :: Backoff.BaseDelay <= f.timers.delays[i] <= Backoff.MaxDelay
  }

  /** Every reconnect timer the feed ever sets waits between 3000 and 15000 ms. */
  lemma {:induction false} DelaysAlwaysInRange<V>(f: Feed<V>, evs: seq<Event<V>>)
    requires WellFormed(f) && DelaysInRange(f)
    ensures DelaysInRange(Run(f, evs))
    decreases |evs|
  {
    if evs != [] {
      var f1 := Step(f, evs[0]);
      assert DelaysInRange(f1);
      DelaysAlwaysInRange(f1, evs[1..]);
    }
  }

  // ---------------------------------------------------------------- manual close

  /**
   * Once `manuallyClosed` is set: `connect` creates nothing, a close event only
   * marks its socket CLOSED (no timer, counter unchanged), and the visibility
   * handler does nothing.
   */
  lemma ManualCloseHandlers<V>(f: Feed<V>, s: nat, visible: bool, ctorOk: bool)
    requires WellFormed(f) && f.manuallyClosed && s < |f.sockets|
    ensures ConnectStep(f, ctorOk) == f
    ensures CloseEventStep(f, s) == f.(sockets := f.sockets[s := Closed])
    ensures VisibilityStep(f, visible, ctorOk) == f
  {
  }

  /** `close()` sets the flag, removes the listener, cancels and nulls the timer, starts closing `ws` unless CLOSED, and nulls `ws`. */
  lemma CloseEffects<V>(f: Feed<V>)
    requires WellFormed(f)
    ensures var g := CloseStep(f);
      && g.manuallyClosed && !g.listening && g.reconnectTimer.None? && g.ws.None?
      && (f.reconnectTimer.Some? ==> g.timers.pending == f.timers.pending - {f.reconnectTimer.value})
      && (f.reconnectTimer.None? ==> g.timers == f.timers)
      && g.timers.delays == f.timers.delays
      && |g.sockets| == |f.sockets|
      && (forall i | 0 <= i < |f.sockets| && (f.ws != Some(i) || f.sockets[i] == Closed) :: g.sockets[i] == f.sockets[i])
      && (f.ws.Some? ==> !Live(g.sockets[f.ws.value]))
      && g.reconnectAttempts == f.reconnectAttempts && g.delivered == f.delivered
  {
  }

  /** Calling `close()` a second time changes nothing. */
  lemma CloseIdempotent<V>(f: Feed<V>)
    requires WellFormed(f)
    ensures CloseStep(CloseStep(f)) == CloseStep(f)
  {
  }

  /** `manuallyClosed` never reverts: no event clears it. */
  lemma {:induction false} ManualCloseIsFinal<V>(f: Feed<V>, evs: seq<Event<V>>)
    requires WellFormed(f) && f.manuallyClosed
    ensures var g := Run(f, evs);
      && g.manuallyClosed
      && |g.sockets| == |f.sockets|
      && g.timers.delays == f.timers.delays
      && g.timers.pending <= f.timers.pending
      && (g.reconnectAttempts == f.reconnectAttempts || g.reconnectAttempts == 0)
    decreases |evs|
  {
    if evs != [] {
      var f1 := Step(f, evs[0]);
      ManualCloseIsFinal(f1, evs[1..]);
    }
  }

  /** A close event after `close()` schedules nothing (contrast LegacyFeedProperties.CloseStillReschedules). */
  lemma CloseThenCloseEventIsQuiet<V>(f: Feed<V>)
    requires WellFormed(f) && f.ws.Some? && f.sockets[f.ws.value] != Closed
    ensures var g := CloseStep(f);
      var h := Step(g, SocketClosed(f.ws.value));
      && h.timers == g.timers && h.reconnectAttempts == f.reconnectAttempts
      && h.sockets[f.ws.value] == Closed && |h.sockets| == |f.sockets|
  {
  }

  // ---------------------------------------------------------------- visibility

  /** The visibility handler reconnects exactly when visible, listening, not manually closed, and `ws` is null or CLOSED. */
  lemma VisibilityReconnectsExactlyWhen<V>(f: Feed<V>, visible: bool)
    requires WellFormed(f)
    ensures var g := Step(f, VisibilityChanged(visible, true));
      |g.sockets| > |f.sockets|
      <==> f.listening && visible && !f.manuallyClosed && (f.ws.None? || f.sockets[f.ws.value] == Closed)
    ensures var g := Step(f, VisibilityChanged(visible, true));
      |g.sockets| > |f.sockets| ==> g.ws == Some(|f.sockets|) && g.timers == f.timers
    ensures var g := Step(f, VisibilityChanged(visible, true));
      |g.sockets| == |f.sockets| ==> g == f
  {
  }

  // ---------------------------------------------------------------- messages, errors, constructor failure

  /** `onData` gets the parsed value once on success, nothing on a parse failure; nothing else changes. */
  lemma MessageDelivery<V>(f: Feed<V>, s: nat, parsed: Option<V>)
    requires WellFormed(f) && s < |f.sockets| && f.sockets[s] == Open
    ensures var g := Step(f, Message(s, parsed));
      && g.delivered == f.delivered + (if parsed.Some? then [parsed.value] else [])
      && g.(delivered := f.delivered) == f
  {
  }

  /** A frame that does not parse does not stop the next good frame on the same socket. */
  lemma BadFrameKeepsConnection<V>(f: Feed<V>, s: nat, v: V)
    requires WellFormed(f) && s < |f.sockets| && f.sockets[s] == Open
    ensures Run(f, [Message(s, None), Message(s, Some(v))]).delivered == f.delivered + [v]
  {
    var f1 := Step(f, Message(s, None));
    RunCons(f, Message(s, None), [Message(s, Some(v))]);
    RunCons(f1, Message(s, Some(v)), []);
    assert [Message(s, None), Message(s, Some(v))] == [Message(s, None)] + [Message(s, Some(v))];
    assert [Message(s, Some(v))] == [Message(s, Some(v))] + [];
  }

  /** `onerror` changes nothing. */
  lemma ErrorChangesNothing<V>(f: Feed<V>, s: nat)
    requires WellFormed(f)
    ensures Step(f, Errored(s)) == f
  {
  }

  /**
   * If the WebSocket constructor throws when a timer fires, `ws` keeps its old
   * value and no new timer is scheduled.
   */
  lemma ThrowingConstructorKeepsWs<V>(f: Feed<V>, h: nat)
    requires WellFormed(f) && h in f.timers.pending
    ensures var g := Step(f, TimerFired(h, false));
      && g.ws == f.ws && g.sockets == f.sockets
      && g.timers.delays == f.timers.delays && g.timers.pending == f.timers.pending - {h}
  {
  }

  // ---------------------------------------------------------------- at most one live socket

  /**
   * The one-socket, one-timer invariant a subscription is meant to keep: before
   * `close()`, every socket except `ws` is CLOSED and a timer is pending only while
   * `ws` is CLOSED, and then it is `reconnectTimer`; after `close()`, no socket is
   * live and no timer is pending.
   */
  ghost predicate OneLive<V>(f: Feed<V>) {
    && WellFormed(f)
    && if f.manuallyClosed then
         && f.timers.pending == {}
         && (forall i | 0 <= i < |f.sockets| :: !Live(f.sockets[i]))
       else
         && (forall i | 0 <= i < |f.sockets| && f.sockets[i] != Closed :: f.ws == Some(i))
         && (f.timers.pending != {} ==>
               && f.reconnectTimer.Some? && f.timers.pending == {f.reconnectTimer.value}
               && f.ws.Some? && f.sockets[f.ws.value] == Closed)
  }

  lemma SubscribeOneLive<V>(url: string, ctorOk: bool)
    ensures OneLive(Subscribe<V>(url, ctorOk))
  {
  }

  /** The invariant means what it says: at most one live socket and at most one pending timer. */
  lemma OneLiveMeansOneSocket<V>(f: Feed<V>)
    requires OneLive(f)
    ensures forall i, j | 0 <= i < j < |f.sockets| :: !Live(f.sockets[i]) || !Live(f.sockets[j])
    ensures |f.timers.pending| <= 1
  {
  }

  /** Every event keeps the invariant, except a visibility change while a reconnect timer is pending. */
  lemma OneLiveStep<V>(f: Feed<V>, e: Event<V>)
    requires OneLive(f)
    requires !(e.VisibilityChanged? && f.timers.pending != {})
    ensures OneLive(Step(f, e))
  {
  }

  /**
   * So a run keeps one live socket and one pending timer at most as long as every
   * visibility change arrives while no reconnect timer is pending.
   */
  lemma {:induction false} OneLiveRun<V>(f: Feed<V>, evs: seq<Event<V>>)
    requires OneLive(f)
    requires forall i | 0 <= i < |evs| ::
      evs[i].VisibilityChanged? ==> Run(f, evs[..i]).timers.pending == {}
    ensures OneLive(Run(f, evs))
    decreases |evs|
  {
    if evs != [] {
      assert evs[..0] == [];
      OneLiveStep(f, evs[0]);
      var f1 := Step(f, evs[0]);
      var rest := evs[1..];
      forall i | 0 <= i < |rest| && rest[i].VisibilityChanged?
        ensures Run(f1, rest[..i]).timers.pending == {}
      {
        assert evs[..i + 1] == [evs[0]] + rest[..i];
        RunCons(f, evs[0], rest[..i]);
        assert evs[i + 1] == rest[i];
      }
      assert evs == [evs[0]] + rest;
      RunCons(f, evs[0], rest);
      OneLiveRun(f1, rest);
    }
  }

  /**
   * Under the invariant, a timer whose `connect` hits a throwing constructor leaves
   * the feed with no live socket and no pending timer: only a visibility change can
   * revive it.
   */
  lemma ThrowingConstructorStalls<V>(f: Feed<V>, h: nat)
    requires OneLive(f) && !f.manuallyClosed && h in f.timers.pending
    ensures var g := Step(f, TimerFired(h, false));
      && g.timers.pending == {}
      && (forall i | 0 <= i < |g.sockets| :: !Live(g.sockets[i]))
  {
  }

  ghost predicate Silenced<V>(f: Feed<V>) {
    && WellFormed(f) && f.manuallyClosed && f.timers.pending == {}
    && (forall i | 0 <= i < |f.sockets| :: !Live(f.sockets[i]))
  }

  /** A silenced feed stays silenced: no message reaches `onData`, no socket is created. */
  lemma {:induction false} SilencedRun<V>(f: Feed<V>, evs: seq<Event<V>>)
    requires Silenced(f)
    ensures var g := Run(f, evs);
      Silenced(g) && g.delivered == f.delivered && |g.sockets| == |f.sockets|
    decreases |evs|
  {
    if evs != [] {
      var f1 := Step(f, evs[0]);
      assert Silenced(f1) && f1.delivered == f.delivered && |f1.sockets| == |f.sockets|;
      SilencedRun(f1, evs[1..]);
    }
  }

  /** On a feed that kept the invariant, nothing reaches `onData` after `close()`. */
  lemma CloseSilencesOneLive<V>(f: Feed<V>, evs: seq<Event<V>>)
    requires OneLive(f)
    ensures var g := Run(CloseStep(f), evs);
      g.delivered == f.delivered && |g.sockets| == |f.sockets|
  {
    OneLiveStep(f, CloseCalled);
    assert Step(f, CloseCalled) == CloseStep(f);
    SilencedRun(CloseStep(f), evs);
  }

  /** `subscribe` followed at once by `close()` never calls `onData` and never opens another socket. */
  lemma SubscribeThenCloseIsSilent<V>(url: string, ctorOk: bool, evs: seq<Event<V>>)
    ensures var g := Run(CloseStep(Subscribe<V>(url, ctorOk)), evs);
      g.delivered == [] && |g.sockets| <= 1
  {
    SubscribeOneLive<V>(url, ctorOk);
    CloseSilencesOneLive(Subscribe<V>(url, ctorOk), evs);
  }

  // ---------------------------------------------------------------- the visibility race

  const RaceUrl: string := "wss://h/ws/market/NIFTY"

  /** Open, drop, page shown again while the reconnect timer is pending, the new socket opens, the timer fires. */
  function RaceTrace(): seq<Event<int>> {
    [Opened(0), SocketClosed(0), VisibilityChanged(true, true), Opened(1), TimerFired(0, true)]
  }

  lemma RunCons<V>(f: Feed<V>, e: Event<V>, evs: seq<Event<V>>)
    requires WellFormed(f)
    ensures Run(f, [e] + evs) == Run(Step(f, e), evs)
  {
  }

  /**
   * The visibility handler does not cancel the pending reconnect timer; when it
   * fires it opens a second socket and overwrites `ws`, leaving the first OPEN and
   * unreferenced, so the one-socket invariant is lost.
   */
  lemma VisibilityRaceOrphansSocket()
    ensures var g := Run(Subscribe<int>(RaceUrl, true), RaceTrace());
      && g.sockets == [Closed, Open, Connecting] && g.ws == Some(2) && !g.manuallyClosed
      && !OneLive(g)
  {
  }

  /** The orphaned socket is not closed by `close()` and still hands messages to `onData` afterwards. */
  lemma OrphanDeliversAfterClose()
    ensures var g := CloseStep(Run(Subscribe<int>(RaceUrl, true), RaceTrace()));
      && g.manuallyClosed
      && Step(g, Message(1, Some(42))).delivered == g.delivered + [42]
  {
  }

  /**
   * The same race with the second socket dropping before the first timer fires: two
   * timers are pending, `close()` cancels only the newer one, and the older one
   * still fires after the manual close (its `connect` then returns at once).
   */
  lemma VisibilityRaceLeavesTwoTimers()
    ensures var f := Run(Subscribe<int>(RaceUrl, true),
                         [Opened(0), SocketClosed(0), VisibilityChanged(true, true), SocketClosed(1)]);
      && f.timers.pending == {0, 1} && f.reconnectTimer == Some(1)
      && CloseStep(f).timers.pending == {0}
      && Deliverable(CloseStep(f), TimerFired(0, true))
  {
  }
}
