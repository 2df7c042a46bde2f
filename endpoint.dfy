/** The socket address of both drafts: a configured base followed by `/ws/market/<symbol>`. */
module Endpoint {
  import opened Wrappers

  /** The hard-coded fallback used when `NEXT_PUBLIC_WS_BASE` is unset or empty. */
  const DefaultBase: string := "wss://api.kp5bot.com"

  const MarketPath: string := "/ws/market/"

  /**
   * `process.env.NEXT_PUBLIC_WS_BASE || DefaultBase`: JavaScript's `||` falls back
   * both when the variable is undefined and when it is the empty string.
   */
  function ConfiguredBase(env: Option<string>): (b: string)
    ensures b != ""
    ensures env.Some? && env.value != "" ==> b == env.value
    ensures env.None? || env.value == "" ==> b == DefaultBase
  {
    match env
    case Some(v) => if v != "" then v else DefaultBase
    case None => DefaultBase
  }

  predicate StartsWithHttp(s: string) {
    |s| >= 4 && s[..4] == "http"
  }

  /** `RAW_BASE.replace(/^http/, "ws")`: a leading `http` becomes `ws`; anything else is kept. */
  function WsBase(raw: string): (b: string)
    ensures StartsWithHttp(raw) ==> |b| == |raw| - 2 && b[..2] == "ws" && b[2..] == raw[4..]
    ensures !StartsWithHttp(raw) ==> b == raw
  {
    if StartsWithHttp(raw) then "ws" + raw[4..] else raw
  }

  /** The address `connect` opens in src/lib/ws.ts. */
  function MarketUrl(raw: string, symbol: string): (u: string)
    ensures |u| == |WsBase(raw)| + |MarketPath| + |symbol|
    ensures u[..|WsBase(raw)|] == WsBase(raw) && u[|u| - |symbol|..] == symbol
  {
    WsBase(raw) + MarketPath + symbol
  }

  /** The address `connect` opens in lib/ws.ts: the base is used as given. */
  function LegacyMarketUrl(base: string, symbol: string): (u: string)
    ensures |u| == |base| + |MarketPath| + |symbol|
    ensures u[..|base|] == base && u[|u| - |symbol|..] == symbol
    ensures u[|base|..|u| - |symbol|] == MarketPath
  {
    base + MarketPath + symbol
  }

  /** `https://` becomes `wss://` and `http://` becomes `ws://`: the rewrite keeps an insecure base insecure. */
  lemma WsBaseSchemes(host: string)
    ensures WsBase("https://" + host) == "wss://" + host
    ensures WsBase("http://" + host) == "ws://" + host
  {
  }

  /** Rewriting an already rewritten base changes nothing. */
  lemma WsBaseIdempotent(raw: string)
    ensures WsBase(WsBase(raw)) == WsBase(raw)
  {
    var b := WsBase(raw);
    if StartsWithHttp(raw) {
      assert b[0] == 'w';
    }
  }

  /** The fallback base already uses `wss` and passes through the rewrite unchanged. */
  lemma DefaultBaseUnchanged()
    ensures WsBase(DefaultBase) == DefaultBase
  {
    assert DefaultBase[0] == 'w';
  }

  /** The address is the rewritten base, then the market path, then the symbol, and nothing else. */
  lemma MarketUrlParts(raw: string, symbol: string)
    ensures var u := MarketUrl(raw, symbol);
      && |u| == |WsBase(raw)| + |MarketPath| + |symbol|
      && u[..|WsBase(raw)|] == WsBase(raw)
      && u[|u| - |symbol|..] == symbol
      && u[|WsBase(raw)|..|u| - |symbol|] == MarketPath
  {
  }

  /** Two subscriptions with different symbols on the same base use different addresses. */
  lemma MarketUrlInjective(raw: string, s1: string, s2: string)
    requires MarketUrl(raw, s1) == MarketUrl(raw, s2)
    ensures s1 == s2
  {
    var p := WsBase(raw) + MarketPath;
    assert MarketUrl(raw, s1) == p + s1;
    assert MarketUrl(raw, s2) == p + s2;
    assert s1 == (p + s1)[|p|..];
    assert s2 == (p + s2)[|p|..];
  }
}
