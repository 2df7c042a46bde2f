/** The reconnect delay of src/lib/ws.ts: `Math.min(3000 + reconnectAttempts * 2000, MAX_RECONNECT_DELAY)`. */
module Backoff {

  const BaseDelay: nat := 3000
  const DelayStep: nat := 2000
  /** `MAX_RECONNECT_DELAY` */
  const MaxDelay: nat := 15000

  /** The delay, in milliseconds, before the reconnect that follows a close seen after `attempts` earlier ones. */
  function Delay(attempts: nat): (d: nat)
    ensures BaseDelay <= d <= MaxDelay
    ensures attempts == 0 ==> d == BaseDelay
    ensures d == MaxDelay <==> attempts >= 6
  {
    var grown := BaseDelay + attempts * DelayStep;
    if grown <= MaxDelay then grown else MaxDelay
  }

  /** More failed attempts never shorten the wait. */
  lemma DelayMonotone(a: nat, b: nat)
    requires a <= b
    ensures Delay(a) <= Delay(b)
  {
  }

  /** Before the cap, each further attempt adds exactly 2000 ms. */
  lemma DelayGrowth(a: nat)
    requires a < 6
    ensures Delay(a + 1) == Delay(a) + DelayStep
  {
  }

  /** The delays of `n` closes in a row starting from counter value `a`, in the order they are scheduled. */
  function DelaysFrom(a: nat, n: nat): (ds: seq<nat>)
    ensures |ds| == n
    ensures forall i :: 0 <= i < n ==> ds[i] == Delay(a + i)
  {
    if n == 0 then [] else DelaysFrom(a, n - 1) + [Delay(a + n - 1)]
  }

  /** The delays for counters a .. a+n-1 followed by those for a+n .. a+n+m-1 are the delays for a .. a+n+m-1. */
  lemma {:induction false} DelaysFromAppend(a: nat, n: nat, m: nat)
    ensures DelaysFrom(a, n) + DelaysFrom(a + n, m) == DelaysFrom(a, n + m)
    decreases m
  {
    if m > 0 {
      DelaysFromAppend(a, n, m - 1);
      assert DelaysFrom(a + n, m) == DelaysFrom(a + n, m - 1) + [Delay(a + n + m - 1)];
    }
  }

  /** Any run of consecutive delays is non-decreasing and lies between the base delay and the cap. */
  lemma DelaysFromSorted(a: nat, n: nat)
    ensures forall i, j :: 0 <= i <= j < n ==> DelaysFrom(a, n)[i] <= DelaysFrom(a, n)[j]
    ensures forall i :: 0 <= i < n ==> BaseDelay <= DelaysFrom(a, n)[i] <= MaxDelay
  {
  }
}
