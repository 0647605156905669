/**
  Timing of the WiFi side: the wait loop of `connectWiFi` and the wrap-around
  arithmetic of `millis()`. The radio is an oracle: `linkUpAt(t)` says whether
  `WiFi.status()` reports a connection `t` milliseconds after `WiFi.begin`.
 */
module Connectivity {

  /** How long `connectWiFi` waits for the link, in milliseconds. */
  const WIFI_TIMEOUT: nat := 20000
  /** The delay between two status checks inside the wait loop. */
  const PROBE_DELAY: nat := 500
  /** Minimum time between two polls of the market API. */
  const UPDATE_INTERVAL: nat := 5000
  /** `millis()` is an `unsigned long`: 32 bits, wrapping. */
  const CLOCK_MODULUS: int := 0x1_0000_0000

  /** A status check happens at every multiple of the probe delay. */
  predicate IsProbeTime(t: nat)
  {
    t % PROBE_DELAY == 0
  }

  /** The link is seen up at some status check within the timeout window. */
  ghost predicate LinkComesUp(linkUpAt: nat -> bool)
  {
    exists t: nat :: t <= WIFI_TIMEOUT && IsProbeTime(t) && linkUpAt(t)
  }

  /**
    The wait loop of `connectWiFi`: check the status, and while it is not connected
    and less than the timeout has elapsed, wait one probe delay. Returns whether the
    final status check saw a connection, and how long the loop waited.
   */
  method WaitForLink(linkUpAt: nat -> bool) returns (connected: bool, waited: nat)
    ensures waited <= WIFI_TIMEOUT && IsProbeTime(waited)
    ensures connected == linkUpAt(waited)
    ensures forall t: nat :: t < waited && IsProbeTime(t) ==> !linkUpAt(t)
    ensures !connected ==> waited == WIFI_TIMEOUT
    ensures connected <==> LinkComesUp(linkUpAt)
  {
    waited := 0;
    while !linkUpAt(waited) && waited < WIFI_TIMEOUT
      invariant waited <= WIFI_TIMEOUT && IsProbeTime(waited)
      invariant forall t: nat :: t < waited && IsProbeTime(t) ==> !linkUpAt(t)
      decreases WIFI_TIMEOUT - waited
    {
      waited := waited + PROBE_DELAY;
    }
    connected := linkUpAt(waited);
  }

  /** `now - since` on `unsigned long`: the time elapsed since `since`, across one wrap. */
  function Elapsed(now: int, since: int): (d: int)
    requires 0 <= now < CLOCK_MODULUS && 0 <= since < CLOCK_MODULUS
    ensures 0 <= d < CLOCK_MODULUS
    ensures (since + d) % CLOCK_MODULUS == now
  {
    (now - since) % CLOCK_MODULUS
  }

  /** Without a wrap the elapsed time is the plain difference; after one it is counted across it. */
  lemma ElapsedAcrossWrap(now: int, since: int)
    requires 0 <= now < CLOCK_MODULUS && 0 <= since < CLOCK_MODULUS
    ensures since <= now ==> Elapsed(now, since) == now - since
    ensures now < since ==> Elapsed(now, since) == now + CLOCK_MODULUS - since
  {
  }

  /** A poll is due when at least the update interval has elapsed. */
  predicate PollDue(now: int, lastUpdate: int): (b: bool)
    requires 0 <= now < CLOCK_MODULUS && 0 <= lastUpdate < CLOCK_MODULUS
    ensures lastUpdate <= now ==> (b <==> now - lastUpdate >= UPDATE_INTERVAL)
  {
    Elapsed(now, lastUpdate) >= UPDATE_INTERVAL
  }

  /**
    The 49.7-day rollover of `millis()` does not stop polling: `k` milliseconds after
    the last poll, wrapped or not, a poll is due iff `k` is at least the update interval.
   */
  lemma PollDueAfterRollover(since: int, k: int)
    requires 0 <= since < CLOCK_MODULUS && 0 <= k < CLOCK_MODULUS
    ensures PollDue((since + k) % CLOCK_MODULUS, since) <==> k >= UPDATE_INTERVAL
    ensures PollDue(4000, CLOCK_MODULUS - 1000) && !PollDue(3999, CLOCK_MODULUS - 1000)
  {
  }
}
