/**
  The rule by which a polled quote replaces the displayed probability (`updateProbability`).
  The fetch is an oracle: whether the link was up, the HTTP status of the GET, and the
  probability parsed from the body, if any. Probabilities are reals; the source's
  doubles and their rounding are not modelled.
 */
module Probability {
  import opened Wrappers

  const HTTP_CODE_OK: int := 200
  /** A new quote replaces the current one only if it differs by strictly more than this. */
  const THRESHOLD: real := 0.01
  /** The probability shown before the first successful poll. */
  const INITIAL_PROBABILITY: real := 0.5

  /**
    What one poll of the market API observed. `parsed` is `None` when the body did not
    parse, or when its `probability` field is not a number (the source then compares
    against NaN, which never exceeds the threshold, so the effect is the same).
   */
  datatype Fetch = Fetch(linkUp: bool, httpCode: int, parsed: Option<real>)

  function Abs(r: real): (m: real) {
    if r < 0.0 then -r else r
  }

  /** The quote a poll delivered, if the link was up, the status was 200 and the body parsed. */
  function Quote(f: Fetch): (q: Option<real>)
    ensures q.Some? <==> f.linkUp && f.httpCode == HTTP_CODE_OK && f.parsed.Some?
    ensures q.Some? ==> q == f.parsed
  {
    if !f.linkUp then None
    else if f.httpCode != HTTP_CODE_OK then None
    else f.parsed
  }

  /** Whether the poll replaces `current`. */
  predicate Replaces(current: real, f: Fetch): (b: bool)
    ensures b ==> f.linkUp && f.httpCode == HTTP_CODE_OK && f.parsed.Some? && f.parsed.value != current
  {
    Quote(f).Some? && Abs(Quote(f).value - current) > THRESHOLD
  }

  /** The probability held after the poll. */
  function Next(current: real, f: Fetch): (r: real)
    ensures r == current || Replaces(current, f)
    ensures Replaces(current, f) ==> r != current && r == f.parsed.value
  {
    if Replaces(current, f) then Quote(f).value else current
  }

  /** A poll changes the value exactly when it delivered a quote more than 0.01 away. */
  lemma ChangedIff(current: real, f: Fetch)
    ensures Next(current, f) != current <==>
      f.linkUp && f.httpCode == HTTP_CODE_OK && f.parsed.Some? && Abs(f.parsed.value - current) > THRESHOLD
  {
  }

  /** Link down, a non-200 status or an unparsable body all keep the prior value. */
  lemma FailedPollKeeps(current: real, f: Fetch)
    requires !f.linkUp || f.httpCode != HTTP_CODE_OK || f.parsed.None?
    ensures Next(current, f) == current
  {
  }

  /** A quote exactly 0.01 away does not replace the value; anything further does. */
  lemma ThresholdBoundary(current: real, delta: real)
    ensures Next(current, Fetch(true, HTTP_CODE_OK, Some(current + delta))) ==
      if Abs(delta) > THRESHOLD then current + delta else current
    ensures Next(current, Fetch(true, HTTP_CODE_OK, Some(current + THRESHOLD))) == current
  {
  }

  /** Seeing the same poll result again changes nothing. */
  lemma NextIdempotent(current: real, f: Fetch)
    ensures Next(Next(current, f), f) == Next(current, f)
  {
  }

  /** The value never moves toward a quote by less than the threshold. */
  lemma NoSmallSteps(current: real, f: Fetch)
    ensures Next(current, f) == current || Abs(Next(current, f) - current) > THRESHOLD
  {
  }

  /**
    The source does not clamp: the value stays in [0, 1] only because the API's values do.
    A well-formed quote keeps it there; an out-of-range quote is taken as it is.
   */
  lemma UnitIntervalKept(current: real, f: Fetch)
    requires 0.0 <= current <= 1.0
    requires Quote(f).Some? ==> 0.0 <= Quote(f).value <= 1.0
    ensures 0.0 <= Next(current, f) <= 1.0
  {
  }

  lemma NoClamp()
    ensures Next(INITIAL_PROBABILITY, Fetch(true, HTTP_CODE_OK, Some(1.5))) == 1.5
  {
  }
}
