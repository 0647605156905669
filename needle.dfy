/**
  The needle's angle: the expression `map(round(p * 100), 0, 100, MIN_ANGLE, MAX_ANGLE)`
  used when a new probability is written to the servo and when the status is reported.
  The mapping is inverted on this device (MIN_ANGLE = 180, MAX_ANGLE = 0): a larger
  probability gives a numerically smaller angle. The source does not clamp; neither
  does this module.
 */
module Needle {

  const MIN_ANGLE: int := 180
  const MAX_ANGLE: int := 0
  /** Angle written to the servo when it is first attached. */
  const DEFAULT_ANGLE: int := 90

  /** Integer division that truncates toward zero, as C's `/` on `long` does (for a positive divisor). */
  function TruncDiv(n: int, d: int): (q: int)
    requires d > 0
    ensures n >= 0 ==> 0 <= q * d <= n < q * d + d
    ensures n < 0 ==> q * d - d < n <= q * d <= 0
  {
    if n >= 0 then
      EuclidFacts(n, d);
      n / d
    else
      EuclidFacts(-n, d);
      -((-n) / d)
  }

  lemma EuclidFacts(m: int, d: int)
    requires m >= 0 && d > 0
    ensures 0 <= (m / d) * d <= m < (m / d) * d + d
  {
    assert m == d * (m / d) + m % d;
  }

  /** Arduino's `map`: `(x - inMin) * (outMax - outMin) / (inMax - inMin) + outMin`. */
  function ArduinoMap(x: int, inMin: int, inMax: int, outMin: int, outMax: int): (y: int)
    requires inMax > inMin
  {
    TruncDiv((x - inMin) * (outMax - outMin), inMax - inMin) + outMin
  }

  /**
    Servo angle for an integer percentage `x`. On the percentage range the map is
    `180 - floor(180 * x / 100)`.
   */
  function Angle(x: int): (a: int)
    ensures 0 <= x <= 100 ==> a == 180 - (180 * x) / 100
  {
    ArduinoMap(x, 0, 100, MIN_ANGLE, MAX_ANGLE)
  }

  /** C's `round`: to the nearest integer, halves away from zero. */
  function Round(r: real): (n: int)
    ensures r >= 0.0 ==> (n as real) - 0.5 <= r < (n as real) + 0.5
    ensures r < 0.0 ==> (n as real) - 0.5 < r <= (n as real) + 0.5
    ensures r >= 0.0 ==> n >= 0
    ensures r <= 0.0 ==> n <= 0
  {
    if r >= 0.0 then (r + 0.5).Floor else -((-r + 0.5).Floor)
  }

  /** The integer percentage `round(p * 100)`; a probability in [0, 1] gives 0..100. */
  function Percent(p: real): (x: int)
    ensures 0.0 <= p <= 1.0 ==> 0 <= x <= 100
  {
    Round(p * 100.0)
  }

  lemma AngleBounds(x: int)
    requires 0 <= x <= 100
    ensures 0 <= Angle(x) <= 180
  {
  }

  /**
    The angle written for probability `p`; for a probability in [0, 1] it stays
    within the servo's range.
   */
  function AngleOf(p: real): (a: int)
    ensures 0.0 <= p <= 1.0 ==> 0 <= a <= 180
  {
    if 0.0 <= p <= 1.0 then AngleBounds(Percent(p)); Angle(Percent(p))
    else Angle(Percent(p))
  }

  lemma AngleLandmarks()
    ensures Angle(0) == 180 && Angle(50) == 90 && Angle(100) == 0
  {
  }

  lemma {:induction false} DivMonotone(a: int, b: int, d: int)
    requires 0 <= a <= b && d > 0
    ensures a / d <= b / d
  {
    if a / d > b / d {
      calc {
        a;
      >= d * (a / d);
      >= { assert a / d >= b / d + 1; }
        d * (b / d + 1);
      ==
        d * (b / d) + d;
      >
        b;
      }
    }
  }

  lemma TruncDivMonotone(a: int, b: int, d: int)
    requires a <= b && d > 0
    ensures TruncDiv(a, d) <= TruncDiv(b, d)
  {
    if a >= 0 {
      DivMonotone(a, b, d);
    } else if b < 0 {
      DivMonotone(-b, -a, d);
    }
  }

  /** A larger percentage never moves the needle to a larger angle. */
  lemma AngleAntitone(x: int, y: int)
    requires x <= y
    ensures Angle(y) <= Angle(x)
  {
    TruncDivMonotone(y * -180, x * -180, 100);
  }

  lemma RoundMonotone(r: real, s: real)
    requires r <= s
    ensures Round(r) <= Round(s)
  {
  }

  /** The angle is non-increasing in the probability, for every probability. */
  lemma AngleOfAntitone(p: real, q: real)
    requires p <= q
    ensures AngleOf(q) <= AngleOf(p)
  {
    RoundMonotone(p * 100.0, q * 100.0);
    AngleAntitone(Percent(p), Percent(q));
  }

  /** The source does not clamp: a percentage just past 100 drives the needle below 0. */
  lemma NoClamp()
    ensures Angle(101) == -1 && Angle(-1) == 181
  {
  }

  /** Ties round away from zero: 12.5 % is shown as 13 %, not 12 %. */
  lemma TieRoundsUp()
    ensures Percent(0.125) == 13 && AngleOf(0.125) == 157 && Angle(12) == 159
  {
  }
}
