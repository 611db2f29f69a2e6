/** Numeric primitives used by the game: the value of pi, degree/radian
    conversion, rounding, and the trigonometric and angle primitives of the
    engine, which are taken as caller-supplied functions. */
module Geometry {

  /** The double closest to pi, which is the number `Math.PI` stands for. */
  const Pi: real := 884279719003555.0 / 281474976710656.0

  /** Degrees in one radian. */
  const DegPerRad: real := 180.0 / Pi

  /** A readable check of the exact constant above: it is pi to five decimals. */
  lemma PiBounds()
    ensures 3.14159 < Pi < 3.1416
  {
  }

  /** Radian to degree conversion: r radians are to pi as the result is to 180. */
  function RadToDeg(r: real): (deg: real)
    ensures deg * Pi == r * 180.0
  {
    r * DegPerRad
  }

  /** Degree to radian conversion; it is the inverse of RadToDeg. */
  function DegToRad(d: real): (r: real)
    ensures RadToDeg(r) == d
  {
    d * (Pi / 180.0)
  }

  /** RadToDeg preserves the order of angles. */
  lemma RadToDegMonotone(a: real, b: real)
    requires a <= b
    ensures RadToDeg(a) <= RadToDeg(b)
  {
  }

  /** `Math.round`: the nearest integer, halves going up. */
  function Round(x: real): (n: int)
    ensures x - 0.5 < n as real <= x + 0.5
  {
    (x + 0.5).Floor
  }

  lemma RoundMonotone(x: real, y: real)
    requires x <= y
    ensures Round(x) <= Round(y)
  {
  }

  /** The engine's primitives: cosine, sine, two-argument arctangent, square
      root and the normalisation of an angle into [0, 2*pi). */
  datatype Trig = Trig(
    cos: real -> real,
    sin: real -> real,
    atan2: (real, real) -> real,
    sqrt: real -> real,
    normalize: real -> real)

  /** The angle of the line from (x1, y1) to (x2, y2). */
  function LineAngle(t: Trig, x1: real, y1: real, x2: real, y2: real): real
  {
    t.atan2(y2 - y1, x2 - x1)
  }

  /** The length of the line from (x1, y1) to (x2, y2). */
  function LineLength(t: Trig, x1: real, y1: real, x2: real, y2: real): real
  {
    t.sqrt((x2 - x1) * (x2 - x1) + (y2 - y1) * (y2 - y1))
  }
}
