/** The game's static configuration record, one constant per option, and the
    consistency facts the other components rely on when they index its tables. */
module GameOptions {

  // terrain start, as a ratio of the screen height (0 = top, 1 = bottom)
  const TerrainStart: real := 0.6
  // vertical offset, in pixels, where things stand on the terrain
  const StuffOffset: real := 38.0

  // girl x position, as a ratio of the screen width
  const GirlPosition: real := 0.15

  // target position range, as a ratio of the screen width
  const PositionFrom: real := 0.6
  const PositionTo: real := 0.9

  // target height range, in pixels
  const HeightFrom: int := 200
  const HeightTo: int := 450

  // target rings: count, width/height ratio, tints and radii (outer to inner), tolerance
  const RingAmount: nat := 5
  const RingRatio: real := 0.8
  const RingColors: seq<int> := [0xffffff, 0x5cb6f8, 0xe34d46, 0xf2aa3c, 0x95a53c]
  const RingRadius: seq<nat> := [50, 40, 40, 30, 20]
  const RadiusTolerance: real := 0.5

  // rainbow band width, in pixels, and band colours (inner to outer)
  const RainbowWidth: real := 5.0
  const RainbowColors: seq<int> := [0xe8512e, 0xfbb904, 0xffef02, 0x65b33b, 0x00aae5, 0x3c4395, 0x6c4795]

  // arrow rotation speed in degrees per second, flying speed in pixels per second
  const RotationSpeed: real := 180.0
  const FlyingSpeed: real := 1000.0

  /** The offset between the anchor distance and the rainbow's inner radius:
      half the band count times the band width. */
  function BandOffset(): (o: real)
    ensures o == 17.5
  {
    (|RainbowColors| as real / 2.0) * RainbowWidth
  }

  /** The smallest radius a ring can get once perturbed downwards by the whole tolerance. */
  function MinPerturbedRadius(): (m: real)
    ensures m == 10.0
    ensures forall i :: 0 <= i < |RingRadius| ==> m <= RingRadius[i] as real * (1.0 - RadiusTolerance)
  {
    RingRadius[4] as real * (1.0 - RadiusTolerance)
  }

  /** The ring tables have exactly one entry per ring, so indexing them by i < RingAmount is safe. */
  lemma RingTablesMatchAmount()
    ensures |RingRadius| == RingAmount && |RingColors| == RingAmount
  {
  }

  /** Every base radius is positive and the tolerance is a proper fraction. */
  lemma ToleranceKeepsRadiiPositive()
    ensures 0.0 <= RadiusTolerance < 1.0
    ensures forall i :: 0 <= i < |RingRadius| ==> RingRadius[i] > 0
  {
  }

  /** The random ranges are well formed. */
  lemma RangesOrdered()
    ensures HeightFrom <= HeightTo
    ensures 0.0 <= PositionFrom <= PositionTo <= 1.0
  {
  }

  /** Both speeds are positive. */
  lemma SpeedsPositive()
    ensures RotationSpeed > 0.0 && FlyingSpeed > 0.0
  {
  }
}
