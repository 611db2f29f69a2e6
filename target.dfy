/** The target: a pole with a pole top and two shadows, and a stack of nested
    oval rings whose radii are the base radii perturbed at random. */
module Targets {
  import opened GameOptions
  import opened Geometry
  import opened Engine

  /** The random draws one placement consumes: for every ring a tolerance
      factor and a sign, and the height of the target above the pole base. */
  datatype PlaceDraws = PlaceDraws(factors: seq<real>, signs: seq<int>, height: int)

  /** The draws the random source can produce: factors in [0, tolerance],
      signs -1 or +1, a height in the height range. */
  predicate ValidDraws(d: PlaceDraws)
  {
    && |d.factors| == RingAmount && |d.signs| == RingAmount
    && (forall i :: 0 <= i < RingAmount ==> 0.0 <= d.factors[i] <= RadiusTolerance)
    && (forall i :: 0 <= i < RingAmount ==> d.signs[i] == 1 || d.signs[i] == -1)
    && HeightFrom <= d.height <= HeightTo
  }

  /** One ring's radius: the base radius r moved by the fraction f of itself,
      up or down according to s, and rounded. It stays within the tolerance. */
  function PerturbedRadius(r: nat, f: real, s: int): (v: int)
    requires 0.0 <= f <= RadiusTolerance && (s == 1 || s == -1)
    ensures var exact := r as real * (1.0 + f * s as real);
      exact - 0.5 < v as real <= exact + 0.5
    ensures Round(r as real * (1.0 - RadiusTolerance)) <= v <= Round(r as real * (1.0 + RadiusTolerance))
    ensures s == 1 ==> r <= v
    ensures s == -1 ==> v <= r
  {
    var x := r as real + r as real * f * s as real;
    var shift := r as real * f;
    assert 0.0 <= shift <= r as real * RadiusTolerance by {
      assert r as real * (RadiusTolerance - f) >= 0.0;
    }
    assert x == if s == 1 then r as real + shift else r as real - shift;
    RoundMonotone(r as real * (1.0 - RadiusTolerance), x);
    RoundMonotone(x, r as real * (1.0 + RadiusTolerance));
    if s == 1 then RoundMonotone(r as real, x); Round(x)
    else RoundMonotone(x, r as real); Round(x)
  }

  /** The sum of a list, folded from the left as `reduce` does. */
  function Sum(s: seq<int>): int
  {
    if |s| == 0 then 0 else Sum(s[..|s| - 1]) + s[|s| - 1]
  }

  /** A list of positive entries sums to at least its length. */
  lemma {:induction false} SumOfPositives(s: seq<int>)
    requires forall k :: 0 <= k < |s| ==> s[k] > 0
    ensures Sum(s) >= |s|
  {
    if |s| > 0 {
      SumOfPositives(s[..|s| - 1]);
    }
  }

  /** The same sum, taken from the front. */
  lemma {:induction false} SumFront(s: seq<int>)
    requires |s| > 0
    ensures Sum(s) == s[0] + Sum(s[1..])
  {
    var n := |s|;
    if n == 1 {
      assert s[..0] == [] && s[1..] == [];
    } else {
      SumFront(s[..n - 1]);
      assert s[..n - 1][1..] == s[1..][..n - 2];
      assert s[1..][n - 2] == s[n - 1];
    }
  }

  /** With positive entries, a longer suffix has a strictly larger sum. */
  lemma {:induction false} SuffixSumsDecrease(s: seq<int>, i: int, j: int)
    requires forall k :: 0 <= k < |s| ==> s[k] > 0
    requires 0 <= i < j <= |s|
    ensures Sum(s[i..]) > Sum(s[j..])
    decreases j - i
  {
    SumFront(s[i..]);
    assert s[i..][1..] == s[i + 1..];
    if i + 1 < j {
      SuffixSumsDecrease(s, i + 1, j);
    } else {
      assert s[j..] == s[i + 1..];
    }
  }

  /** A ring centred at (x, y) with the given tint, as tall as `size` and as
      wide as `size` times the ring ratio. */
  ghost predicate RingAt(r: Sprite, x: real, y: real, tint: int, size: real)
    reads r
  {
    r.x == x && r.y == y && r.tint == tint && r.displayWidth == size * RingRatio && r.displayHeight == size
  }

  /** Position, tint and display size of one ring, as one pass of the ring loop sets them. */
  method SetRing(r: Sprite, x: real, y: real, tint: int, size: real)
    modifies r`x, r`y, r`tint, r`displayWidth, r`displayHeight
    ensures RingAt(r, x, y, tint, size)
  {
    r.x, r.y := x, y;
    r.tint := tint;
    r.displayWidth, r.displayHeight := size * RingRatio, size;
  }

  /** The ring sprites the constructor's loop adds, one per ring, each new. */
  method NewRings() returns (rs: seq<Sprite>)
    ensures |rs| == RingAmount && Distinct(rs)
    ensures forall k :: 0 <= k < |rs| ==> fresh(rs[k])
  {
    rs := [];
    var i := 0;
    while i < RingAmount
      invariant 0 <= i <= RingAmount && |rs| == i
      invariant Distinct(rs)
      invariant forall k :: 0 <= k < |rs| ==> fresh(rs[k])
      modifies {}
    {
      var r := new Sprite(0.0, 0.0, 0.0, 0.0);
      rs := rs + [r];
      i := i + 1;
    }
  }

  class Target {
    // the screen width, from the game configuration
    const screenWidth: real
    const shadow: Sprite
    const poleShadow: Sprite
    const pole: Sprite
    const poleTop: Sprite
    // the rings, outer to inner
    const rings: seq<Sprite>
    var ringRadii: seq<int>

    /** The sprites in the order they were added to the group. */
    function Children(): seq<Sprite>
    {
      [shadow, poleShadow, pole, poleTop] + rings
    }

    ghost function RingSet(): set<Sprite>
    {
      set r | r in rings
    }

    ghost function Parts(): set<Sprite>
    {
      {shadow, poleShadow, pole, poleTop} + RingSet()
    }

    /** One sprite per ring, and no sprite used twice. */
    ghost predicate Valid()
    {
      && |rings| == RingAmount
      && Distinct(rings)
      && shadow != poleShadow && shadow != pole && shadow != poleTop
      && poleShadow != pole && poleShadow != poleTop && pole != poleTop
      && {shadow, poleShadow, pole, poleTop} !! RingSet()
    }

    /** The state `place(posX)` leaves behind, given the draws it consumed. */
    ghost predicate PlacedAt(posX: real, d: PlaceDraws)
      requires Valid() && ValidDraws(d)
      reads this, Parts()
    {
      var targetHeight := pole.y - d.height as real;
      var sum := Sum(ringRadii) as real;
      && |ringRadii| == RingAmount
      && (forall i :: 0 <= i < RingAmount ==>
            ringRadii[i] == PerturbedRadius(RingRadius[i], d.factors[i], d.signs[i]))
      && poleShadow.x == posX
      && pole.x == posX && pole.displayHeight == pole.y - targetHeight
      && poleTop.x == posX && poleTop.y == pole.y - pole.displayHeight - sum / 2.0 + 10.0
      && shadow.displayWidth == sum * RingRatio && shadow.displayHeight == sum
      && shadow.x == posX + 5.0 && shadow.y == targetHeight
      && (forall i :: 0 <= i < RingAmount ==>
            RingAt(rings[i], posX, targetHeight, RingColors[i], Sum(ringRadii[i..]) as real))
    }

    /** Creates the sprites and places the target twice the screen width away. */
    constructor (screenWidth: real, screenHeight: real, d: PlaceDraws)
      requires ValidDraws(d)
      ensures Valid() && fresh(Parts())
      ensures this.screenWidth == screenWidth
      ensures pole.y == screenHeight * TerrainStart + StuffOffset
      ensures poleShadow.y == screenHeight * TerrainStart + StuffOffset
      ensures PlacedAt(2.0 * screenWidth, d)
    {
      var stuffStartY := screenHeight * TerrainStart + StuffOffset;
      this.screenWidth := screenWidth;
      var sh := new Sprite(0.0, 0.0, 0.0, 0.0);
      var ps := new Sprite(0.0, stuffStartY, 90.0, 20.0);
      var pl := new Sprite(0.0, stuffStartY, 32.0, 0.0);
      var pt := new Sprite(0.0, 0.0, 0.0, 0.0);
      shadow, poleShadow, pole, poleTop := sh, ps, pl, pt;
      var rs := NewRings();
      rings := rs;
      ringRadii := [];
      new;
      shadow.tint := 0x676767;
      poleShadow.tint := 0x000000;
      Place(2.0 * screenWidth, d);
    }

    /** `place`: draws the ring radii, sums them, and lays out pole, shadows
        and the nested rings at posX. */
    method Place(posX: real, d: PlaceDraws)
      requires Valid() && ValidDraws(d)
      modifies this`ringRadii, poleShadow`x, pole`x, pole`displayHeight, poleTop`x, poleTop`y
      modifies shadow`x, shadow`y, shadow`displayWidth, shadow`displayHeight, rings`x, rings`y, rings`tint, rings`displayWidth, rings`displayHeight
      ensures Valid() && PlacedAt(posX, d)
    {
      DrawRadii(d);
      var radiiSum := Sum(ringRadii);
      var targetHeight := pole.y - d.height as real;
      poleShadow.x := posX;
      pole.x := posX;
      pole.displayHeight := pole.y - targetHeight;
      poleTop.x, poleTop.y := posX, pole.y - pole.displayHeight - radiiSum as real / 2.0 + 10.0;
      shadow.displayWidth, shadow.displayHeight := radiiSum as real * RingRatio, radiiSum as real;
      shadow.x, shadow.y := posX + 5.0, targetHeight;
      LayRings(posX, targetHeight);
    }

    /** The first loop of `place`: one perturbed radius per ring. */
    method DrawRadii(d: PlaceDraws)
      requires ValidDraws(d)
      modifies this`ringRadii
      ensures |ringRadii| == RingAmount
      ensures forall i :: 0 <= i < RingAmount ==>
        ringRadii[i] == PerturbedRadius(RingRadius[i], d.factors[i], d.signs[i])
    {
      ringRadii := [];
      var i := 0;
      while i < RingAmount
        invariant 0 <= i <= RingAmount && |ringRadii| == i
        invariant forall k :: 0 <= k < i ==>
          ringRadii[k] == PerturbedRadius(RingRadius[k], d.factors[k], d.signs[k])
      {
        ringRadii := ringRadii + [PerturbedRadius(RingRadius[i], d.factors[i], d.signs[i])];
        i := i + 1;
      }
    }

    /** The second loop of `place`: every ring is centred at (posX, targetHeight),
        tinted, and sized by the running radii sum, which then drops by the
        ring's own radius. */
    method LayRings(posX: real, targetHeight: real)
      requires Valid() && |ringRadii| == RingAmount
      modifies rings`x, rings`y, rings`tint, rings`displayWidth, rings`displayHeight
      ensures forall k :: 0 <= k < RingAmount ==>
        RingAt(rings[k], posX, targetHeight, RingColors[k], Sum(ringRadii[k..]) as real)
    {
      var radiiSum := Sum(ringRadii);
      assert ringRadii[0..] == ringRadii;
      var i := 0;
      while i < RingAmount
        invariant 0 <= i <= RingAmount
        invariant radiiSum == Sum(ringRadii[i..])
        invariant forall k :: 0 <= k < i ==>
          RingAt(rings[k], posX, targetHeight, RingColors[k], Sum(ringRadii[k..]) as real)
      {
        SetRing(rings[i], posX, targetHeight, RingColors[i], radiiSum as real);
        SumFront(ringRadii[i..]);
        assert ringRadii[i..][1..] == ringRadii[i + 1..];
        radiiSum := radiiSum - ringRadii[i];
        i := i + 1;
      }
    }

    /** The y of the target's top and bottom edges, half the radii sum above
        and below the outer ring's centre. */
    function TopEdgeY(): real
      requires Valid()
      reads this, rings[0]
    {
      rings[0].y - Sum(ringRadii) as real / 2.0
    }

    function BottomEdgeY(): real
      requires Valid()
      reads this, rings[0]
    {
      rings[0].y + Sum(ringRadii) as real / 2.0
    }

    /** `hitByArrow`: the arrow hits when its normalised angle lies in the
        closed window between the normalised angles of the lines from the
        rainbow centre to the target's top and bottom edges. */
    function HitByArrow(startX: real, startY: real, arrowAngle: real, t: Trig): (hit: bool)
      requires Valid()
      reads this, rings[0]
      ensures hit <==>
        && t.normalize(LineAngle(t, startX, startY, rings[0].x, TopEdgeY())) <= t.normalize(arrowAngle)
        && t.normalize(arrowAngle) <= t.normalize(LineAngle(t, startX, startY, rings[0].x, BottomEdgeY()))
    {
      var radiiSum := Sum(ringRadii) as real;
      var topAngle := LineAngle(t, startX, startY, rings[0].x, rings[0].y - radiiSum / 2.0);
      var bottomAngle := LineAngle(t, startX, startY, rings[0].x, rings[0].y + radiiSum / 2.0);
      var arrowNormalizedAngle := t.normalize(arrowAngle);
      arrowNormalizedAngle >= t.normalize(topAngle) && arrowNormalizedAngle <= t.normalize(bottomAngle)
    }

    /** The right edge of the target's shadow (its origin is its centre). */
    function ShadowRight(): real
      reads shadow
    {
      shadow.x + shadow.displayWidth / 2.0
    }

    /** `adjustPosition`: once the shadow has left the screen on the left,
        place the target again twice the screen width away, less the
        distance already scrolled; otherwise change nothing. */
    method AdjustPosition(deltaX: real, d: PlaceDraws)
      requires Valid() && ValidDraws(d)
      modifies this`ringRadii, poleShadow`x, pole`x, pole`displayHeight, poleTop`x, poleTop`y
      modifies shadow`x, shadow`y, shadow`displayWidth, shadow`displayHeight, rings`x, rings`y, rings`tint, rings`displayWidth, rings`displayHeight
      ensures Valid()
      ensures old(ShadowRight()) >= 0.0 ==>
        unchanged(this, shadow, poleShadow, pole, poleTop) && unchanged(RingSet())
      ensures old(ShadowRight()) < 0.0 ==> PlacedAt(2.0 * screenWidth - deltaX, d)
    {
      if ShadowRight() < 0.0 {
        Place(2.0 * screenWidth - deltaX, d);
      }
    }
  }

  /** After a placement every ring radius is within the tolerance of its base
      radius and at least 10 pixels. */
  lemma PlacedRadiiInTolerance(t: Target, posX: real, d: PlaceDraws)
    requires t.Valid() && ValidDraws(d) && t.PlacedAt(posX, d)
    ensures forall i :: 0 <= i < RingAmount ==>
      && Round(RingRadius[i] as real * (1.0 - RadiusTolerance)) <= t.ringRadii[i]
      && t.ringRadii[i] <= Round(RingRadius[i] as real * (1.0 + RadiusTolerance))
      && 10 <= t.ringRadii[i]
  {
    forall i | 0 <= i < RingAmount
      ensures 10 <= t.ringRadii[i]
    {
      assert MinPerturbedRadius() <= RingRadius[i] as real * (1.0 - RadiusTolerance);
      RoundMonotone(10.0, RingRadius[i] as real * (1.0 - RadiusTolerance));
    }
  }

  /** After a placement the outer ring is as tall as the whole radii sum, every
      ring is strictly smaller than the ones outside it, and the widths keep
      the configured ratio. */
  lemma PlacedRingsNested(t: Target, posX: real, d: PlaceDraws)
    requires t.Valid() && ValidDraws(d) && t.PlacedAt(posX, d)
    ensures t.rings[0].displayHeight == Sum(t.ringRadii) as real
    ensures forall i, j :: 0 <= i < j < RingAmount ==>
      t.rings[j].displayHeight < t.rings[i].displayHeight &&
      t.rings[j].displayWidth < t.rings[i].displayWidth
    ensures forall i :: 0 <= i < RingAmount ==>
      t.rings[i].displayWidth == t.rings[i].displayHeight * RingRatio
  {
    assert t.ringRadii[0..] == t.ringRadii;
    PlacedRadiiInTolerance(t, posX, d);
    forall i, j | 0 <= i < j < RingAmount
      ensures t.rings[j].displayHeight < t.rings[i].displayHeight
    {
      SuffixSumsDecrease(t.ringRadii, i, j);
    }
  }

  /** After a placement the pole is exactly the drawn height tall, the pole
      top sits 10 pixels below the target's top edge, and the hit window
      spans exactly the outer ring's drawn height, centred on its centre; the
      shadow's right edge lies right of the pole. */
  lemma PlacedGeometry(t: Target, posX: real, d: PlaceDraws)
    requires t.Valid() && ValidDraws(d) && t.PlacedAt(posX, d)
    ensures t.pole.displayHeight == d.height as real
    ensures HeightFrom as real <= t.pole.displayHeight <= HeightTo as real
    ensures t.poleTop.y == t.TopEdgeY() + 10.0
    ensures t.rings[0].x == posX && t.shadow.x == posX + 5.0
    ensures t.TopEdgeY() == t.rings[0].y - t.rings[0].displayHeight / 2.0
    ensures t.BottomEdgeY() == t.rings[0].y + t.rings[0].displayHeight / 2.0
    ensures t.ShadowRight() > posX + 5.0
  {
    assert t.ringRadii[0..] == t.ringRadii;
    PlacedRadiiInTolerance(t, posX, d);
    SumOfPositives(t.ringRadii);
  }

  /** Over [lo, hi] the normalised angle of the line from (sx, sy) to (x, y)
      grows strictly with y. The window test of HitByArrow relies on this; it
      fails when the lines to the target cross the angle at which the
      normalisation wraps from 2*pi back to 0. */
  ghost predicate AnglesIncrease(t: Trig, sx: real, sy: real, x: real, lo: real, hi: real)
  {
    forall y1, y2 :: lo <= y1 < y2 <= hi ==>
      t.normalize(LineAngle(t, sx, sy, x, y1)) < t.normalize(LineAngle(t, sx, sy, x, y2))
  }

  /** While the angles increase over a span holding the whole target, an
      arrow aimed at the point (outer ring x, y) of that span hits exactly
      when y lies between the target's top and bottom edges. */
  lemma HitIffInWindow(tg: Target, sx: real, sy: real, y: real, lo: real, hi: real, t: Trig)
    requires tg.Valid()
    requires AnglesIncrease(t, sx, sy, tg.rings[0].x, lo, hi)
    requires lo <= tg.TopEdgeY() <= tg.BottomEdgeY() <= hi && lo <= y <= hi
    ensures tg.HitByArrow(sx, sy, LineAngle(t, sx, sy, tg.rings[0].x, y), t) <==>
      tg.TopEdgeY() <= y <= tg.BottomEdgeY()
  {
    var x, top, bottom := tg.rings[0].x, tg.TopEdgeY(), tg.BottomEdgeY();
    var a := t.normalize(LineAngle(t, sx, sy, x, y));
    var aTop := t.normalize(LineAngle(t, sx, sy, x, top));
    var aBottom := t.normalize(LineAngle(t, sx, sy, x, bottom));
    if y < top {
      assert a < aTop;
    } else if bottom < y {
      assert aBottom < a;
    } else {
      assert top < y ==> aTop < a;
      assert y < bottom ==> a < aBottom;
    }
  }

  /** After a placement the hit window is not empty: while the angles
      increase from the top edge to the bottom edge, an arrow aimed at the
      centre of the rings hits. */
  lemma HitAtRingCentre(tg: Target, posX: real, d: PlaceDraws, sx: real, sy: real, t: Trig)
    requires tg.Valid() && ValidDraws(d) && tg.PlacedAt(posX, d)
    requires AnglesIncrease(t, sx, sy, tg.rings[0].x, tg.TopEdgeY(), tg.BottomEdgeY())
    ensures tg.HitByArrow(sx, sy, LineAngle(t, sx, sy, tg.rings[0].x, tg.rings[0].y), t)
  {
    PlacedRadiiInTolerance(tg, posX, d);
    SuffixSumsDecrease(tg.ringRadii, 0, RingAmount);
    assert tg.ringRadii[0..] == tg.ringRadii && tg.ringRadii[RingAmount..] == [];
    HitIffInWindow(tg, sx, sy, tg.rings[0].y, tg.TopEdgeY(), tg.BottomEdgeY(), t);
  }

  /** When the normalised angle of the top edge exceeds that of the bottom
      edge (the lines straddle the wrap-around of the normalisation), no
      arrow angle hits. */
  lemma WrappedWindowMissesAll(tg: Target, sx: real, sy: real, arrowAngle: real, t: Trig)
    requires tg.Valid()
    requires t.normalize(LineAngle(t, sx, sy, tg.rings[0].x, tg.BottomEdgeY())) <
      t.normalize(LineAngle(t, sx, sy, tg.rings[0].x, tg.TopEdgeY()))
    ensures !tg.HitByArrow(sx, sy, arrowAngle, t)
  {
  }
}
