/** The rainbow: a fan of coloured arcs around a centre, between the girl and
    the upper cloud, whose start angle and random length bound the aim. */
module Rainbows {
  import opened GameOptions
  import opened Geometry
  import opened Engine

  /** One stroked arc as the graphics object records it. */
  datatype Arc = Arc(x: real, y: real, radius: real, startAngle: real, endAngle: real, color: int, lineWidth: real)

  /** A request to move a cloud along a straight path to (x, y) over `duration` milliseconds. */
  datatype CloudMove = CloudMove(x: real, y: real, duration: real)

  /** The inner radius of the rainbow: the anchor distance less half the
      stack of bands, 17.5 pixels with the shipped options. */
  function ArcRadius(anchorDistance: real): (r: real)
    ensures r == anchorDistance - 17.5
  {
    anchorDistance - BandOffset()
  }

  /** The arc length, three quarters of pi plus a draw f from [0, pi/4):
      always at least 135 degrees and less than 180. */
  function ArcLength(f: real): (l: real)
    requires 0.0 <= f < Pi / 4.0
    ensures 3.0 * Pi / 4.0 <= l < Pi
  {
    (Pi / 4.0) * 3.0 + f
  }

  /** The arcs `drawRainbow(angle)` strokes: one band per colour, band k at
      radius + k * width, all sharing centre and angular span, each band
      starting where the previous one's stroke ends. */
  function Bands(cx: real, cy: real, radius: real, startAngle: real, angle: real): (bands: seq<Arc>)
    ensures |bands| == |RainbowColors|
    ensures forall k :: 0 <= k < |bands| ==>
      && bands[k].radius == radius + k as real * RainbowWidth
      && bands[k].x == cx && bands[k].y == cy
      && bands[k].startAngle == startAngle && bands[k].endAngle == startAngle + angle
      && bands[k].color == RainbowColors[k] && bands[k].lineWidth == RainbowWidth
    ensures forall k :: 0 <= k < |bands| - 1 ==> bands[k + 1].radius == bands[k].radius + bands[k].lineWidth
  {
    seq(|RainbowColors|, k requires 0 <= k < |RainbowColors| => Band(cx, cy, radius, startAngle, angle, k))
  }

  /** The arc of band k. */
  function Band(cx: real, cy: real, radius: real, startAngle: real, angle: real, k: nat): Arc
    requires k < |RainbowColors|
  {
    Arc(cx, cy, radius + k as real * RainbowWidth, startAngle, startAngle + angle, RainbowColors[k], RainbowWidth)
  }

  /** The anchor the rainbow was drawn towards lies inside the band stack:
      the inner band is 17.5 pixels inside it and the outer one 12.5 outside. */
  lemma BandsStraddleAnchor(cx: real, cy: real, anchorDistance: real, startAngle: real, angle: real)
    ensures var bands := Bands(cx, cy, ArcRadius(anchorDistance), startAngle, angle);
      && bands[0].radius == anchorDistance - 17.5
      && bands[|bands| - 1].radius == anchorDistance + 12.5
  {
  }

  /** The span drawn while the rainbow appears, at tween value v: it grows
      from nothing to the whole length. */
  function DrawnWhileAppearing(length: real, v: real): (a: real)
    ensures 0.0 <= length && 0.0 <= v <= 1.0 ==> 0.0 <= a <= length
    ensures v == 0.0 ==> a == 0.0
    ensures v == 1.0 ==> a == length
  {
    FractionWithin(v, length);
    length * v
  }

  /** The span drawn while the rainbow disappears, at tween value v: it
      shrinks from the whole length to nothing, and is what the appearing
      span leaves of the length at the same v. */
  function DrawnWhileDisappearing(length: real, v: real): (a: real)
    ensures 0.0 <= length && 0.0 <= v <= 1.0 ==> 0.0 <= a <= length
    ensures v == 0.0 ==> a == length
    ensures v == 1.0 ==> a == 0.0
    ensures a + DrawnWhileAppearing(length, v) == length
  {
    length - DrawnWhileAppearing(length, v)
  }

  /** `moveCloud`: the upper cloud heads up to 100 pixels to the right of
      startX and between 50 and 100 pixels above startY. */
  function MoveCloudTarget(startX: real, startY: real, duration: real, dx: int, dy: int): (m: CloudMove)
    requires 0 <= dx <= 100 && 50 <= dy <= 100
    ensures startX <= m.x <= startX + 100.0
    ensures startY - 100.0 <= m.y <= startY - 50.0
    ensures m.duration == duration
  {
    CloudMove(startX + dx as real, startY - dy as real, duration)
  }

  /** The point at tween value v of the straight path a cloud follows from
      (x0, y0) to the target of move m: it starts at (x0, y0) and ends at the
      target. */
  function PathPoint(x0: real, y0: real, m: CloudMove, v: real): (p: (real, real))
    ensures v == 0.0 ==> p == (x0, y0)
    ensures v == 1.0 ==> p == (m.x, m.y)
  {
    ScaledEnds(v, m.x - x0);
    ScaledEnds(v, m.y - y0);
    (x0 + v * (m.x - x0), y0 + v * (m.y - y0))
  }

  lemma ScaledEnds(v: real, w: real)
    ensures v == 0.0 ==> v * w == 0.0
    ensures v == 1.0 ==> v * w == w
  {
  }

  lemma FractionWithin(v: real, w: real)
    ensures 0.0 <= v <= 1.0 && 0.0 <= w ==> 0.0 <= w * v <= w
    ensures 0.0 <= v <= 1.0 && w <= 0.0 ==> w <= w * v <= 0.0
  {
    if 0.0 <= v <= 1.0 {
      ScaledWithin(v, w);
    }
  }

  /** A fraction v in [0, 1] of w lies between 0 and w. */
  lemma ScaledWithin(v: real, w: real)
    requires 0.0 <= v <= 1.0
    ensures 0.0 <= w ==> 0.0 <= w * v <= w
    ensures w <= 0.0 ==> w <= w * v <= 0.0
  {
    ComplementScaled(v, w);
    if 0.0 <= w {
      ProductNonNegative(w, v);
      ProductNonNegative(w, 1.0 - v);
    } else {
      ProductNonPositive(v, w);
      ProductNonPositive(1.0 - v, w);
    }
  }

  lemma ComplementScaled(v: real, w: real)
    ensures w * (1.0 - v) == w - w * v
  {
  }

  lemma ProductNonNegative(x: real, y: real)
    requires 0.0 <= x && 0.0 <= y
    ensures 0.0 <= x * y
  {
  }

  lemma ProductNonPositive(x: real, y: real)
    requires 0.0 <= x && y <= 0.0
    ensures y * x <= 0.0
  {
  }

  /** The cloud sits at angle `a` on the circle of radius `radius + k * width / 2`
      around (cx, cy): where band k's loop pass leaves it. */
  ghost predicate CloudOnBand(c: Cloud, cx: real, cy: real, radius: real, a: real, k: int, t: Trig)
    reads c
  {
    var r := radius + (k as real * RainbowWidth) / 2.0;
    c.posY == cy + r * t.sin(a) && c.x == cx + r * t.cos(a)
  }

  /** Pass k of the drawing loop: moves the cloud to angle a on the circle of
      radius `radius + k * width / 2` (for the last pass that is band 3's radius). */
  method PutCloudOnBand(c: Cloud, cx: real, cy: real, radius: real, a: real, k: int, t: Trig)
    modifies c`posY, c`x
    ensures CloudOnBand(c, cx, cy, radius, a, k, t)
  {
    c.posY := cy + (radius + (k as real * RainbowWidth) / 2.0) * t.sin(a);
    c.x := cx + (radius + (k as real * RainbowWidth) / 2.0) * t.cos(a);
  }

  class Rainbow {
    var centerX: real
    var centerY: real
    var radius: real
    var startAngle: real
    // arc length, in radians
    var length: real
    // the arcs currently on the graphics object
    var graphics: seq<Arc>
    const lowerCloud: Cloud
    const upperCloud: Cloud

    /** An empty rainbow with its two clouds. */
    constructor ()
      ensures fresh(lowerCloud) && fresh(upperCloud) && lowerCloud != upperCloud
      ensures graphics == []
    {
      centerX, centerY, radius, startAngle, length := 0.0, 0.0, 0.0, 0.0, 0.0;
      graphics := [];
      lowerCloud := new Cloud();
      upperCloud := new Cloud();
    }

    /** `appear`: shows the lower cloud and fixes the arc's centre, radius,
        start angle and random length (f is the length draw). */
    method Appear(cx: real, cy: real, arcX: real, arcY: real, f: real, t: Trig)
      requires 0.0 <= f < Pi / 4.0
      modifies this`centerX, this`centerY, this`radius, this`startAngle, this`length, lowerCloud`visible
      ensures lowerCloud.visible
      ensures centerX == cx && centerY == cy
      ensures radius == ArcRadius(LineLength(t, cx, cy, arcX, arcY))
      ensures startAngle == LineAngle(t, cx, cy, arcX, arcY)
      ensures length == ArcLength(f)
    {
      lowerCloud.visible := true;
      centerX, centerY := cx, cy;
      radius := LineLength(t, cx, cy, arcX, arcY) - BandOffset();
      startAngle := LineAngle(t, cx, cy, arcX, arcY);
      length := (Pi / 4.0) * 3.0 + f;
    }

    /** `drawRainbow(angle)`: clears the graphics, strokes one band per colour
        and leaves the lower cloud at the end angle on the circle of radius
        `radius + 15`, which is band 3's radius, not the last band's. */
    method DrawRainbow(angle: real, t: Trig)
      modifies this`graphics, lowerCloud`posY, lowerCloud`x
      ensures graphics == Bands(centerX, centerY, radius, startAngle, angle)
      ensures CloudOnBand(lowerCloud, centerX, centerY, radius, startAngle + angle, |RainbowColors| - 1, t)
    {
      graphics := [];
      ghost var bands := Bands(centerX, centerY, radius, startAngle, angle);
      var index := 0;
      while index < |RainbowColors|
        invariant 0 <= index <= |RainbowColors|
        invariant graphics == bands[..index]
        invariant index > 0 ==>
          CloudOnBand(lowerCloud, centerX, centerY, radius, startAngle + angle, index - 1, t)
      {
        assert bands[..index + 1] == bands[..index] + [bands[index]];
        graphics := graphics + [Band(centerX, centerY, radius, startAngle, angle, index)];
        PutCloudOnBand(lowerCloud, centerX, centerY, radius, startAngle + angle, index, t);
        index := index + 1;
      }
      assert bands[..index] == bands;
    }

    /** One update of the appear tween, at tween value v. */
    method AppearUpdate(v: real, t: Trig)
      modifies this`graphics, lowerCloud`posY, lowerCloud`x
      ensures graphics == Bands(centerX, centerY, radius, startAngle, DrawnWhileAppearing(length, v))
      ensures CloudOnBand(lowerCloud, centerX, centerY, radius,
                          startAngle + DrawnWhileAppearing(length, v), |RainbowColors| - 1, t)
    {
      assert DrawnWhileAppearing(length, v) == length * v;
      DrawRainbow(length * v, t);
    }

    /** One update of the disappear tween, at tween value v. */
    method DisappearUpdate(v: real, t: Trig)
      modifies this`graphics, lowerCloud`posY, lowerCloud`x
      ensures graphics == Bands(centerX, centerY, radius, startAngle, DrawnWhileDisappearing(length, v))
      ensures CloudOnBand(lowerCloud, centerX, centerY, radius,
                          startAngle + DrawnWhileDisappearing(length, v), |RainbowColors| - 1, t)
    {
      assert DrawnWhileDisappearing(length, v) == length - length * v;
      DrawRainbow(length - length * v, t);
    }

    /** Completion of the disappear tween: the lower cloud is hidden. */
    method DisappearComplete()
      modifies lowerCloud`visible
      ensures !lowerCloud.visible
    {
      lowerCloud.visible := false;
    }
  }
}
