/** The game scene: the Idle / Aiming / Firing state machine driven by the
    pointer, the rainbow's "appeared" event and the arrow's "flown" event,
    the shot distance, and the scroll that brings each new target in. */
module Scenes {
  import opened GameOptions
  import opened Geometry
  import opened Engine
  import opened Targets
  import opened Rainbows
  import opened Arrows
  import opened Terrains

  datatype Option<T> = None | Some(value: T)

  datatype GameState = Idle | Aiming | Firing

  /** The inputs the scene reacts to: a pointer press, the two component
      events it listens to, and a frame. */
  datatype Event = PointerDown | RainbowAppeared | ArrowFlown | Frame

  /** The state change each handler makes: a press fires only while aiming,
      the rainbow's appearance starts the aim, and nothing else moves the state. */
  function Step(s: GameState, e: Event): (n: GameState)
    ensures n == Idle <==> s == Idle && e != RainbowAppeared
    ensures e == PointerDown ==> (n == Firing <==> s == Aiming || s == Firing)
    ensures e == PointerDown && s != Aiming ==> n == s
    ensures e == RainbowAppeared ==> n == Aiming
    ensures e == ArrowFlown || e == Frame ==> n == s
  {
    match e
    case PointerDown => if s == Aiming then Firing else s
    case RainbowAppeared => Aiming
    case ArrowFlown => s
    case Frame => s
  }

  /** The state after handling the events in order. */
  function Run(s: GameState, es: seq<Event>): GameState
    decreases |es|
  {
    if |es| == 0 then s else Run(Step(s, es[0]), es[1..])
  }

  /** Once the game has left Idle it never returns to it. */
  lemma {:induction false} NeverIdleAgain(s: GameState, es: seq<Event>)
    requires s != Idle
    ensures Run(s, es) != Idle
    decreases |es|
  {
    if |es| > 0 {
      NeverIdleAgain(Step(s, es[0]), es[1..]);
    }
  }

  /** The game stays Idle exactly as long as no rainbow has appeared. */
  lemma {:induction false} IdleUntilAppeared(es: seq<Event>)
    ensures Run(Idle, es) == Idle <==> RainbowAppeared !in es
    decreases |es|
  {
    if |es| > 0 {
      if es[0] == RainbowAppeared {
        NeverIdleAgain(Aiming, es[1..]);
      } else {
        IdleUntilAppeared(es[1..]);
        assert es == [es[0]] + es[1..];
      }
    }
  }

  /** The number of presses among es that fire an arrow. */
  function Shots(s: GameState, es: seq<Event>): nat
    decreases |es|
  {
    if |es| == 0 then 0
    else (if s == Aiming && es[0] == PointerDown then 1 else 0) + Shots(Step(s, es[0]), es[1..])
  }

  /** The number of times the rainbow appeared in es. */
  function Appearances(es: seq<Event>): nat
    decreases |es|
  {
    if |es| == 0 then 0 else (if es[0] == RainbowAppeared then 1 else 0) + Appearances(es[1..])
  }

  /** At most one arrow per rainbow: presses while firing are ignored. */
  lemma {:induction false} OneShotPerRainbow(s: GameState, es: seq<Event>)
    ensures Shots(s, es) <= Appearances(es) + (if s == Aiming then 1 else 0)
    decreases |es|
  {
    if |es| > 0 {
      OneShotPerRainbow(Step(s, es[0]), es[1..]);
    }
  }

  lemma ScaleMonotone(a: real, b: real, w: real)
    requires a <= b && w >= 0.0
    ensures a * w <= b * w
  {
    assert b * w - a * w == (b - a) * w;
  }

  /** `getRandomPosition` with draw f: the nearest integer to f * width, hence
      between the rounded ends of the position range. */
  function RandomPosition(f: real, width: real): (n: int)
    requires PositionFrom <= f <= PositionTo
    ensures f * width - 0.5 < n as real <= f * width + 0.5
    ensures width >= 0.0 ==> Round(PositionFrom * width) <= n <= Round(PositionTo * width)
  {
    assert width >= 0.0 ==> Round(PositionFrom * width) <= Round(f * width) <= Round(PositionTo * width) by {
      if width >= 0.0 {
        var lo, m, hi := PositionFrom * width, f * width, PositionTo * width;
        ScaleMonotone(PositionFrom, f, width);
        ScaleMonotone(f, PositionTo, width);
        assert lo <= m <= hi;
        RoundMonotone(lo, m);
        RoundMonotone(m, hi);
      }
    }
    Round(f * width)
  }

  /** The distance handed to `shoot`: twice the screen width on a miss; on a
      hit, the horizontal gap from the rainbow centre to the outer ring's
      centre, less the arrow length, divided by the cosine of the rotation. */
  function ShotDistance(hit: bool, ringX: real, centerX: real, arrowWidth: real, cosRot: real, width: real): (d: Distance)
    ensures !hit ==> d == Finite(2.0 * width)
    ensures hit && cosRot != 0.0 ==> d.Finite? && d.value * cosRot == ringX - centerX - arrowWidth
    ensures hit && cosRot == 0.0 ==> d == NonFinite
  {
    if !hit then Finite(2.0 * width)
    else if cosRot == 0.0 then NonFinite
    else Finite((ringX - centerX - arrowWidth) / cosRot)
  }

  /** What one update of the scroll tween moves everything by: the change in
      tween value since the previous update, times the distance to cover. */
  function ScrollStep(prev: real, v: real, deltaX: real): real
  {
    (v - prev) * deltaX
  }

  /** The amount the scroll callback adds to `totalTravelled` over updates
      with tween values vs, starting from the previous value prev. */
  function Travelled(prev: real, vs: seq<real>, deltaX: real): real
    decreases |vs|
  {
    if |vs| == 0 then 0.0 else ScrollStep(prev, vs[0], deltaX) + Travelled(vs[0], vs[1..], deltaX)
  }

  /** The per-update shifts telescope: together they move everything by the
      last tween value times deltaX, whatever the intermediate values. */
  lemma {:induction false} TravelledTelescopes(prev: real, vs: seq<real>, deltaX: real)
    requires |vs| > 0
    ensures Travelled(prev, vs, deltaX) == (vs[|vs| - 1] - prev) * deltaX
    decreases |vs|
  {
    if |vs| == 1 {
      assert Travelled(vs[0], vs[1..], deltaX) == 0.0;
    } else {
      TravelledTelescopes(vs[0], vs[1..], deltaX);
      assert vs[1..][|vs[1..]| - 1] == vs[|vs| - 1];
      assert (vs[0] - prev) * deltaX + (vs[|vs| - 1] - vs[0]) * deltaX == (vs[|vs| - 1] - prev) * deltaX;
    }
  }

  /** A whole scroll tween, from 0 to its final value 1, travels exactly deltaX. */
  lemma ScrollTravelsDeltaX(vs: seq<real>, deltaX: real)
    requires |vs| > 0 && vs[|vs| - 1] == 1.0
    ensures Travelled(0.0, vs, deltaX) == deltaX
  {
    TravelledTelescopes(0.0, vs, deltaX);
  }

  /** One update keeps `totalTravelled == previousValue * deltaX`. */
  lemma AdvanceTotal(total: real, prev: real, v: real, deltaX: real)
    requires total == prev * deltaX
    ensures total + ScrollStep(prev, v, deltaX) == v * deltaX
  {
    assert (v - prev) * deltaX == v * deltaX - prev * deltaX;
  }

  lemma DistinctAppend<T>(a: seq<T>, b: seq<T>)
    requires Distinct(a) && Distinct(b)
    requires forall x :: x in a ==> x !in b
    ensures Distinct(a + b)
  {
    forall i, j | 0 <= i < j < |a + b|
      ensures (a + b)[i] != (a + b)[j]
    {
      if j >= |a| && i < |a| {
        assert (a + b)[i] in a && (a + b)[j] in b;
      }
    }
  }

  lemma TargetChildrenDistinct(t: Target)
    requires t.Valid()
    ensures Distinct(t.Children())
  {
    DistinctAppend([t.shadow, t.poleShadow, t.pole, t.poleTop], t.rings);
  }

  /** The components `create` adds, in its order: the terrain, the target
      (placed twice the screen width away), the rainbow with its clouds and
      the arrow; no sprite is shared between them. */
  method NewComponents(width: real, height: real, arrowWidth: real, arrowHeight: real, d: PlaceDraws)
    returns (te: Terrain, ta: Target, rb: Rainbow, ar: Arrow)
    requires ValidDraws(d)
    ensures te.Valid() && ta.Valid() && ar.Valid()
    ensures ta.screenWidth == width && ar.screenWidth == width
    ensures ta.PlacedAt(2.0 * width, d)
    ensures {ar.arrow, ar.arrowMask, te.grass, te.dirt} !! ta.Parts()
    ensures {ar.arrow, ar.arrowMask} !! {te.grass, te.dirt}
    ensures Distinct(ar.Children() + ta.Children() + te.Children())
    ensures te.grass.x == 0.0 && te.dirt.x == 0.0
    ensures ar.mult == 1 && !ar.arrow.visible
    ensures fresh(te) && fresh(ta) && fresh(rb) && fresh(ar)
    ensures fresh(te.grass) && fresh(te.dirt) && fresh(ar.arrow) && fresh(ar.arrowMask)
    ensures fresh(rb.lowerCloud) && fresh(rb.upperCloud) && fresh(ta.Parts())
    ensures forall i :: 0 <= i < |ta.rings| ==> fresh(ta.rings[i])
    ensures var all := ar.Children() + ta.Children() + te.Children();
      forall i :: 0 <= i < |all| ==> fresh(all[i])
  {
    te := new Terrain(width, height);
    ta := new Target(width, height, d);
    rb := new Rainbow();
    ar := new Arrow(width, arrowWidth, arrowHeight);
    TargetChildrenDistinct(ta);
    DistinctAppend(ar.Children(), ta.Children());
    DistinctAppend(ar.Children() + ta.Children(), te.Children());
    forall i | 0 <= i < |ta.rings|
      ensures fresh(ta.rings[i])
    {
      assert ta.rings[i] in ta.RingSet();
    }
    var all := ar.Children() + ta.Children() + te.Children();
    forall i | 6 <= i < 6 + |ta.rings|
      ensures fresh(all[i])
    {
      assert all[i] == ta.rings[i - 6];
    }
  }

  class GameScene {
    // the screen size, from the game configuration
    const width: real
    const height: real
    // the girl's body, standing with its bottom centre on the terrain line:
    // its x, the y of its top and of its vertical centre
    const girlX: real
    const girlTop: real
    const girlCenterY: real
    const terrain: Terrain
    const target: Target
    const rainbow: Rainbow
    const arrow: Arrow
    // everything the scroll moves: the arrow's, the target's and the terrain's sprites
    const stuffToScroll: seq<Sprite>
    var gameState: GameState
    // the state of the current `tweenTarget` closure
    var deltaX: real
    var previousValue: real
    var totalTravelled: real
    // the tweens the last `tweenTarget` requested: its duration and the upper cloud's move
    var scrollDuration: real
    var cloudMove: CloudMove

    /** How the components are put together: each is well formed, they share
        the screen width, and the scroll list holds every sprite of the arrow,
        the target and the terrain exactly once. */
    ghost predicate Wired()
    {
      && terrain.Valid() && target.Valid()
      && arrow.arrow != arrow.arrowMask
      && target.screenWidth == width && arrow.screenWidth == width
      && stuffToScroll == arrow.Children() + target.Children() + terrain.Children()
      && Distinct(stuffToScroll)
      && {arrow.arrow, arrow.arrowMask, terrain.grass, terrain.dirt} !! target.Parts()
      && {arrow.arrow, arrow.arrowMask} !! {terrain.grass, terrain.dirt}
    }

    /** The scroll closure's invariant: what it has travelled is the tween
        progress so far times the distance to cover. */
    ghost predicate Accounted()
      reads this`totalTravelled, this`previousValue, this`deltaX
    {
      totalTravelled == previousValue * deltaX
    }

    ghost predicate Valid()
      reads this`totalTravelled, this`previousValue, this`deltaX, arrow`mult
    {
      && Wired() && arrow.Valid() && Accounted()
    }

    /** `create`: the scene starts Idle, builds its components and the girl
        (of texture height girlHeight), and tweens the first target in from
        twice the screen width. d are the target's placement draws, f the
        position draw, dx and dy the cloud draws. */
    constructor (width: real, height: real, girlHeight: real,
                 arrowWidth: real, arrowHeight: real, d: PlaceDraws, f: real, dx: int, dy: int)
      requires ValidDraws(d)
      requires PositionFrom <= f <= PositionTo
      requires 0 <= dx <= 100 && 50 <= dy <= 100
      ensures Valid()
      ensures gameState == Idle
      ensures girlX == width * GirlPosition
      ensures girlTop == height * TerrainStart + StuffOffset - girlHeight
      ensures girlCenterY == height * TerrainStart + StuffOffset - girlHeight / 2.0
      ensures target.PlacedAt(2.0 * width, d)
      ensures deltaX == 2.0 * width - RandomPosition(f, width) as real
      ensures previousValue == 0.0 && totalTravelled == 0.0
      ensures scrollDuration == 3.0 * deltaX
      ensures cloudMove == MoveCloudTarget(girlX - 50.0, girlTop, 3.0 * deltaX, dx, dy)
      ensures terrain.grass.x == 0.0 && terrain.dirt.x == 0.0
      ensures Covers(terrain.grass.x) && Covers(terrain.dirt.x)
      ensures arrow.mult == 1 && !arrow.arrow.visible
      ensures fresh(terrain) && fresh(target) && fresh(rainbow) && fresh(arrow)
      ensures fresh(terrain.grass) && fresh(terrain.dirt) && fresh(arrow.arrow) && fresh(arrow.arrowMask)
      ensures fresh(rainbow.lowerCloud) && fresh(rainbow.upperCloud) && fresh(target.Parts())
      ensures forall i :: 0 <= i < |target.rings| ==> fresh(target.rings[i])
      ensures forall i :: 0 <= i < |stuffToScroll| ==> fresh(stuffToScroll[i])
    {
      this.width, this.height := width, height;
      var girlBottom := height * TerrainStart + StuffOffset;
      girlX, girlTop, girlCenterY := width * GirlPosition, girlBottom - girlHeight, girlBottom - girlHeight / 2.0;
      gameState := Idle;
      var te, ta, rb, ar := NewComponents(width, height, arrowWidth, arrowHeight, d);
      terrain, target, rainbow, arrow := te, ta, rb, ar;
      stuffToScroll := ar.Children() + ta.Children() + te.Children();
      deltaX, previousValue, totalTravelled := 0.0, 0.0, 0.0;
      scrollDuration, cloudMove := 0.0, CloudMove(0.0, 0.0, 0.0);
      new;
      TweenTarget(RandomPosition(f, width) as real, dx, dy);
    }

    /** `handlePointer`: only while aiming, switch to Firing, work out the
        distance, move the mask onto the target on a hit, and shoot. */
    method HandlePointer(t: Trig) returns (flight: Option<Flight>)
      requires Valid()
      modifies this`gameState, arrow.arrowMask`x, arrow.arrowMask`y
      ensures Valid()
      ensures gameState == Step(old(gameState), PointerDown)
      ensures old(gameState) != Aiming ==> flight == None && unchanged(arrow.arrowMask)
      ensures old(gameState) == Aiming ==>
        var hit := old(target.HitByArrow(rainbow.centerX, rainbow.centerY, arrow.Rotation(), t));
        && flight == Some(ShotFlight(arrow.arrow.x, arrow.arrow.y, arrow.Rotation(),
             ShotDistance(hit, target.rings[0].x, rainbow.centerX, arrow.arrow.displayWidth,
                          t.cos(arrow.Rotation()), width), t))
        && (hit ==> arrow.arrowMask.x == target.rings[0].x && arrow.arrowMask.y == target.rings[0].y)
        && (!hit ==> unchanged(arrow.arrowMask))
    {
      flight := None;
      if gameState == Aiming {
        gameState := Firing;
        var rot := arrow.Rotation();
        var hit := target.HitByArrow(rainbow.centerX, rainbow.centerY, rot, t);
        var distance := ShotDistance(hit, target.rings[0].x, rainbow.centerX, arrow.arrow.displayWidth,
                                     t.cos(rot), width);
        assert arrow.arrowMask == stuffToScroll[1] && target.rings[0] == stuffToScroll[6];
        assert arrow.arrow == stuffToScroll[0];
        if hit {
          arrow.arrowMask.x := target.rings[0].x;
          arrow.arrowMask.y := target.rings[0].y;
        }
        flight := Some(ShotFlight(arrow.arrow.x, arrow.arrow.y, rot, distance, t));
      }
    }

    /** `rainbowAppeared`: start aiming from the rainbow's start. */
    method RainbowAppeared()
      requires Valid()
      modifies this`gameState, arrow.arrowMask`x
      modifies arrow.arrow`visible, arrow.arrow`x, arrow.arrow`y, arrow.arrow`angle
      ensures Valid()
      ensures gameState == Step(old(gameState), Event.RainbowAppeared)
      ensures arrow.arrowMask.x == width && arrow.arrow.visible
      ensures arrow.arrow.x == rainbow.centerX + rainbow.radius - 30.0 && arrow.arrow.y == rainbow.centerY
      ensures arrow.arrow.angle == RadToDeg(rainbow.startAngle)
      ensures arrow.mult == old(arrow.mult)
    {
      gameState := Aiming;
      arrow.PrepareToAim(rainbow);
    }

    /** `arrowFlown`: the rainbow starts to disappear and the next target is
        tweened in; the state is left as it is. f is the position draw, dx
        and dy the cloud draws. */
    method ArrowFlown(f: real, dx: int, dy: int)
      requires Valid()
      requires PositionFrom <= f <= PositionTo
      requires 0 <= dx <= 100 && 50 <= dy <= 100
      modifies this`deltaX, this`previousValue, this`totalTravelled, this`scrollDuration, this`cloudMove
      ensures Valid()
      ensures gameState == Step(old(gameState), Event.ArrowFlown)
      ensures deltaX == 2.0 * width - RandomPosition(f, width) as real
      ensures previousValue == 0.0 && totalTravelled == 0.0
      ensures scrollDuration == 3.0 * deltaX
      ensures cloudMove == MoveCloudTarget(girlX - 50.0, girlTop, 3.0 * deltaX, dx, dy)
    {
      TweenTarget(RandomPosition(f, width) as real, dx, dy);
    }

    /** `update`: the arrow aims only while the girl is aiming. */
    method Update(dt: real, t: Trig)
      requires Valid()
      modifies arrow.arrow`angle, arrow.arrow`x, arrow.arrow`y, arrow`mult
      ensures Valid()
      ensures gameState != Aiming ==> unchanged(arrow.arrow, arrow)
      ensures gameState == Aiming ==>
        AimState(arrow.arrow.angle, arrow.mult) ==
          AimStep(old(AimState(arrow.arrow.angle, arrow.mult)), dt,
                  RadToDeg(rainbow.startAngle), RadToDeg(rainbow.startAngle + rainbow.length))
      ensures gameState == Aiming ==>
        && arrow.arrow.x == rainbow.centerX + (rainbow.radius - 30.0) * t.cos(arrow.Rotation())
        && arrow.arrow.y == rainbow.centerY + (rainbow.radius - 30.0) * t.sin(arrow.Rotation())
    {
      if gameState == Aiming {
        arrow.Aim(dt, rainbow, t);
      }
    }

    /** `tweenTarget(posX)`: a fresh closure state, a scroll of 3 ms per
        pixel, and the upper cloud moving off near the girl's head. */
    method TweenTarget(posX: real, dx: int, dy: int)
      requires Valid()
      requires 0 <= dx <= 100 && 50 <= dy <= 100
      modifies this`deltaX, this`previousValue, this`totalTravelled, this`scrollDuration, this`cloudMove
      ensures Valid()
      ensures deltaX == 2.0 * width - posX
      ensures previousValue == 0.0 && totalTravelled == 0.0
      ensures scrollDuration == 3.0 * deltaX
      ensures cloudMove == MoveCloudTarget(girlX - 50.0, girlTop, 3.0 * deltaX, dx, dy)
    {
      deltaX := width * 2.0 - posX;
      previousValue := 0.0;
      totalTravelled := 0.0;
      cloudMove := MoveCloudTarget(girlX - 50.0, girlTop, deltaX * 3.0, dx, dy);
      scrollDuration := deltaX * 3.0;
    }

    /** One update of the scroll tween at value v: the closure's running
        totals advance, everything scrolls by the same amount, then the
        terrain wraps and the target re-seeds if it left the screen (d are
        the draws such a re-seed consumes). Every sprite keeps its rotation
        and visibility, the pole keeps its base, and the arrow and the
        terrain strips keep their height and size. */
    method ScrollUpdate(v: real, d: PlaceDraws) returns (shift: real)
      requires Valid() && ValidDraws(d)
      modifies this`previousValue, this`totalTravelled, target`ringRadii, stuffToScroll`x
      modifies target.pole`displayHeight, target.poleTop`y
      modifies target.shadow`y, target.shadow`displayWidth, target.shadow`displayHeight
      modifies target.rings`y, target.rings`tint, target.rings`displayWidth, target.rings`displayHeight
      ensures Valid() && previousValue == v
      ensures shift == ScrollStep(old(previousValue), v, deltaX)
      ensures arrow.arrow.x == old(arrow.arrow.x) - shift && arrow.arrowMask.x == old(arrow.arrowMask.x) - shift
      ensures terrain.grass.x == WrapTile(old(terrain.grass.x) - shift)
      ensures terrain.dirt.x == WrapTile(old(terrain.dirt.x) - shift)
      ensures old(target.ShadowRight()) - shift >= 0.0 ==>
        && target.ringRadii == old(target.ringRadii)
        && forall s :: s in target.Parts() ==>
             s.x == old(s.x) - shift && unchanged(s`y, s`displayWidth, s`displayHeight, s`tint)
      ensures old(target.ShadowRight()) - shift < 0.0 ==>
        target.PlacedAt(2.0 * width - totalTravelled, d)
      ensures forall s :: s in stuffToScroll ==> unchanged(s`angle, s`visible)
      ensures forall s :: s in stuffToScroll && s !in target.Parts() ==>
        unchanged(s`y, s`displayWidth, s`displayHeight, s`tint)
      ensures unchanged(target.pole`y, target.poleShadow`y, target.poleShadow`displayWidth, target.poleShadow`displayHeight)
    {
      shift := Advance(v);
      ScrollBy(shift, d);
    }

    /** The start of the scroll callback: the step since the previous value,
        the new previous value, and the running total. */
    method Advance(v: real) returns (shift: real)
      requires Accounted()
      modifies this`previousValue, this`totalTravelled
      ensures Accounted()
      ensures previousValue == v && totalTravelled == v * deltaX
      ensures shift == ScrollStep(old(previousValue), v, deltaX)
    {
      shift := ScrollStep(previousValue, v, deltaX);
      previousValue := v;
      totalTravelled := totalTravelled + shift;
      AdvanceTotal(old(totalTravelled), old(previousValue), v, deltaX);
    }

    /** The body of the scroll callback after the totals: shift everything
        left, then let the terrain and the target adjust. */
    method ScrollBy(shift: real, d: PlaceDraws)
      requires Valid() && ValidDraws(d)
      modifies target`ringRadii, stuffToScroll`x
      modifies target.pole`displayHeight, target.poleTop`y
      modifies target.shadow`y, target.shadow`displayWidth, target.shadow`displayHeight
      modifies target.rings`y, target.rings`tint, target.rings`displayWidth, target.rings`displayHeight
      ensures Valid() && unchanged(this)
      ensures arrow.arrow.x == old(arrow.arrow.x) - shift && arrow.arrowMask.x == old(arrow.arrowMask.x) - shift
      ensures terrain.grass.x == WrapTile(old(terrain.grass.x) - shift)
      ensures terrain.dirt.x == WrapTile(old(terrain.dirt.x) - shift)
      ensures old(target.ShadowRight()) - shift >= 0.0 ==>
        && target.ringRadii == old(target.ringRadii)
        && forall s :: s in target.Parts() ==>
             s.x == old(s.x) - shift && unchanged(s`y, s`displayWidth, s`displayHeight, s`tint)
      ensures old(target.ShadowRight()) - shift < 0.0 ==>
        target.PlacedAt(2.0 * width - totalTravelled, d)
    {
      StuffLayout();
      ShiftStuff(shift);
      AdjustStuff(d);
    }

    /** Where each component's sprites sit in the scrolled list. */
    lemma StuffLayout()
      requires Wired()
      ensures |stuffToScroll| == 13
      ensures stuffToScroll[0] == arrow.arrow && stuffToScroll[1] == arrow.arrowMask
      ensures stuffToScroll[2] == target.shadow && stuffToScroll[3] == target.poleShadow
      ensures stuffToScroll[4] == target.pole && stuffToScroll[5] == target.poleTop
      ensures forall k :: 0 <= k < RingAmount ==> target.rings[k] == stuffToScroll[6 + k]
      ensures stuffToScroll[11] == terrain.grass && stuffToScroll[12] == terrain.dirt
      ensures target.Parts() <= set s | s in stuffToScroll
    {
    }

    /** The `forEach` of the scroll callback: every scrolled sprite moves
        left by shift; nothing but their x is in the frame. */
    method ShiftStuff(shift: real)
      requires Valid()
      modifies stuffToScroll`x
      ensures Valid()
      ensures forall s :: s in stuffToScroll ==> s.x == old(s.x) - shift
      ensures arrow.arrow.x == old(arrow.arrow.x) - shift && arrow.arrowMask.x == old(arrow.arrowMask.x) - shift
      ensures terrain.grass.x == old(terrain.grass.x) - shift && terrain.dirt.x == old(terrain.dirt.x) - shift
      ensures forall s :: s in target.Parts() ==> s.x == old(s.x) - shift
      ensures target.ShadowRight() == old(target.ShadowRight()) - shift
    {
      StuffLayout();
      ShiftAll(stuffToScroll, shift);
    }

    /** The end of the scroll callback: the terrain wraps and the target
        re-seeds once its shadow has left the screen; otherwise the target
        stays as it is. */
    method AdjustStuff(d: PlaceDraws)
      requires Valid() && ValidDraws(d)
      modifies terrain.grass`x, terrain.dirt`x, target`ringRadii
      modifies target.poleShadow`x, target.pole`x, target.pole`displayHeight, target.poleTop`x, target.poleTop`y
      modifies target.shadow`x, target.shadow`y, target.shadow`displayWidth, target.shadow`displayHeight
      modifies target.rings`x, target.rings`y, target.rings`tint, target.rings`displayWidth, target.rings`displayHeight
      ensures Valid()
      ensures terrain.grass.x == WrapTile(old(terrain.grass.x))
      ensures terrain.dirt.x == WrapTile(old(terrain.dirt.x))
      ensures old(target.ShadowRight()) >= 0.0 ==>
        target.ringRadii == old(target.ringRadii) && forall s :: s in target.Parts() ==> unchanged(s)
      ensures old(target.ShadowRight()) < 0.0 ==> target.PlacedAt(2.0 * width - totalTravelled, d)
    {
      assert terrain.grass !in target.Parts() && terrain.dirt !in target.Parts();
      terrain.AdjustPosition();
      target.AdjustPosition(totalTravelled, d);
    }

    /** One update of the upper cloud's path tween at value v: the cloud
        moves to that point of the line from (x0, y0), where it was when the
        move began, to the requested target, which it reaches at v = 1. */
    method CloudPathUpdate(x0: real, y0: real, v: real)
      requires Valid()
      modifies rainbow.upperCloud`x, rainbow.upperCloud`posY
      ensures Valid()
      ensures (rainbow.upperCloud.x, rainbow.upperCloud.posY) == PathPoint(x0, y0, cloudMove, v)
      ensures v == 1.0 ==> rainbow.upperCloud.x == cloudMove.x && rainbow.upperCloud.posY == cloudMove.y
    {
      var p := PathPoint(x0, y0, cloudMove, v);
      rainbow.upperCloud.x := p.0;
      rainbow.upperCloud.posY := p.1;
    }

    /** Completion of the scroll tween: `drawRainbow` makes the rainbow appear
        between the girl and the upper cloud (f is the rainbow length draw). */
    method ScrollComplete(f: real, t: Trig)
      requires Valid()
      requires 0.0 <= f < Pi / 4.0
      modifies rainbow`centerX, rainbow`centerY, rainbow`radius, rainbow`startAngle, rainbow`length
      modifies rainbow.lowerCloud`visible
      ensures Valid()
      ensures rainbow.centerX == girlX && rainbow.centerY == girlCenterY
      ensures rainbow.radius == ArcRadius(LineLength(t, girlX, girlCenterY, rainbow.upperCloud.x, rainbow.upperCloud.posY))
      ensures rainbow.startAngle == LineAngle(t, girlX, girlCenterY, rainbow.upperCloud.x, rainbow.upperCloud.posY)
      ensures rainbow.length == ArcLength(f)
      ensures rainbow.lowerCloud.visible
    {
      rainbow.Appear(girlX, girlCenterY, rainbow.upperCloud.x, rainbow.upperCloud.posY, f, t);
    }
  }
}
