/** The arrow: it swings back and forth along the rainbow while the girl
    aims, and flies a given distance along its rotation when shot. */
module Arrows {
  import opened GameOptions
  import opened Geometry
  import opened Engine
  import opened Rainbows

  /** The two values `aim` updates: the arrow angle, in degrees, and the
      rotation direction multiplier. */
  datatype AimState = AimState(angle: real, mult: int)

  /** The rotation applied in one frame of dt milliseconds. */
  function AimIncrement(dt: real, mult: int): (inc: real)
    ensures mult == 1 ==> inc == RotationSpeed * dt / 1000.0
    ensures mult == -1 ==> inc == -(RotationSpeed * dt / 1000.0)
  {
    RotationSpeed * dt / 1000.0 * mult as real
  }

  /** One `aim` step against the bounds lo and hi (in degrees): advance,
      clamp to hi and flip on overshoot, then clamp to lo and flip on undershoot. */
  function AimStep(a: AimState, dt: real, lo: real, hi: real): (r: AimState)
    ensures r.mult == a.mult || r.mult == -a.mult
    ensures lo <= hi ==> lo <= r.angle <= hi
    ensures var moved := a.angle + AimIncrement(dt, a.mult);
      lo <= moved <= hi ==> r == AimState(moved, a.mult)
    ensures var moved := a.angle + AimIncrement(dt, a.mult);
      lo <= hi && moved > hi ==> r == AimState(hi, -a.mult)
    ensures var moved := a.angle + AimIncrement(dt, a.mult);
      lo <= hi && moved < lo ==> r == AimState(lo, -a.mult)
    ensures r.mult != a.mult ==> r.angle == lo || r.angle == hi
  {
    var moved := a.angle + AimIncrement(dt, a.mult);
    var capped := if moved > hi then AimState(hi, -a.mult) else AimState(moved, a.mult);
    if capped.angle < lo then AimState(lo, -capped.mult) else capped
  }

  /** The state after one `aim` step per frame duration in dts. */
  function AimRun(a: AimState, dts: seq<real>, lo: real, hi: real): AimState
    decreases |dts|
  {
    if |dts| == 0 then a else AimRun(AimStep(a, dts[0], lo, hi), dts[1..], lo, hi)
  }

  /** Any number of `aim` steps keeps the multiplier a unit and the angle in place. */
  lemma {:induction false} AimRunBounded(a: AimState, dts: seq<real>, lo: real, hi: real)
    requires a.mult == 1 || a.mult == -1
    requires lo <= hi
    requires |dts| > 0 || lo <= a.angle <= hi
    ensures var r := AimRun(a, dts, lo, hi);
      (r.mult == 1 || r.mult == -1) && lo <= r.angle <= hi
    decreases |dts|
  {
    if |dts| > 0 {
      var next := AimStep(a, dts[0], lo, hi);
      if |dts| > 1 {
        AimRunBounded(next, dts[1..], lo, hi);
      } else {
        assert dts[1..] == [];
      }
    }
  }

  /** With the multiplier at 1 and no bound reached, the angle grows
      monotonically over a run: the run is one increment of its total time. */
  lemma {:induction false} AimRunForward(a: AimState, dts: seq<real>, lo: real, hi: real)
    requires a.mult == 1 && lo <= a.angle
    requires forall k :: 0 <= k < |dts| ==> dts[k] >= 0.0
    requires a.angle + AimIncrement(Total(dts), 1) <= hi
    ensures AimRun(a, dts, lo, hi) == AimState(a.angle + AimIncrement(Total(dts), 1), 1)
    decreases |dts|
  {
    if |dts| > 0 {
      var next := AimStep(a, dts[0], lo, hi);
      TotalNonNegative(dts[1..]);
      assert Total(dts) == dts[0] + Total(dts[1..]);
      assert next == AimState(a.angle + AimIncrement(dts[0], 1), 1);
      AimRunForward(next, dts[1..], lo, hi);
    }
  }

  /** The time elapsed over a run of frames. */
  function Total(dts: seq<real>): real
  {
    if |dts| == 0 then 0.0 else dts[0] + Total(dts[1..])
  }

  lemma {:induction false} TotalNonNegative(dts: seq<real>)
    requires forall k :: 0 <= k < |dts| ==> dts[k] >= 0.0
    ensures Total(dts) >= 0.0
  {
    if |dts| > 0 {
      TotalNonNegative(dts[1..]);
    }
  }

  /** How far the arrow is sent: a finite number of pixels, or the quotient
      of a division by a zero cosine, which is not a finite number. */
  datatype Distance = Finite(value: real) | NonFinite

  /** The tween `shoot` starts: destination and duration in milliseconds, or
      a flight without finite destination when the distance is not finite. */
  datatype Flight = Flight(toX: real, toY: real, duration: real) | Unbounded

  /** The tween of `shoot(distance)` from (x, y) at rotation rot (radians). */
  function ShotFlight(x: real, y: real, rot: real, distance: Distance, t: Trig): (f: Flight)
    ensures distance.NonFinite? <==> f.Unbounded?
    ensures distance.Finite? ==>
      && f.toX - x == distance.value * t.cos(rot)
      && f.toY - y == distance.value * t.sin(rot)
      && f.duration * FlyingSpeed == distance.value * 1000.0
      && (distance.value > 0.0 ==> f.duration > 0.0)
  {
    match distance
    case NonFinite => Unbounded
    case Finite(d) =>
      Flight(x + d * t.cos(rot), y + d * t.sin(rot), d / FlyingSpeed * 1000.0)
  }

  /** The arrow group: the arrow sprite and the mask that hides its tip once
      it sticks in the target. */
  class Arrow {
    const arrow: Sprite
    const arrowMask: Sprite
    // the screen width, from the game configuration
    const screenWidth: real
    // rotation direction: 1 clockwise, -1 counter clockwise
    var mult: int

    ghost predicate Valid()
      reads this`mult
    {
      arrow != arrowMask && (mult == 1 || mult == -1)
    }

    /** The sprites in the order they were added to the group. */
    function Children(): seq<Sprite>
    {
      [arrow, arrowMask]
    }

    /** The arrow of the given texture size and its 512 x 512 mask, both hidden. */
    constructor (screenWidth: real, arrowWidth: real, arrowHeight: real)
      ensures Valid() && fresh(arrow) && fresh(arrowMask)
      ensures this.screenWidth == screenWidth
      ensures mult == 1
      ensures !arrow.visible && !arrowMask.visible
      ensures arrow.x == 0.0 && arrow.y == 0.0 && arrow.angle == 0.0
      ensures arrow.displayWidth == arrowWidth && arrow.displayHeight == arrowHeight
      ensures arrowMask.displayWidth == 512.0 && arrowMask.displayHeight == 512.0
    {
      this.screenWidth := screenWidth;
      arrow := new Sprite(0.0, 0.0, arrowWidth, arrowHeight);
      mult := 1;
      arrowMask := new Sprite(0.0, 0.0, 0.0, 0.0);
      new;
      arrow.visible := false;
      arrowMask.visible := false;
      arrowMask.displayWidth, arrowMask.displayHeight := 512.0, 512.0;
    }

    /** The rotation of the arrow, in radians. */
    function Rotation(): (rot: real)
      reads arrow
      ensures RadToDeg(rot) == arrow.angle
    {
      DegToRad(arrow.angle)
    }

    /** `prepareToAim`: the mask goes off screen to the right, and the arrow
        shows up at the start of the rainbow, pointing along its start angle. */
    method PrepareToAim(rb: Rainbow)
      requires Valid()
      modifies arrowMask`x, arrow`visible, arrow`x, arrow`y, arrow`angle
      ensures Valid() && mult == old(mult)
      ensures arrowMask.x == screenWidth
      ensures arrow.visible
      ensures arrow.x == rb.centerX + rb.radius - 30.0 && arrow.y == rb.centerY
      ensures arrow.angle == RadToDeg(rb.startAngle)
      ensures rb.length >= 0.0 ==>
        RadToDeg(rb.startAngle) <= arrow.angle <= RadToDeg(rb.startAngle + rb.length)
    {
      arrowMask.x := screenWidth;
      arrow.visible := true;
      arrow.x, arrow.y := rb.centerX + rb.radius - 30.0, rb.centerY;
      arrow.angle := RadToDeg(rb.startAngle);
      if rb.length >= 0.0 {
        RadToDegMonotone(rb.startAngle, rb.startAngle + rb.length);
      }
    }

    /** `aim`: one AimStep between the rainbow's end angles, then the arrow
        moves onto the circle of radius `radius - 30` at its new rotation. */
    method Aim(dt: real, rb: Rainbow, t: Trig)
      requires Valid()
      modifies arrow`angle, arrow`x, arrow`y, this`mult
      ensures Valid()
      ensures AimState(arrow.angle, mult) ==
        AimStep(old(AimState(arrow.angle, mult)), dt,
                RadToDeg(rb.startAngle), RadToDeg(rb.startAngle + rb.length))
      ensures arrow.x == rb.centerX + (rb.radius - 30.0) * t.cos(Rotation())
      ensures arrow.y == rb.centerY + (rb.radius - 30.0) * t.sin(Rotation())
    {
      ghost var before := AimState(arrow.angle, mult);
      var lo, hi := RadToDeg(rb.startAngle), RadToDeg(rb.startAngle + rb.length);
      arrow.angle := arrow.angle + AimIncrement(dt, mult);
      if arrow.angle > hi {
        arrow.angle := hi;
        mult := mult * -1;
      }
      if arrow.angle < lo {
        arrow.angle := lo;
        mult := mult * -1;
      }
      assert AimState(arrow.angle, mult) == AimStep(before, dt, lo, hi);
      var rot := Rotation();
      arrow.x := rb.centerX + (rb.radius - 30.0) * t.cos(rot);
      arrow.y := rb.centerY + (rb.radius - 30.0) * t.sin(rot);
    }
  }
}
