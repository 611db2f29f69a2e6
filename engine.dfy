/** The parts of the engine's display objects that the game logic reads and
    writes: a sprite's position, display size, rotation, visibility and tint,
    and a cloud's position. Drawing itself is not modelled. */
module Engine {

  class Sprite {
    var x: real
    var y: real
    var displayWidth: real
    var displayHeight: real
    // rotation in degrees
    var angle: real
    var visible: bool
    var tint: int

    /** A visible, untinted, unrotated sprite at (x0, y0) of the given display size. */
    constructor (x0: real, y0: real, w: real, h: real)
      ensures x == x0 && y == y0 && displayWidth == w && displayHeight == h
      ensures angle == 0.0 && visible && tint == 0xffffff
    {
      x, y := x0, y0;
      displayWidth, displayHeight := w, h;
      angle := 0.0;
      visible := true;
      tint := 0xffffff;
    }
  }

  /** A cloud sprite; `posY` is the height it floats around. */
  class Cloud {
    var x: real
    var posY: real
    var visible: bool

    constructor ()
      ensures x == 0.0 && posY == 0.0 && visible
    {
      x, posY := 0.0, 0.0;
      visible := true;
    }
  }

  /** No object occurs twice in s. */
  ghost predicate Distinct<T>(s: seq<T>)
  {
    forall i, j :: 0 <= i < j < |s| ==> s[i] != s[j]
  }

  /** The forEach loop that scrolls a list of sprites: every sprite moves left
      by `amount`; the frame leaves every other field of every sprite alone. */
  method ShiftAll(items: seq<Sprite>, amount: real)
    requires Distinct(items)
    modifies items`x
    ensures forall k :: 0 <= k < |items| ==> items[k].x == old(items[k].x) - amount
    ensures forall s :: s in items ==> s.x == old(s.x) - amount
  {
    var i := 0;
    while i < |items|
      invariant 0 <= i <= |items|
      invariant forall k :: 0 <= k < i ==> items[k].x == old(items[k].x) - amount
      invariant forall k :: i <= k < |items| ==> items[k].x == old(items[k].x)
    {
      items[i].x := items[i].x - amount;
      i := i + 1;
    }
  }
}
