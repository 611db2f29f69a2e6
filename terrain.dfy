/** The ground: two seamless 256-pixel tile strips, grass above dirt, that
    scroll left and jump back by one tile when they drift too far. */
module Terrains {
  import opened GameOptions
  import opened Engine

  /** The tile size of both textures, in pixels. */
  const TileSize: real := 256.0

  /** The wrap rule of `adjustPosition` for one strip's x. */
  function WrapTile(x: real): (r: real)
    ensures r == x + TileSize <==> x < -TileSize
    ensures r == x <==> x >= -TileSize
    ensures x >= -2.0 * TileSize ==> r >= -TileSize
  {
    if x < -TileSize then x + TileSize else x
  }

  /** A strip whose x lies in [-256, 0] and which is 256 pixels wider than the
      screen covers the whole screen width. */
  ghost predicate Covers(x: real)
  {
    -TileSize <= x <= 0.0
  }

  /** The x of a strip after a sequence of scroll steps, each of which moves
      it left and then wraps it. */
  function Scrolled(x: real, deltas: seq<real>): real
    decreases |deltas|
  {
    if |deltas| == 0 then x else Scrolled(WrapTile(x - deltas[0]), deltas[1..])
  }

  /** Scrolling by steps of at most one tile keeps a covering strip covering. */
  lemma {:induction false} ScrollKeepsCover(x: real, deltas: seq<real>)
    requires Covers(x)
    requires forall k :: 0 <= k < |deltas| ==> 0.0 <= deltas[k] <= TileSize
    ensures Covers(Scrolled(x, deltas))
    decreases |deltas|
  {
    if |deltas| > 0 {
      assert Covers(WrapTile(x - deltas[0]));
      ScrollKeepsCover(WrapTile(x - deltas[0]), deltas[1..]);
    }
  }

  /** The terrain group. */
  class Terrain {
    const grass: Sprite
    const dirt: Sprite

    ghost predicate Valid()
    {
      grass != dirt
    }

    /** The sprites in the order they were added to the group. */
    function Children(): seq<Sprite>
    {
      [grass, dirt]
    }

    /** The grass strip starts at TerrainStart of the screen height and is a
        tile high, the dirt strip right below it reaches the screen bottom;
        both are a tile wider than the screen. */
    constructor (width: real, height: real)
      ensures Valid() && fresh(grass) && fresh(dirt)
      ensures grass.x == 0.0 && grass.y == height * TerrainStart
      ensures grass.displayWidth == width + TileSize && grass.displayHeight == TileSize
      ensures dirt.x == 0.0 && dirt.y == grass.y + TileSize
      ensures dirt.displayWidth == grass.displayWidth
      ensures dirt.y + dirt.displayHeight == height
    {
      var terrainStartY := height * TerrainStart;
      var g := new Sprite(0.0, terrainStartY, width + TileSize, TileSize);
      var dirtStartY := terrainStartY + TileSize;
      dirt := new Sprite(0.0, dirtStartY, g.displayWidth, height - dirtStartY);
      grass := g;
    }

    /** `adjustPosition`: each strip wraps on its own. */
    method AdjustPosition()
      requires Valid()
      modifies grass`x, dirt`x
      ensures grass.x == WrapTile(old(grass.x))
      ensures dirt.x == WrapTile(old(dirt.x))
    {
      if grass.x < -TileSize {
        grass.x := grass.x + TileSize;
      }
      if dirt.x < -TileSize {
        dirt.x := dirt.x + TileSize;
      }
    }
  }
}
