/** The camera: a world-to-screen offset that centres the viewport on the
    player and is clamped so that nothing outside the world is shown. */
module Viewport {
  import opened Geometry

  /** The offset that `Camera.update` computes for a target centred at `c`
      in a world of the given size. */
  function Offset(c: Vec, width: int, height: int): (o: Vec)
    // With a world at least as large as the screen, the screen never shows
    // anything beyond the world's edges.
    ensures width >= ScreenWidth ==> -(width - ScreenWidth) <= o.x <= 0
    ensures height >= ScreenHeight ==> -(height - ScreenHeight) <= o.y <= 0
    // When centring needs no clamping, the target is at the screen centre.
    ensures -(width - ScreenWidth) <= ScreenWidth / 2 - c.x <= 0 ==> o.x == ScreenWidth / 2 - c.x
    ensures -(height - ScreenHeight) <= ScreenHeight / 2 - c.y <= 0 ==> o.y == ScreenHeight / 2 - c.y
    // Near the left or top edge the offset is pinned at 0; near the right or
    // bottom edge at the last screen-sized slice of the world.
    ensures width >= ScreenWidth && ScreenWidth / 2 - c.x > 0 ==> o.x == 0
    ensures width >= ScreenWidth && ScreenWidth / 2 - c.x < -(width - ScreenWidth) ==> o.x == -(width - ScreenWidth)
    ensures height >= ScreenHeight && ScreenHeight / 2 - c.y > 0 ==> o.y == 0
    ensures height >= ScreenHeight && ScreenHeight / 2 - c.y < -(height - ScreenHeight) ==> o.y == -(height - ScreenHeight)
  {
    var x := -c.x + ScreenWidth / 2;
    var y := -c.y + ScreenHeight / 2;
    var x := if 0 <= x then 0 else x;
    var y := if 0 <= y then 0 else y;
    var x := if -(width - ScreenWidth) >= x then -(width - ScreenWidth) else x;
    var y := if -(height - ScreenHeight) >= y then -(height - ScreenHeight) else y;
    Vec(x, y)
  }

  /** A target at the world's top-left corner gives offset (0, 0); one at
      the bottom-right corner shows exactly the last screen-sized slice. */
  lemma CornersShowWorldEdges(width: int, height: int)
    requires width >= ScreenWidth && height >= ScreenHeight
    ensures Offset(Zero, width, height) == Zero
    ensures Offset(Vec(width, height), width, height) == Vec(-(width - ScreenWidth), -(height - ScreenHeight))
  {
  }

  /** In the 3000 x 3000 world, a player at the world centre gives
      (-860, -1140): centring is not clamped on either axis. */
  lemma WorldCentreOffset()
    ensures Offset(Vec(1500, 1500), WorldWidth, WorldHeight) == Vec(-860, -1140)
  {
  }

  /** Whenever centring is not clamped, `apply` draws the target rectangle
      centred on the screen. */
  lemma TargetDrawnAtScreenCentre(target: Rect, width: int, height: int)
    requires -(width - ScreenWidth) <= ScreenWidth / 2 - target.Center().x <= 0
    requires -(height - ScreenHeight) <= ScreenHeight / 2 - target.Center().y <= 0
    ensures target.Moved(Offset(target.Center(), width, height)).Center() == Vec(ScreenWidth / 2, ScreenHeight / 2)
  {
  }

  class Camera {
    /** `camera.topleft`, the offset applied to every drawn rectangle. */
    var x: int
    var y: int
    const width: int
    const height: int

    constructor (width: int, height: int)
      ensures this.width == width && this.height == height
      ensures x == 0 && y == 0
    {
      this.width := width;
      this.height := height;
      x, y := 0, 0;
    }

    /** `update(target)`: snap to the clamped centring offset. */
    method Update(target: Rect)
      modifies this
      ensures Vec(x, y) == Offset(target.Center(), width, height)
    {
      var nx := -target.Center().x + ScreenWidth / 2;
      var ny := -target.Center().y + ScreenHeight / 2;
      nx := if 0 < nx then 0 else nx;
      ny := if 0 < ny then 0 else ny;
      nx := if -(width - ScreenWidth) > nx then -(width - ScreenWidth) else nx;
      ny := if -(height - ScreenHeight) > ny then -(height - ScreenHeight) else ny;
      x, y := nx, ny;
    }

    /** `apply_rect(rect)`: a world rectangle in screen coordinates. */
    function Apply(r: Rect): (s: Rect)
      reads this
      ensures s.w == r.w && s.h == r.h
      ensures s.Center() == r.Center().Plus(Vec(x, y))
    {
      r.Moved(Vec(x, y))
    }
  }
}
