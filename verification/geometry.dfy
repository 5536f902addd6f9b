/** Integer points and pygame-style rectangles: the world the simulation
    runs in, overlap tests (`colliderect`), re-centring (`rect.center = p`)
    and clamping into a container (`clamp_ip`). */
module Geometry {

  const ScreenWidth: int := 1280
  const ScreenHeight: int := 720
  const WorldWidth: int := 3000
  const WorldHeight: int := 3000

  /** An integer point or displacement in world coordinates. */
  datatype Vec = Vec(x: int, y: int) {
    function Plus(v: Vec): Vec { Vec(x + v.x, y + v.y) }
    function Minus(v: Vec): Vec { Vec(x - v.x, y - v.y) }
  }

  const Zero: Vec := Vec(0, 0)

  /** Squared Euclidean length; the simulation compares it with squared radii
      instead of taking a square root. */
  function Norm2(v: Vec): (d: int)
    ensures d >= 0
    ensures d == 0 <==> v == Zero
  {
    SquareZero(v.x);
    SquareZero(v.y);
    v.x * v.x + v.y * v.y
  }

  lemma SquareZero(a: int)
    ensures a * a >= 0
    ensures a * a == 0 <==> a == 0
  {
    if a != 0 {
      if a > 0 { MulPositive(a, a); } else { MulPositive(-a, -a); }
    }
  }

  lemma MulPositive(a: int, b: int)
    requires a > 0 && b > 0
    ensures a * b > 0
  {
  }

  /** A pygame `Rect`: top-left corner and a non-negative size. */
  datatype Rect = Rect(x: int, y: int, w: nat, h: nat) {
    function Right(): int { x + w }
    function Bottom(): int { y + h }
    /** pygame's `center`, which rounds half sizes down. */
    function Center(): Vec { Vec(x + w / 2, y + h / 2) }
    /** `rect.move(offset)`. */
    function Moved(offset: Vec): (r: Rect)
      ensures r.w == w && r.h == h
      ensures r.Center() == Center().Plus(offset)
    {
      Rect(x + offset.x, y + offset.y, w, h)
    }
  }

  const WorldRect: Rect := Rect(0, 0, WorldWidth, WorldHeight)

  /** `a.colliderect(b)`: the interiors intersect; a rectangle with a zero side
      collides with nothing. */
  predicate Overlaps(a: Rect, b: Rect) {
    a.w > 0 && a.h > 0 && b.w > 0 && b.h > 0 &&
    a.x < b.Right() && b.x < a.Right() && a.y < b.Bottom() && b.y < a.Bottom()
  }

  lemma OverlapsSymmetric(a: Rect, b: Rect)
    ensures Overlaps(a, b) <==> Overlaps(b, a)
  {
  }

  /** `pygame.sprite.spritecollide(sprite, group, False)` is non-empty. */
  predicate HitsAny(r: Rect, walls: seq<Rect>) {
    exists i :: 0 <= i < |walls| && Overlaps(r, walls[i])
  }

  predicate Inside(r: Rect, c: Rect) {
    c.x <= r.x && r.Right() <= c.Right() && c.y <= r.y && r.Bottom() <= c.Bottom()
  }

  /** `r.center = p`: the same size, moved so that its centre is `p`. */
  function CenteredAt(r: Rect, p: Vec): (q: Rect)
    ensures q.w == r.w && q.h == r.h
    ensures q.Center() == p
    ensures r.Center() == p ==> q == r
  {
    Rect(p.x - r.w / 2, p.y - r.h / 2, r.w, r.h)
  }

  /** The position along one axis that `clamp_ip` gives a span
      `[lo, lo + len)` inside the container span `[cLo, cLo + cLen)`. */
  function ClampAxis(lo: int, len: nat, cLo: int, cLen: nat): (r: int)
    ensures len <= cLen ==> cLo <= r && r + len <= cLo + cLen
    ensures cLo <= lo && lo + len <= cLo + cLen ==> r == lo
    ensures len < cLen && lo < cLo ==> r == cLo
    ensures len < cLen && cLo + cLen < lo + len ==> r + len == cLo + cLen
  {
    if len >= cLen then cLo + cLen / 2 - len / 2
    else if lo < cLo then cLo
    else if lo + len > cLo + cLen then cLo + cLen - len
    else lo
  }

  /** `r.clamp_ip(c)`: the smallest shift of `r` that puts it inside `c`
      (centred on `c` along an axis where `r` is at least as long). */
  function ClampInto(r: Rect, c: Rect): (q: Rect)
    ensures q.w == r.w && q.h == r.h
    ensures r.w <= c.w && r.h <= c.h ==> Inside(q, c)
    ensures Inside(r, c) ==> q == r
  {
    Rect(ClampAxis(r.x, r.w, c.x, c.w), ClampAxis(r.y, r.h, c.y, c.h), r.w, r.h)
  }

  /** Re-centring keeps a rectangle's size, so a rectangle that was centred on
      `p` is the one obtained by centring any same-size rectangle on `p`. */
  lemma CenteredAtSameSize(r: Rect, s: Rect, p: Vec)
    requires r.w == s.w && r.h == s.h && s.Center() == p
    ensures CenteredAt(r, p) == s
  {
  }
}
