/** The shared kinematic step of the player and the mobs
    (`AnimatedSprite.update`, followed by the wall rollback both subclasses
    perform): advance the animation, move by the frame's displacement, clamp
    into the world and undo the move when it ends inside a wall. */
module Kinematics {
  import opened Geometry

  /** Seconds per animation frame. */
  const AnimationSpeed: real := 0.1
  /** `PLAYER_SPEED`, the speed `AnimatedSprite.__init__` gives every sprite. */
  const PlayerSpeed: real := 300.0

  /** The fields `AnimatedSprite` keeps: `pos`, `rect`, `direction`, `speed`,
      `animation_time`, `current_frame` and the length of `frames`.
      Positions are integers: after every step `pos` is set from the integer
      `rect.center`, so the float part of the source's `Vector2` never
      survives a step. */
  datatype Sprite = Sprite(pos: Vec, rect: Rect, direction: Vec, speed: real,
                           animTime: real, frame: nat, frameCount: nat)

  /** `pos` is the centre of `rect`. */
  predicate Anchored(s: Sprite) {
    s.rect.Center() == s.pos
  }

  /** Anchored and entirely inside the world. */
  predicate InWorld(s: Sprite) {
    Anchored(s) && Inside(s.rect, WorldRect)
  }

  /** The sprite does not move this frame whatever the float arithmetic
      does: a zero direction, a zero speed or a zero time step scale the
      displacement to zero. */
  predicate Still(s: Sprite, dt: real) {
    s.direction == Zero || s.speed == 0.0 || dt == 0.0
  }

  /** The animation clock: once `animation_time` reaches 0.1 s it restarts
      at 0 and the frame index advances cyclically. */
  function Animate(s: Sprite, dt: real): (r: Sprite)
    requires s.frameCount > 0
    ensures r == s.(animTime := r.animTime, frame := r.frame)
    ensures s.animTime + dt >= AnimationSpeed ==> r.animTime == 0.0 && r.frame == (s.frame + 1) % s.frameCount
    ensures s.animTime + dt < AnimationSpeed ==> r.animTime == s.animTime + dt && r.frame == s.frame
    ensures s.frame < s.frameCount ==> r.frame < s.frameCount
  {
    var t := s.animTime + dt;
    if t >= AnimationSpeed then s.(animTime := 0.0, frame := (s.frame + 1) % s.frameCount)
    else s.(animTime := t)
  }

  /** `AnimatedSprite.update(dt)`. The displacement
      `direction.normalize() * speed * dt`, truncated by the assignment to
      `rect.center`, is the input `disp`; it is ignored when the sprite is
      still. The result is anchored and, for a sprite no larger than the
      world, inside it; its direction and speed are unchanged and its
      animation advances as `Animate` says. The position
      before the move, which the source returns, is `s.pos`. */
  function Integrate(s: Sprite, dt: real, disp: Vec): (r: Sprite)
    requires s.frameCount > 0
    ensures Anchored(r)
    ensures r.rect.w == s.rect.w && r.rect.h == s.rect.h
    ensures s.rect.w <= WorldWidth && s.rect.h <= WorldHeight ==> InWorld(r)
    ensures r.direction == s.direction && r.speed == s.speed && r.frameCount == s.frameCount
    // The animation clock runs whether or not the sprite moves.
    ensures r.animTime == Animate(s, dt).animTime && r.frame == Animate(s, dt).frame
  {
    var a := Animate(s, dt);
    var target := if Still(s, dt) then s.pos else s.pos.Plus(disp);
    var moved := ClampInto(CenteredAt(s.rect, target), WorldRect);
    a.(rect := moved, pos := moved.Center())
  }

  /** A still sprite inside the world stays where it is. */
  lemma StillStaysPut(s: Sprite, dt: real, disp: Vec)
    requires s.frameCount > 0 && Still(s, dt) && InWorld(s)
    ensures Integrate(s, dt, disp).pos == s.pos
    ensures Integrate(s, dt, disp).rect == s.rect
  {
  }

  /** A moving sprite whose displaced rectangle is inside the world arrives
      exactly at `pos + disp`: the clamp does not interfere. */
  lemma FreeMoveArrives(s: Sprite, dt: real, disp: Vec)
    requires s.frameCount > 0 && !Still(s, dt)
    requires Inside(CenteredAt(s.rect, s.pos.Plus(disp)), WorldRect)
    ensures Integrate(s, dt, disp).pos == s.pos.Plus(disp)
  {
  }

  /** `self.pos = old_pos; self.rect.center = self.pos`. */
  function RollBack(s: Sprite, before: Vec): (r: Sprite)
    ensures Anchored(r) && r.pos == before
    ensures r == s.(pos := before, rect := r.rect)
    ensures r.rect.w == s.rect.w && r.rect.h == s.rect.h
  {
    s.(pos := before, rect := CenteredAt(s.rect, before))
  }

  /** One frame of movement with wall handling, as the player and each
      unstunned mob do it. */
  function Step(s: Sprite, dt: real, disp: Vec, walls: seq<Rect>): (r: Sprite)
    requires s.frameCount > 0
    ensures r.rect.w == s.rect.w && r.rect.h == s.rect.h && r.frameCount == s.frameCount
  {
    if HitsAny(Integrate(s, dt, disp).rect, walls) then RollBack(Integrate(s, dt, disp), s.pos)
    else Integrate(s, dt, disp)
  }

  /** A move that ends overlapping a wall is undone: zero net displacement,
      the same rectangle as before the frame. */
  lemma BlockedStepStaysPut(s: Sprite, dt: real, disp: Vec, walls: seq<Rect>)
    requires s.frameCount > 0 && Anchored(s)
    requires HitsAny(Integrate(s, dt, disp).rect, walls)
    ensures Step(s, dt, disp, walls).pos == s.pos
    ensures Step(s, dt, disp, walls).rect == s.rect
  {
    var moved := Integrate(s, dt, disp);
    CenteredAtSameSize(moved.rect, s.rect, s.pos);
  }

  /** A move that touches no wall keeps the clamped result of `Integrate`. */
  lemma FreeStepMoves(s: Sprite, dt: real, disp: Vec, walls: seq<Rect>)
    requires s.frameCount > 0
    requires !HitsAny(Integrate(s, dt, disp).rect, walls)
    ensures Step(s, dt, disp, walls) == Integrate(s, dt, disp)
  {
  }

  /** A sprite that starts the frame anchored inside the world ends it
      anchored inside the world, whether or not the move is undone. */
  lemma StepStaysInWorld(s: Sprite, dt: real, disp: Vec, walls: seq<Rect>)
    requires s.frameCount > 0 && InWorld(s)
    ensures InWorld(Step(s, dt, disp, walls))
    ensures Step(s, dt, disp, walls).frameCount == s.frameCount
  {
    var m := Integrate(s, dt, disp);
    if HitsAny(m.rect, walls) {
      BlockedStepStaysPut(s, dt, disp, walls);
    } else {
      FreeStepMoves(s, dt, disp, walls);
    }
  }

  /** `Integrate` reads `rect` only for its size: a rectangle moved away
      from `pos` (as the mob respawn does) is overwritten by the next step. */
  lemma IntegrateIgnoresRectPlacement(s: Sprite, dt: real, disp: Vec, x: int, y: int)
    requires s.frameCount > 0
    ensures Integrate(s.(rect := s.rect.(x := x, y := y)), dt, disp) == Integrate(s, dt, disp)
  {
  }
}
