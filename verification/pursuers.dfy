/** The mobs (`Mob`): a chase state machine with hysteresis, a stun status
    with a countdown, speeds rescaled by the suspicion modifier, and the
    off-world recycling branch. */
module Pursuers {
  import opened Geometry
  import opened Kinematics

  /** `chase_distance` (200) squared: an idle mob closer than this starts to chase. */
  const ChaseDistance2: int := 40000
  /** `chase_distance * 1.5` (300) squared: a chasing mob farther than this gives up. */
  const ReleaseDistance2: int := 90000
  const BaseSpeed: real := 100.0
  const BaseChaseSpeed: real := 150.0
  const MobWidth: nat := 42
  const MobHeight: nat := 48
  const MobFrames: nat := 12
  /** How far past the world's bottom, left or right edge a mob may go
      before it is recycled. */
  const Tolerance: int := 15

  /** The state of one mob: its sprite part and its own fields. */
  datatype MobState = MobState(sprite: Sprite, chasing: bool, stunned: bool,
                               stunTimer: real, chaseSpeed: real)

  /** What `main` counts as a chasing mob for suspicion and music. */
  predicate ActivelyChasing(m: MobState) {
    m.chasing && !m.stunned
  }

  /** A place `randrange` can pick for a recycled mob's top-left corner:
      x in [0, 3000 - 42), y in [-100, -50). */
  predicate SpawnSpot(v: Vec) {
    0 <= v.x < WorldWidth - MobWidth && -100 <= v.y < -50
  }

  /** The vector from the mob's rectangle centre to the player's. */
  function ToTarget(m: MobState, target: Vec): Vec {
    target.Minus(m.sprite.rect.Center())
  }

  /** `get_stunned(duration)`: stunned for exactly `duration` from now (a
      second stun replaces the remaining time rather than adding to it),
      speed zero, the chase flag kept. */
  function StunnedFor(m: MobState, duration: real): (r: MobState)
    ensures r.stunned && r.stunTimer == duration && r.sprite.speed == 0.0
    ensures r.chasing == m.chasing && r.chaseSpeed == m.chaseSpeed
    ensures r.sprite == m.sprite.(speed := 0.0)
  {
    m.(stunned := true, stunTimer := duration, sprite := m.sprite.(speed := 0.0))
  }

  /** `update_speed(modifier)`: both baselines are scaled afresh; the mob
      moves at the scaled chase speed when it chases and is not stunned, and
      at the scaled base speed otherwise, stunned mobs included. */
  function Rescaled(m: MobState, modifier: real): (r: MobState)
    ensures r.chaseSpeed == BaseChaseSpeed * modifier
    ensures r.sprite.speed == if ActivelyChasing(m) then BaseChaseSpeed * modifier else BaseSpeed * modifier
    ensures r == m.(chaseSpeed := r.chaseSpeed, sprite := m.sprite.(speed := r.sprite.speed))
  {
    var m1 := m.(chaseSpeed := BaseChaseSpeed * modifier, sprite := m.sprite.(speed := BaseSpeed * modifier));
    if m.chasing && !m.stunned then m1.(sprite := m1.sprite.(speed := m1.chaseSpeed))
    else if !m.stunned then m1.(sprite := m1.sprite.(speed := BaseSpeed * modifier))
    else m1
  }

  /** The stun countdown at the start of `update`: once it reaches zero the
      mob is released at the unscaled base speed; its chase flag is kept. */
  function Recover(m: MobState, dt: real): (r: MobState)
    ensures !m.stunned ==> r == m
    ensures m.stunned && m.stunTimer - dt > 0.0 ==> r == m.(stunTimer := m.stunTimer - dt)
    ensures m.stunned && m.stunTimer - dt <= 0.0 ==>
      r == m.(stunned := false, stunTimer := m.stunTimer - dt, sprite := m.sprite.(speed := BaseSpeed))
  {
    if m.stunned then
      var m1 := m.(stunTimer := m.stunTimer - dt);
      if m1.stunTimer <= 0.0 then m1.(stunned := false, sprite := m1.sprite.(speed := BaseSpeed)) else m1
    else m
  }

  /** The chase decision of an unstunned mob. An idle mob starts chasing
      (at its current chase speed) when the player is closer than 200,
      without turning yet; a chasing mob turns towards the player whenever
      the two centres differ and gives up (at the base speed) beyond 300. */
  function Pursue(m: MobState, target: Vec): (r: MobState)
    ensures r.stunned == m.stunned && r.stunTimer == m.stunTimer && r.chaseSpeed == m.chaseSpeed
    ensures r.sprite == m.sprite.(direction := r.sprite.direction, speed := r.sprite.speed)
    ensures !m.chasing ==> r.chasing == (Norm2(ToTarget(m, target)) < ChaseDistance2)
    ensures m.chasing ==> r.chasing == (Norm2(ToTarget(m, target)) <= ReleaseDistance2)
    ensures !m.chasing ==> r.sprite.direction == m.sprite.direction
    ensures m.chasing && ToTarget(m, target) != Zero ==> r.sprite.direction == ToTarget(m, target)
    ensures m.chasing && ToTarget(m, target) == Zero ==> r.sprite.direction == m.sprite.direction
    ensures r.chasing != m.chasing ==> r.sprite.speed == (if r.chasing then m.chaseSpeed else BaseSpeed)
    ensures r.chasing == m.chasing ==> r.sprite.speed == m.sprite.speed
  {
    if !m.chasing then
      if Norm2(ToTarget(m, target)) < ChaseDistance2 then
        m.(chasing := true, sprite := m.sprite.(speed := m.chaseSpeed))
      else m
    else
      Release(Turn(m, target), Norm2(ToTarget(m, target)))
  }

  /** A chasing mob turns towards the player unless the two centres
      coincide (`direction.length() > 0` holds exactly for a non-zero
      vector, as `Norm2` shows). */
  function Turn(m: MobState, target: Vec): (r: MobState)
    ensures ToTarget(m, target) != Zero ==> r == m.(sprite := m.sprite.(direction := ToTarget(m, target)))
    ensures ToTarget(m, target) == Zero ==> r == m
  {
    if ToTarget(m, target) != Zero then m.(sprite := m.sprite.(direction := ToTarget(m, target))) else m
  }

  /** A chasing mob farther than 300 from the player gives up. */
  function Release(m: MobState, dist2: int): (r: MobState)
    ensures dist2 > ReleaseDistance2 ==> !r.chasing && r.sprite.speed == BaseSpeed
    ensures dist2 <= ReleaseDistance2 ==> r == m
    ensures r == m.(chasing := r.chasing, sprite := m.sprite.(speed := r.sprite.speed))
  {
    if dist2 > ReleaseDistance2 then m.(chasing := false, sprite := m.sprite.(speed := BaseSpeed)) else m
  }

  /** The recycling guard: the rectangle's top is more than 15 below the
      world, or it sticks out more than 15 on the left or the right. */
  predicate OutOfWorld(r: Rect) {
    r.y > WorldHeight + Tolerance || r.x < -Tolerance || r.Right() > WorldWidth + Tolerance
  }

  /** `Mob.update(dt, player, walls)` on a mob state. `target` is the
      player's rectangle centre, `disp` the frame's displacement and `spot`
      the random place a recycled mob reappears at. Recycling moves `rect`
      only; `pos` keeps its old value. */
  function MobStep(m: MobState, dt: real, target: Vec, walls: seq<Rect>, disp: Vec, spot: Vec): (r: MobState)
    requires m.sprite.frameCount > 0 && SpawnSpot(spot)
    ensures r.sprite.frameCount == m.sprite.frameCount
    ensures r.sprite.rect.w == m.sprite.rect.w && r.sprite.rect.h == m.sprite.rect.h
    ensures r.chaseSpeed == m.chaseSpeed
  {
    if Recover(m, dt).stunned then Recover(m, dt)
    else Recycled(Moved(Pursue(Recover(m, dt), target), dt, disp, walls), spot)
  }

  /** The move of an unstunned mob, with the wall rollback. */
  function Moved(m: MobState, dt: real, disp: Vec, walls: seq<Rect>): (r: MobState)
    requires m.sprite.frameCount > 0
    ensures r == m.(sprite := r.sprite)
  {
    m.(sprite := Step(m.sprite, dt, disp, walls))
  }

  /** The recycling branch: a mob past the tolerance reappears at `spot`
      above the world, idle, at base speed; `pos` is left as it was. */
  function Recycled(m: MobState, spot: Vec): (r: MobState)
    ensures !OutOfWorld(m.sprite.rect) ==> r == m
    ensures OutOfWorld(m.sprite.rect) ==> !r.chasing && r.sprite.pos == m.sprite.pos
    ensures OutOfWorld(m.sprite.rect) ==> r.sprite.speed == BaseSpeed
    ensures OutOfWorld(m.sprite.rect) ==>
      r.sprite.rect == Rect(spot.x, spot.y, m.sprite.rect.w, m.sprite.rect.h)
    ensures OutOfWorld(m.sprite.rect) ==>
      r.stunned == m.stunned && r.stunTimer == m.stunTimer && r.chaseSpeed == m.chaseSpeed &&
      r.sprite == m.sprite.(rect := r.sprite.rect, speed := r.sprite.speed)
    ensures OutOfWorld(m.sprite.rect) && SpawnSpot(spot) ==> r.sprite.rect.y < 0
  {
    if OutOfWorld(m.sprite.rect) then
      m.(chasing := false,
         sprite := m.sprite.(rect := m.sprite.rect.(x := spot.x, y := spot.y), speed := BaseSpeed))
    else m
  }

  /** A mob that is still stunned after this frame's countdown neither moves
      nor changes its chase flag, direction or speed; only the timer runs. */
  lemma StunnedMobHolds(m: MobState, dt: real, target: Vec, walls: seq<Rect>, disp: Vec, spot: Vec)
    requires m.sprite.frameCount > 0 && SpawnSpot(spot)
    requires m.stunned && m.stunTimer - dt > 0.0
    ensures MobStep(m, dt, target, walls, disp, spot) == m.(stunTimer := m.stunTimer - dt)
  {
  }

  /** A stun runs out once its timer reaches zero; the mob is free again and
      keeps whatever chase flag it had when it was stunned. */
  lemma StunExpires(m: MobState, dt: real, target: Vec, walls: seq<Rect>, disp: Vec, spot: Vec)
    requires m.sprite.frameCount > 0 && SpawnSpot(spot)
    requires m.stunned && m.stunTimer - dt <= 0.0
    ensures !MobStep(m, dt, target, walls, disp, spot).stunned
    ensures !OutOfWorld(Step(Pursue(Recover(m, dt), target).sprite, dt, disp, walls).rect) ==>
      MobStep(m, dt, target, walls, disp, spot).chasing == Pursue(m.(stunned := false), target).chasing
  {
  }

  /** Stunning twice is stunning once with the second duration. */
  lemma RestunRefreshes(m: MobState, first: real, second: real)
    ensures StunnedFor(StunnedFor(m, first), second) == StunnedFor(m, second)
  {
  }

  /** A mob that starts a frame anchored inside the world, unstunned, stays
      anchored inside the world and is never recycled. */
  lemma MobStaysInWorld(m: MobState, dt: real, target: Vec, walls: seq<Rect>, disp: Vec, spot: Vec)
    requires m.sprite.frameCount > 0 && SpawnSpot(spot) && InWorld(m.sprite)
    ensures InWorld(MobStep(m, dt, target, walls, disp, spot).sprite)
    ensures !OutOfWorld(MobStep(m, dt, target, walls, disp, spot).sprite.rect)
    ensures !Recover(m, dt).stunned ==>
      MobStep(m, dt, target, walls, disp, spot).chasing == Pursue(Recover(m, dt), target).chasing
  {
    var m1 := Recover(m, dt);
    if !m1.stunned {
      var m2 := Pursue(m1, target);
      assert InWorld(m2.sprite);
      StepStaysInWorld(m2.sprite, dt, disp, walls);
    }
  }

  /** For a mob anchored inside the world the recycling branch never runs:
      where a recycled mob would reappear makes no difference. */
  lemma RecyclingNeverFires(m: MobState, dt: real, target: Vec, walls: seq<Rect>, disp: Vec, spot: Vec, spot2: Vec)
    requires m.sprite.frameCount > 0 && SpawnSpot(spot) && SpawnSpot(spot2) && InWorld(m.sprite)
    ensures MobStep(m, dt, target, walls, disp, spot) == MobStep(m, dt, target, walls, disp, spot2)
  {
    var m1 := Recover(m, dt);
    if !m1.stunned {
      var m2 := Pursue(m1, target);
      assert InWorld(m2.sprite);
      StepStaysInWorld(m2.sprite, dt, disp, walls);
    }
  }

  /** The set-up draws mob centres with `random.randint(0, WORLD_WIDTH)`,
      whose upper bound is included, so a mob can start sticking out of the
      world. One centred at (3000, 1050) with no direction is pushed by the
      clamp into the wall at (2050, 1000, 1000, 100), rolled back, and
      recycled: its rectangle goes to the spawn spot above the world while
      `pos` stays. The result meets these requires again, so the same
      happens on every later frame while the mob is not stunned. */
  lemma EdgeSpawnIsRecycled(m: MobState, dt: real, target: Vec, walls: seq<Rect>, disp: Vec, spot: Vec)
    requires m.sprite.frameCount > 0 && SpawnSpot(spot) && !m.stunned && !m.chasing
    requires m.sprite.pos == Vec(3000, 1050) && m.sprite.direction == Zero
    requires m.sprite.rect.w == MobWidth && m.sprite.rect.h == MobHeight
    requires Rect(2050, 1000, 1000, 100) in walls
    ensures !Inside(CenteredAt(m.sprite.rect, m.sprite.pos), WorldRect)
    ensures var r := MobStep(m, dt, target, walls, disp, spot);
      r.sprite.rect == Rect(spot.x, spot.y, MobWidth, MobHeight) && r.sprite.pos == m.sprite.pos &&
      r.sprite.direction == Zero && !r.stunned && !r.chasing && r.sprite.frameCount == m.sprite.frameCount
  {
    var wall :| 0 <= wall < |walls| && walls[wall] == Rect(2050, 1000, 1000, 100);
    assert Recover(m, dt) == m;
    var s := Pursue(m, target).sprite;
    assert s.pos == Vec(3000, 1050) && s.direction == Zero;
    assert s.rect.w == MobWidth && s.rect.h == MobHeight;
    var centred := CenteredAt(s.rect, s.pos);
    assert centred == Rect(2979, 1026, MobWidth, MobHeight);
    var clamped := ClampInto(centred, WorldRect);
    assert clamped == Rect(2958, 1026, MobWidth, MobHeight);
    var moved := Integrate(s, dt, disp);
    assert moved.rect == clamped;
    assert Overlaps(moved.rect, walls[wall]);
    var back := Step(s, dt, disp, walls);
    assert back == RollBack(moved, s.pos);
    assert back.rect == centred;
    assert OutOfWorld(back.rect);
  }

  /** Chase hysteresis of an unstunned mob inside the world: an idle mob
      starts chasing exactly when the player is closer than 200, a chasing
      one keeps chasing exactly while the player is no farther than 300. */
  lemma ChaseHysteresis(m: MobState, dt: real, target: Vec, walls: seq<Rect>, disp: Vec, spot: Vec)
    requires m.sprite.frameCount > 0 && SpawnSpot(spot) && InWorld(m.sprite) && !m.stunned
    ensures MobStep(m, dt, target, walls, disp, spot).chasing ==
      if m.chasing then Norm2(ToTarget(m, target)) <= ReleaseDistance2
      else Norm2(ToTarget(m, target)) < ChaseDistance2
  {
    MobStaysInWorld(m, dt, target, walls, disp, spot);
  }

  /** Inside the band between the two radii nothing changes: an idle mob
      stays idle and a chasing one keeps chasing. */
  lemma HysteresisBand(m: MobState, dt: real, target: Vec, walls: seq<Rect>, disp: Vec, spot: Vec)
    requires m.sprite.frameCount > 0 && SpawnSpot(spot) && InWorld(m.sprite) && !m.stunned
    requires ChaseDistance2 <= Norm2(ToTarget(m, target)) <= ReleaseDistance2
    ensures MobStep(m, dt, target, walls, disp, spot).chasing == m.chasing
  {
    ChaseHysteresis(m, dt, target, walls, disp, spot);
  }

  /** The frame on which a chase starts still moves the mob along its old
      direction: the mob turns towards the player only from the next frame. */
  lemma FreshChaseKeepsDirection(m: MobState, dt: real, target: Vec, walls: seq<Rect>, disp: Vec, spot: Vec)
    requires m.sprite.frameCount > 0 && SpawnSpot(spot) && !m.stunned && !m.chasing
    ensures MobStep(m, dt, target, walls, disp, spot).sprite.direction == m.sprite.direction
  {
  }

  /** A chasing mob that loses the player has turned towards the player on
      that frame and keeps that direction afterwards, since nothing resets
      it: an idle mob keeps drifting the way it last chased. */
  lemma ReleasedChaseKeepsHeading(m: MobState, dt: real, target: Vec, walls: seq<Rect>, disp: Vec, spot: Vec,
                                  dt2: real, target2: Vec, disp2: Vec, spot2: Vec)
    requires m.sprite.frameCount > 0 && SpawnSpot(spot) && SpawnSpot(spot2) && InWorld(m.sprite)
    requires !m.stunned && m.chasing && Norm2(ToTarget(m, target)) > ReleaseDistance2
    requires var next := MobStep(m, dt, target, walls, disp, spot);
      Norm2(ToTarget(next, target2)) >= ChaseDistance2
    ensures var next := MobStep(m, dt, target, walls, disp, spot);
      !next.chasing && next.sprite.direction == ToTarget(m, target) &&
      MobStep(next, dt2, target2, walls, disp2, spot2).sprite.direction == ToTarget(m, target)
  {
    MobStaysInWorld(m, dt, target, walls, disp, spot);
  }

  /** Different positions of a group hold different mobs, as in a
      `pygame.sprite.Group`. */
  predicate Distinct(mobs: seq<Mob>) {
    forall i, j :: 0 <= i < j < |mobs| ==> mobs[i] != mobs[j]
  }

  /** The states of a group of mobs, in group order. */
  function States(mobs: seq<Mob>): (r: seq<MobState>)
    reads set m | m in mobs
    ensures |r| == |mobs|
    ensures forall i :: 0 <= i < |mobs| ==> r[i] == mobs[i].State()
    decreases |mobs|
  {
    if mobs == [] then [] else [mobs[0].State()] + States(mobs[1..])
  }

  /** One mob, with the fields the source keeps on it. */
  class Mob {
    var pos: Vec
    var rect: Rect
    var direction: Vec
    var speed: real
    var animTime: real
    var frame: nat
    var chasing: bool
    var stunned: bool
    var stunTimer: real
    var chaseSpeed: real

    function Body(): Sprite
      reads this
    {
      Sprite(pos, rect, direction, speed, animTime, frame, MobFrames)
    }

    function State(): MobState
      reads this
    {
      MobState(Body(), chasing, stunned, stunTimer, chaseSpeed)
    }

    /** `Mob(x, y)`: a 42 x 48 rectangle centred on the spawn point, idle,
        unstunned, at the randomly chosen `startFrame`. `AnimatedSprite`'s
        initialiser runs after the mob's own fields are set, so the speed it
        starts with is `PLAYER_SPEED` and the animation clock starts at 0. */
    constructor (x: int, y: int, startFrame: nat)
      requires startFrame < MobFrames
      ensures State() == MobState(Sprite(Vec(x, y), CenteredAt(Rect(0, 0, MobWidth, MobHeight), Vec(x, y)),
                                         Zero, PlayerSpeed, 0.0, startFrame, MobFrames),
                                  false, false, 0.0, BaseChaseSpeed)
    {
      pos := Vec(x, y);
      rect := CenteredAt(Rect(0, 0, MobWidth, MobHeight), Vec(x, y));
      direction := Zero;
      speed := PlayerSpeed;
      animTime := 0.0;
      frame := startFrame;
      chasing := false;
      stunned := false;
      stunTimer := 0.0;
      chaseSpeed := BaseChaseSpeed;
    }

    /** `update_speed(suspicion_modifier)`. */
    method UpdateSpeed(modifier: real)
      modifies this
      ensures State() == Rescaled(old(State()), modifier)
    {
      speed := BaseSpeed * modifier;
      chaseSpeed := BaseChaseSpeed * modifier;
      if chasing && !stunned {
        speed := chaseSpeed;
      } else if !stunned {
        speed := BaseSpeed * modifier;
      }
    }

    /** `get_stunned(duration)`. */
    method GetStunned(duration: real)
      modifies this
      ensures State() == StunnedFor(old(State()), duration)
    {
      stunned := true;
      stunTimer := duration;
      speed := 0.0;
    }

    /** `update(dt, player, walls)`; the player is seen through its rectangle.
        The body's three blocks are the methods below, in source order. */
    method Update(dt: real, player: Rect, walls: seq<Rect>, disp: Vec, spot: Vec)
      requires SpawnSpot(spot)
      modifies this
      ensures State() == MobStep(old(State()), dt, player.Center(), walls, disp, spot)
    {
      CountDownStun(dt);
      if !stunned {
        ghost var m1 := State();
        DecideChase(player);
        ghost var m2 := State();
        MoveAndResolve(dt, walls, disp);
        ghost var m3 := State();
        RecycleIfOut(spot);
        assert MobStep(old(State()), dt, player.Center(), walls, disp, spot)
            == Recycled(Moved(Pursue(m1, player.Center()), dt, disp, walls), spot);
      }
    }

    /** The stun countdown that opens `update`. */
    method CountDownStun(dt: real)
      modifies this
      ensures State() == Recover(old(State()), dt)
    {
      if stunned {
        stunTimer := stunTimer - dt;
        if stunTimer <= 0.0 {
          stunned := false;
          speed := BaseSpeed;
        }
      }
    }

    /** The chase decision of an unstunned mob. */
    method DecideChase(player: Rect)
      modifies this
      ensures State() == Pursue(old(State()), player.Center())
    {
      var d := player.Center().Minus(rect.Center());
      var dist2 := Norm2(d);
      if !chasing {
        if dist2 < ChaseDistance2 {
          chasing := true;
          speed := chaseSpeed;
        }
      } else {
        if dist2 > 0 {
          direction := d;
        }
        assert State() == Turn(old(State()), player.Center());
        if dist2 > ReleaseDistance2 {
          chasing := false;
          speed := BaseSpeed;
        }
      }
    }

    /** `super().update(dt)` followed by the rollback on a wall overlap. */
    method MoveAndResolve(dt: real, walls: seq<Rect>, disp: Vec)
      modifies this
      ensures State() == Moved(old(State()), dt, disp, walls)
    {
      var oldPos := pos;
      var moved := Integrate(Body(), dt, disp);
      pos, rect, animTime, frame := moved.pos, moved.rect, moved.animTime, moved.frame;
      assert Body() == moved;
      if HitsAny(rect, walls) {
        pos := oldPos;
        rect := CenteredAt(rect, pos);
      }
    }

    /** The off-world recycling at the end of `update`. */
    method RecycleIfOut(spot: Vec)
      modifies this
      ensures State() == Recycled(old(State()), spot)
    {
      if OutOfWorld(rect) {
        rect := rect.(x := spot.x, y := spot.y);
        chasing := false;
        speed := BaseSpeed;
      }
    }
  }
}
