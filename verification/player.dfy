/** The player (`Player`): eight-way movement from the keyboard, the
    facing and animation choice, the stun ability with its cooldown, and
    the detection of a nearby sign or terminal. */
module PlayerControl {
  import opened Geometry
  import opened Kinematics
  import opened Pursuers
  import opened Interaction
  import opened Optional

  const PlayerWidth: nat := 80
  const PlayerHeight: nat := 120
  /** Every animation of the player has two frames. */
  const PlayerFrames: nat := 2
  /** `stun_radius` (150) squared. */
  const StunRadius2: int := 22500
  const StunDuration: real := 3.0
  const StunCooldownTime: real := 5.0

  /** The four animations, and the four values of `last_direction`. */
  datatype Facing = Down | Left | Right | Up

  /** The keys the frame reads: W, S, A, D, the arrow keys and P. */
  datatype Keys = Keys(w: bool, s: bool, a: bool, d: bool,
                       arrowUp: bool, arrowDown: bool, arrowLeft: bool, arrowRight: bool,
                       p: bool)

  predicate UpHeld(k: Keys) { k.w || k.arrowUp }
  predicate DownHeld(k: Keys) { k.s || k.arrowDown }
  predicate LeftHeld(k: Keys) { k.a || k.arrowLeft }
  predicate RightHeld(k: Keys) { k.d || k.arrowRight }

  /** `move_vec`: one unit per held direction; opposite keys cancel. */
  function MoveVector(k: Keys): (v: Vec)
    ensures -1 <= v.x <= 1 && -1 <= v.y <= 1
    ensures v.x < 0 <==> LeftHeld(k) && !RightHeld(k)
    ensures v.x > 0 <==> RightHeld(k) && !LeftHeld(k)
    ensures v.y < 0 <==> UpHeld(k) && !DownHeld(k)
    ensures v.y > 0 <==> DownHeld(k) && !UpHeld(k)
  {
    Vec((if RightHeld(k) then 1 else 0) - (if LeftHeld(k) then 1 else 0),
        (if DownHeld(k) then 1 else 0) - (if UpHeld(k) then 1 else 0))
  }

  /** `last_direction`: the keys are tested in the order up, down, left,
      right and each held one overwrites it, so the last held one in that
      order wins; with nothing held it keeps its value. */
  function LastDirection(k: Keys, previous: Facing): Facing {
    if RightHeld(k) then Right
    else if LeftHeld(k) then Left
    else if DownHeld(k) then Down
    else if UpHeld(k) then Up
    else previous
  }

  function Abs(n: int): nat { if n < 0 then -n else n }

  /** The animation of a moving player: horizontal only when the move is
      more horizontal than vertical, so diagonals show a vertical one. */
  function AnimationFor(v: Vec): (f: Facing)
    requires v != Zero
    ensures (f == Left || f == Right) <==> Abs(v.x) > Abs(v.y)
    ensures f == Left ==> v.x < 0
    ensures f == Right ==> v.x > 0
    ensures f == Up ==> v.y < 0
    ensures f == Down ==> v.y > 0
  {
    if Abs(v.x) > Abs(v.y) then (if v.x < 0 then Left else Right)
    else if v.y < 0 then Up else Down
  }

  /** The player's state: the sprite part, the facing fields (`last_direction`,
      `current_animation`, and which animation's frames are loaded), the
      interaction flags and the stun cooldown. `nearSign` is the position of
      the sign in the sign group. */
  datatype PlayerState = PlayerState(sprite: Sprite, lastDirection: Facing, animation: Facing, shown: Facing,
                                     canInteract: bool, nearSign: Option<nat>, nearTerminal: bool,
                                     stunCooldown: real)

  /** The stun fires when P is held, the cooldown has run out and there is at
      least one mob. */
  predicate Fires(p: PlayerState, k: Keys, mobCount: nat) {
    k.p && p.stunCooldown <= 0.0 && mobCount > 0
  }

  /** The steering part of `update`: facing, direction and the animation
      switch, which restarts the frame counter when the animation changes. */
  function Steer(p: PlayerState, k: Keys): PlayerState {
    p.(lastDirection := LastDirection(k, p.lastDirection),
       animation := if MoveVector(k) != Zero then AnimationFor(MoveVector(k)) else p.animation,
       shown := Wanted(p, k),
       sprite := p.sprite.(direction := MoveVector(k),
                           frame := if Wanted(p, k) == p.shown then p.sprite.frame else 0))
  }

  /** The animation whose frames are shown after steering. */
  function Wanted(p: PlayerState, k: Keys): Facing {
    if MoveVector(k) != Zero then AnimationFor(MoveVector(k)) else LastDirection(k, p.lastDirection)
  }

  /** The end-of-update countdown: only a positive cooldown is decremented,
      so it can end up below zero and then stays there. */
  function Cooled(cooldown: real, dt: real): real {
    if cooldown > 0.0 then cooldown - dt else cooldown
  }

  /** The interaction flags for the player's rectangle after the move. */
  function LookAround(p: PlayerState, signs: seq<Sign>, terminal: Option<Terminal>): PlayerState {
    p.(canInteract := FirstOverlap(p.sprite.rect, signs).Some? || NearTerminal(p.sprite.rect, terminal),
       nearSign := FirstOverlap(p.sprite.rect, signs),
       nearTerminal := NearTerminal(p.sprite.rect, terminal))
  }

  /** `Player.update(dt, walls, signs, terminal, mobs)` on the player's state;
      `mobCount` is the size of the mob group and `disp` the frame's
      displacement. The effect on the mobs is `StunNearby`. */
  function PlayerStep(p: PlayerState, dt: real, k: Keys, walls: seq<Rect>, signs: seq<Sign>,
                      terminal: Option<Terminal>, mobCount: nat, disp: Vec): (r: PlayerState)
    requires p.sprite.frameCount > 0
    ensures r.sprite.frameCount == p.sprite.frameCount
  {
    CountDown(LookAround(Steer(p, k).(sprite := Step(Steer(p, k).sprite, dt, disp, walls),
                                      stunCooldown := if Fires(p, k, mobCount) then StunCooldownTime else p.stunCooldown),
                         signs, terminal),
              dt)
  }

  /** The cooldown countdown that ends `update`. */
  function CountDown(p: PlayerState, dt: real): PlayerState {
    p.(stunCooldown := Cooled(p.stunCooldown, dt))
  }

  /** Whether a mob is within the stun radius of the player's centre. */
  predicate InStunRange(m: MobState, center: Vec) {
    Norm2(m.sprite.rect.Center().Minus(center)) <= StunRadius2
  }

  function StunOne(m: MobState, center: Vec): MobState {
    if InStunRange(m, center) then StunnedFor(m, StunDuration) else m
  }

  /** `stun_nearby_mobs(mobs)` on the mob states: each mob is tested and
      stunned on its own. */
  function StunNearby(ms: seq<MobState>, center: Vec): seq<MobState> {
    seq(|ms|, i requires 0 <= i < |ms| => StunOne(ms[i], center))
  }

  /** The stun reaches exactly the mobs within 150 of the player: each of
      them is stunned for 3 s at speed zero with its chase flag and position
      kept; every other mob is untouched. */
  lemma StunHitsExactlyNearby(ms: seq<MobState>, center: Vec)
    ensures |StunNearby(ms, center)| == |ms|
    ensures forall i :: 0 <= i < |ms| && InStunRange(ms[i], center) ==>
      var m := StunNearby(ms, center)[i];
      m.stunned && m.stunTimer == StunDuration && m.sprite.speed == 0.0 &&
      m.chasing == ms[i].chasing && m.sprite.pos == ms[i].sprite.pos && m.sprite.rect == ms[i].sprite.rect
    ensures forall i :: 0 <= i < |ms| && !InStunRange(ms[i], center) ==> StunNearby(ms, center)[i] == ms[i]
  {
  }

  /** Holding up and down together (and no sideways key) cancels the move:
      the player stands still, facing down, since down is tested after up. */
  lemma OppositeKeysCancel(p: PlayerState, k: Keys)
    requires UpHeld(k) && DownHeld(k) && !LeftHeld(k) && !RightHeld(k)
    ensures MoveVector(k) == Zero
    ensures Steer(p, k).lastDirection == Down && Steer(p, k).shown == Down
    ensures Steer(p, k).animation == p.animation
  {
  }

  /** Moving diagonally shows a vertical animation, yet `last_direction`
      records the horizontal key; when the keys are released the player
      turns to face sideways. */
  lemma DiagonalShowsVertical(p: PlayerState, k: Keys, later: Keys)
    requires UpHeld(k) != DownHeld(k) && LeftHeld(k) != RightHeld(k)
    requires !UpHeld(later) && !DownHeld(later) && !LeftHeld(later) && !RightHeld(later)
    ensures Steer(p, k).shown == Up || Steer(p, k).shown == Down
    ensures Steer(p, k).lastDirection == Left || Steer(p, k).lastDirection == Right
    ensures Steer(Steer(p, k), later).shown == Steer(p, k).lastDirection
    ensures Steer(Steer(p, k), later).sprite.frame == 0
  {
  }

  /** Moving along one axis, the animation shown and `last_direction` agree. */
  lemma StraightMoveFacesIt(p: PlayerState, k: Keys)
    requires MoveVector(k) != Zero && (MoveVector(k).x == 0 || MoveVector(k).y == 0)
    requires !(UpHeld(k) && DownHeld(k)) && !(LeftHeld(k) && RightHeld(k))
    ensures Steer(p, k).shown == Steer(p, k).lastDirection
  {
  }

  /** A player anchored inside the world stays anchored inside it. */
  lemma PlayerStaysInWorld(p: PlayerState, dt: real, k: Keys, walls: seq<Rect>, signs: seq<Sign>,
                           terminal: Option<Terminal>, mobCount: nat, disp: Vec)
    requires p.sprite.frameCount > 0 && InWorld(p.sprite)
    requires p.sprite.rect.w == PlayerWidth && p.sprite.rect.h == PlayerHeight
    ensures InWorld(PlayerStep(p, dt, k, walls, signs, terminal, mobCount, disp).sprite)
  {
    var s := Steer(p, k).sprite;
    assert InWorld(s);
    StepStaysInWorld(s, dt, disp, walls);
  }

  /** After an update the player can interact exactly when its new
      rectangle overlaps some sign's zone or the terminal's; both a sign and
      the terminal can be noted at once, and the noted sign is the first
      overlapping one. */
  lemma InteractionFlags(p: PlayerState, dt: real, k: Keys, walls: seq<Rect>, signs: seq<Sign>,
                         terminal: Option<Terminal>, mobCount: nat, disp: Vec)
    requires p.sprite.frameCount > 0
    ensures var r := PlayerStep(p, dt, k, walls, signs, terminal, mobCount, disp);
      (r.canInteract <==> (exists j :: 0 <= j < |signs| && Overlaps(r.sprite.rect, signs[j].interactRect)) ||
                          NearTerminal(r.sprite.rect, terminal)) &&
      (r.nearSign.Some? ==> forall j :: 0 <= j < r.nearSign.value ==> !Overlaps(r.sprite.rect, signs[j].interactRect)) &&
      (r.nearTerminal <==> NearTerminal(r.sprite.rect, terminal))
  {
    var r := PlayerStep(p, dt, k, walls, signs, terminal, mobCount, disp);
    var f := FirstOverlap(r.sprite.rect, signs);
    if f.Some? {
      assert Overlaps(r.sprite.rect, signs[f.value].interactRect);
    }
  }

  /** Firing sets the cooldown to 5 s, from which this frame's `dt` is
      already taken; otherwise only the countdown applies. */
  lemma FiringResetsCooldown(p: PlayerState, dt: real, k: Keys, walls: seq<Rect>, signs: seq<Sign>,
                             terminal: Option<Terminal>, mobCount: nat, disp: Vec)
    requires p.sprite.frameCount > 0
    ensures var r := PlayerStep(p, dt, k, walls, signs, terminal, mobCount, disp);
      r.stunCooldown == if Fires(p, k, mobCount) then StunCooldownTime - dt else Cooled(p.stunCooldown, dt)
  {
  }

  /** The sum of a run of frame times. */
  function Total(dts: seq<real>): real
    decreases |dts|
  {
    if dts == [] then 0.0 else dts[0] + Total(dts[1..])
  }

  predicate AllForward(dts: seq<real>) {
    forall i :: 0 <= i < |dts| ==> dts[i] >= 0.0
  }

  /** The cooldown after a run of frames. */
  function CooldownAfter(cooldown: real, dts: seq<real>): real
    decreases |dts|
  {
    if dts == [] then cooldown else CooldownAfter(Cooled(cooldown, dts[0]), dts[1..])
  }

  lemma {:induction false} TotalNonNegative(dts: seq<real>)
    requires AllForward(dts)
    ensures Total(dts) >= 0.0
    decreases |dts|
  {
    if dts != [] {
      TotalNonNegative(dts[1..]);
    }
  }

  /** A positive cooldown simply loses the elapsed time as long as it has
      not run out. */
  lemma {:induction false} CooldownCountsDown(cooldown: real, dts: seq<real>)
    requires AllForward(dts) && cooldown - Total(dts) > 0.0
    ensures CooldownAfter(cooldown, dts) == cooldown - Total(dts)
    decreases |dts|
  {
    if dts != [] {
      TotalNonNegative(dts[1..]);
      CooldownCountsDown(cooldown - dts[0], dts[1..]);
    }
  }

  /** A cooldown that has run out stays where it is. */
  lemma {:induction false} SpentCooldownStays(cooldown: real, dts: seq<real>)
    requires cooldown <= 0.0
    ensures CooldownAfter(cooldown, dts) == cooldown
    decreases |dts|
  {
    if dts != [] {
      SpentCooldownStays(cooldown, dts[1..]);
    }
  }

  /** After a stun, frames that add up to less than 5 s (the firing frame
      included) leave the cooldown positive, so P does nothing. */
  lemma StunLockedForFiveSeconds(dts: seq<real>, p: PlayerState, k: Keys, mobCount: nat)
    requires AllForward(dts) && Total(dts) < StunCooldownTime
    requires p.stunCooldown == CooldownAfter(StunCooldownTime, dts)
    ensures !Fires(p, k, mobCount)
  {
    CooldownCountsDown(StunCooldownTime, dts);
  }

  /** The player object, with the fields `update` reads and writes. */
  class Player {
    var pos: Vec
    var rect: Rect
    var direction: Vec
    var speed: real
    var animTime: real
    var frame: nat
    var lastDirection: Facing
    var animation: Facing
    var shown: Facing
    var canInteract: bool
    var nearSign: Option<nat>
    var nearTerminal: bool
    var stunCooldown: real

    function Body(): Sprite
      reads this
    {
      Sprite(pos, rect, direction, speed, animTime, frame, PlayerFrames)
    }

    function State(): PlayerState
      reads this
    {
      PlayerState(Body(), lastDirection, animation, shown, canInteract, nearSign, nearTerminal, stunCooldown)
    }

    /** `Player(x, y)`: an 80 x 120 rectangle centred on `(x, y)`, facing
        down, at `PLAYER_SPEED`, with nothing nearby and the stun ready. */
    constructor (x: int, y: int)
      ensures State() == PlayerState(Sprite(Vec(x, y), CenteredAt(Rect(0, 0, PlayerWidth, PlayerHeight), Vec(x, y)),
                                            Zero, PlayerSpeed, 0.0, 0, PlayerFrames),
                                     Down, Down, Down, false, None, false, 0.0)
    {
      pos := Vec(x, y);
      rect := CenteredAt(Rect(0, 0, PlayerWidth, PlayerHeight), Vec(x, y));
      direction := Zero;
      speed := PlayerSpeed;
      animTime := 0.0;
      frame := 0;
      lastDirection, animation, shown := Down, Down, Down;
      canInteract, nearSign, nearTerminal := false, None, false;
      stunCooldown := 0.0;
    }

    /** `update(dt, walls, signs, terminal, mobs)`. The stun, when it fires,
        is aimed from the rectangle the player has before moving. */
    method Update(dt: real, k: Keys, walls: seq<Rect>, signs: seq<Sign>, terminal: Option<Terminal>,
                  mobs: seq<Mob>, disp: Vec)
      requires Distinct(mobs)
      modifies this, set m | m in mobs
      ensures State() == PlayerStep(old(State()), dt, k, walls, signs, terminal, |mobs|, disp)
      ensures States(mobs) == if Fires(old(State()), k, |mobs|) then StunNearby(old(States(mobs)), old(rect.Center()))
                              else old(States(mobs))
    {
      ghost var p := State();
      SteerBy(k);
      UseStun(k, mobs);
      ghost var afterStun := States(mobs);
      ghost var steered := Steer(p, k).(stunCooldown := if Fires(p, k, |mobs|) then StunCooldownTime else p.stunCooldown);
      assert State() == steered;
      MoveLookAndCount(dt, walls, signs, terminal, disp);
      assert PlayerStep(p, dt, k, walls, signs, terminal, |mobs|, disp) ==
        CountDown(LookAround(steered.(sprite := Step(steered.sprite, dt, disp, walls)), signs, terminal), dt);
      assert States(mobs) == afterStun;
    }

    /** The rest of `update` once the keys are read: the move with the wall
        rollback, the interaction checks and the cooldown. */
    method MoveLookAndCount(dt: real, walls: seq<Rect>, signs: seq<Sign>, terminal: Option<Terminal>, disp: Vec)
      modifies this
      ensures State() == CountDown(LookAround(old(State()).(sprite := Step(old(State()).sprite, dt, disp, walls)),
                                              signs, terminal), dt)
    {
      ghost var moved := old(State()).(sprite := Step(old(State()).sprite, dt, disp, walls));
      MoveAndResolve(dt, walls, disp);
      assert State() == moved;
      ghost var looked := LookAround(moved, signs, terminal);
      LookAroundFor(signs, terminal);
      assert State() == looked;
      CountDownCooldown(dt);
    }

    /** The stun test: with P held, the cooldown spent and some mob present,
        stun the nearby mobs and restart the cooldown. (In the source this
        test sits between the key tests and the direction assignment; it
        neither reads nor writes what they do.) */
    method UseStun(k: Keys, mobs: seq<Mob>)
      requires Distinct(mobs)
      modifies this, set m | m in mobs
      ensures State() == old(State()).(stunCooldown := if Fires(old(State()), k, |mobs|) then StunCooldownTime
                                                        else old(stunCooldown))
      ensures States(mobs) == if Fires(old(State()), k, |mobs|) then StunNearby(old(States(mobs)), old(rect.Center()))
                              else old(States(mobs))
    {
      if k.p && stunCooldown <= 0.0 && |mobs| > 0 {
        StunNearbyMobs(mobs);
        stunCooldown := StunCooldownTime;
      }
    }

    /** The end of `update`: only a positive cooldown counts down. */
    method CountDownCooldown(dt: real)
      modifies this
      ensures State() == CountDown(old(State()), dt)
    {
      if stunCooldown > 0.0 {
        stunCooldown := stunCooldown - dt;
      }
    }

    /** The key tests, the facing and the animation switch. */
    method SteerBy(k: Keys)
      modifies this
      ensures State() == Steer(old(State()), k)
      ensures rect == old(rect)
    {
      ghost var p := State();
      ReadKeys(k);
      SwitchAnimation(k, p);
    }

    /** The key tests: `move_vec` and `last_direction`. */
    method ReadKeys(k: Keys)
      modifies this
      ensures State() == old(State()).(lastDirection := LastDirection(k, old(lastDirection)),
                                       sprite := old(Body()).(direction := MoveVector(k)))
    {
      var mx, my := 0, 0;
      if UpHeld(k) {
        my := my - 1;
        lastDirection := Up;
      }
      if DownHeld(k) {
        my := my + 1;
        lastDirection := Down;
      }
      if LeftHeld(k) {
        mx := mx - 1;
        lastDirection := Left;
      }
      if RightHeld(k) {
        mx := mx + 1;
        lastDirection := Right;
      }
      direction := Vec(mx, my);
    }

    /** The animation switch after the key tests of a player that was in
        state `p`: a new animation restarts the frame counter. */
    method SwitchAnimation(ghost k: Keys, ghost p: PlayerState)
      requires State() == p.(lastDirection := LastDirection(k, p.lastDirection),
                             sprite := p.sprite.(direction := MoveVector(k)))
      modifies this
      ensures State() == Steer(p, k)
    {
      if direction != Zero {
        animation := AnimationFor(direction);
        if shown != animation {
          shown := animation;
          frame := 0;
        }
      } else {
        if shown != lastDirection {
          shown := lastDirection;
          frame := 0;
        }
      }
    }

    /** `stun_nearby_mobs(mobs)`: stun every mob within 150 of the player. */
    method StunNearbyMobs(mobs: seq<Mob>)
      requires Distinct(mobs)
      modifies set m | m in mobs
      ensures States(mobs) == StunNearby(old(States(mobs)), rect.Center())
    {
      for i := 0 to |mobs|
        invariant forall j :: 0 <= j < i ==> mobs[j].State() == StunOne(old(mobs[j].State()), rect.Center())
        invariant forall j :: i <= j < |mobs| ==> mobs[j].State() == old(mobs[j].State())
      {
        var d := mobs[i].rect.Center().Minus(rect.Center());
        if Norm2(d) <= StunRadius2 {
          mobs[i].GetStunned(StunDuration);
        }
      }
    }

    /** `super().update(dt)` followed by the rollback on a wall overlap. */
    method MoveAndResolve(dt: real, walls: seq<Rect>, disp: Vec)
      modifies this
      ensures State() == old(State()).(sprite := Step(old(Body()), dt, disp, walls))
    {
      var oldPos := pos;
      var moved := Integrate(Body(), dt, disp);
      pos, rect, animTime, frame := moved.pos, moved.rect, moved.animTime, moved.frame;
      assert Body() == moved;
      if HitsAny(rect, walls) {
        pos := oldPos;
        rect := CenteredAt(rect, pos);
      }
    }

    /** The interaction checks: the first sign in range, then the terminal. */
    method LookAroundFor(signs: seq<Sign>, terminal: Option<Terminal>)
      modifies this
      ensures State() == LookAround(old(State()), signs, terminal)
    {
      canInteract := false;
      nearSign := None;
      nearTerminal := false;
      var found := NearSign(rect, signs);
      if found.Some? {
        canInteract := true;
        nearSign := found;
      }
      if terminal.Some? && Overlaps(rect, terminal.value.interactRect) {
        canInteract := true;
        nearTerminal := true;
      }
    }
  }
}
