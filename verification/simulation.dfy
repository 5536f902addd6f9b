/** One frame of the game loop in `main`, after the event handling: the
    camera follows the player, every mob updates, the suspicion meter
    follows whether some mob is actively chasing, the mobs' speeds are
    rescaled, the player moves unless the cipher wheel is open (then the
    wheel turns instead), and the round ends when the player touches a mob. */
module Simulation {
  import opened Geometry
  import opened Optional
  import opened Suspicion
  import opened Viewport
  import opened Cipher
  import opened Kinematics
  import opened Pursuers
  import opened Interaction
  import opened PlayerControl

  /** What the frame reads from outside: the frame time, the keyboard, the
      player's and every mob's displacement, and where each mob would be
      recycled to. */
  datatype Input = Input(dt: real, keys: Keys, playerDisp: Vec, mobDisps: seq<Vec>, spots: seq<Vec>)

  /** The fixed level: walls, signs and the terminal. */
  datatype Scenery = Scenery(walls: seq<Rect>, signs: seq<Sign>, terminal: Option<Terminal>)

  /** Everything a frame changes. */
  datatype World = World(camera: Vec, level: real, effective: real, angle: int, wheelVisible: bool,
                         player: PlayerState, mobs: seq<MobState>)

  /** An input for a group of `n` mobs. */
  predicate Admissible(input: Input, n: nat) {
    input.dt >= 0.0 && |input.mobDisps| == n && |input.spots| == n &&
    forall i :: 0 <= i < n ==> SpawnSpot(input.spots[i])
  }

  /** A world a frame can run on. */
  predicate Ready(w: World) {
    InRange(w.level) && w.player.sprite.frameCount > 0 &&
    forall i :: 0 <= i < |w.mobs| ==> w.mobs[i].sprite.frameCount > 0
  }

  /** The mob loop: every mob's `update`, in group order, each with its
      own displacement and respawn spot. */
  function UpdatedMobs(ms: seq<MobState>, dt: real, target: Vec, walls: seq<Rect>,
                       disps: seq<Vec>, spots: seq<Vec>): (r: seq<MobState>)
    requires |disps| == |ms| && |spots| == |ms|
    requires forall i :: 0 <= i < |ms| ==> ms[i].sprite.frameCount > 0
    requires forall i :: 0 <= i < |spots| ==> SpawnSpot(spots[i])
    ensures |r| == |ms|
    decreases |ms|
  {
    if ms == [] then []
    else [MobStep(ms[0], dt, target, walls, disps[0], spots[0])] +
         UpdatedMobs(ms[1..], dt, target, walls, disps[1..], spots[1..])
  }

  /** The mob loop updates each mob independently of the others: the `i`-th
      mob afterwards is the `i`-th mob's own step. */
  lemma {:induction false} UpdatedMobsPointwise(ms: seq<MobState>, dt: real, target: Vec, walls: seq<Rect>,
                                                disps: seq<Vec>, spots: seq<Vec>)
    requires |disps| == |ms| && |spots| == |ms|
    requires forall i :: 0 <= i < |ms| ==> ms[i].sprite.frameCount > 0
    requires forall i :: 0 <= i < |spots| ==> SpawnSpot(spots[i])
    ensures forall i :: 0 <= i < |ms| ==>
      UpdatedMobs(ms, dt, target, walls, disps, spots)[i] == MobStep(ms[i], dt, target, walls, disps[i], spots[i])
    decreases |ms|
  {
    if ms != [] {
      UpdatedMobsPointwise(ms[1..], dt, target, walls, disps[1..], spots[1..]);
      var r := UpdatedMobs(ms, dt, target, walls, disps, spots);
      forall i | 1 <= i < |ms|
        ensures r[i] == MobStep(ms[i], dt, target, walls, disps[i], spots[i])
      {
        assert r[i] == UpdatedMobs(ms[1..], dt, target, walls, disps[1..], spots[1..])[i - 1];
        assert ms[1..][i - 1] == ms[i] && disps[1..][i - 1] == disps[i] && spots[1..][i - 1] == spots[i];
      }
    }
  }

  /** `any_chasing`, as the mob loop accumulates it: false before the first
      mob, and set once a mob ends its update chasing and not stunned. */
  predicate AnyActive(ms: seq<MobState>)
    decreases |ms|
  {
    |ms| > 0 && (AnyActive(ms[..|ms| - 1]) || ActivelyChasing(ms[|ms| - 1]))
  }

  lemma AnyActiveAppend(ms: seq<MobState>, m: MobState)
    ensures AnyActive(ms + [m]) == (AnyActive(ms) || ActivelyChasing(m))
  {
    assert (ms + [m])[..|ms|] == ms;
  }

  /** The flag is set exactly when some mob of the group is actively
      chasing. */
  lemma {:induction false} AnyActiveMeans(ms: seq<MobState>)
    ensures AnyActive(ms) <==> exists i :: 0 <= i < |ms| && ActivelyChasing(ms[i])
    decreases |ms|
  {
    if |ms| > 0 {
      var front := ms[..|ms| - 1];
      AnyActiveMeans(front);
      if AnyActive(front) {
        var i :| 0 <= i < |front| && ActivelyChasing(front[i]);
        assert ms[i] == front[i];
      }
      if exists i :: 0 <= i < |ms| && ActivelyChasing(ms[i]) {
        var i :| 0 <= i < |ms| && ActivelyChasing(ms[i]);
        if i < |ms| - 1 {
          assert front[i] == ms[i];
        }
      }
    }
  }

  /** The `update_speed` loop. */
  function RescaledAll(ms: seq<MobState>, modifier: real): (r: seq<MobState>)
    ensures |r| == |ms|
    ensures forall i :: 0 <= i < |ms| ==> r[i] == Rescaled(ms[i], modifier)
  {
    seq(|ms|, i requires 0 <= i < |ms| => Rescaled(ms[i], modifier))
  }

  /** The mobs after the mob loop, before their speeds are rescaled. */
  function MovedMobs(w: World, sc: Scenery, input: Input): seq<MobState>
    requires Ready(w) && Admissible(input, |w.mobs|)
  {
    UpdatedMobs(w.mobs, input.dt, w.player.sprite.rect.Center(), sc.walls, input.mobDisps, input.spots)
  }

  /** The suspicion level after the frame's `update`. */
  function NewLevel(w: World, sc: Scenery, input: Input): real
    requires Ready(w) && Admissible(input, |w.mobs|)
  {
    NextLevel(w.level, input.dt, AnyActive(MovedMobs(w, sc, input)))
  }

  /** The world after the mobs' part of the frame: camera, mobs, suspicion. */
  function MobPhase(w: World, sc: Scenery, input: Input): World
    requires Ready(w) && Admissible(input, |w.mobs|)
  {
    w.(camera := Offset(w.player.sprite.rect.Center(), WorldWidth, WorldHeight),
       level := NewLevel(w, sc, input),
       effective := Smoothed(w.effective, NewLevel(w, sc, input)),
       mobs := RescaledAll(MovedMobs(w, sc, input), Modifier(NewLevel(w, sc, input))))
  }

  /** The player's part: with the wheel hidden the player updates (and
      may stun mobs); with it shown only the wheel turns. */
  function PlayerPhase(w: World, sc: Scenery, input: Input): World
    requires w.player.sprite.frameCount > 0
  {
    if w.wheelVisible then w.(angle := NextAngle(w.angle, input.keys.a, input.keys.d))
    else w.(player := PlayerStep(w.player, input.dt, input.keys, sc.walls, sc.signs, sc.terminal, |w.mobs|, input.playerDisp),
            mobs := if Fires(w.player, input.keys, |w.mobs|) then StunNearby(w.mobs, w.player.sprite.rect.Center())
                    else w.mobs)
  }

  /** One frame of `main`'s loop, event handling and drawing aside. */
  function Tick(w: World, sc: Scenery, input: Input): World
    requires Ready(w) && Admissible(input, |w.mobs|)
  {
    PlayerPhase(MobPhase(w, sc, input), sc, input)
  }

  /** `spritecollide(player, mobs)`: the player touches some mob, stunned
      or not. */
  predicate Caught(w: World) {
    exists i :: 0 <= i < |w.mobs| && Overlaps(w.player.sprite.rect, w.mobs[i].sprite.rect)
  }

  /** A sprite anchored inside the world with its fixed size and frame count. */
  predicate Snug(s: Sprite, width: nat, height: nat, frames: nat) {
    InWorld(s) && s.rect.w == width && s.rect.h == height && s.frameCount == frames
  }

  /** The invariant of a running round: suspicion and its average in
      [0, 100], the wheel angle in [0, 360), the player and every mob
      anchored inside the world. */
  predicate Settled(w: World) {
    InRange(w.level) && InRange(w.effective) && 0 <= w.angle < 360 &&
    Snug(w.player.sprite, PlayerWidth, PlayerHeight, PlayerFrames) &&
    forall i :: 0 <= i < |w.mobs| ==> Snug(w.mobs[i].sprite, MobWidth, MobHeight, MobFrames)
  }

  lemma SettledIsReady(w: World)
    requires Settled(w)
    ensures Ready(w)
  {
  }

  /** The mobs' part keeps a world settled: every mob stays anchored inside
      the world, and the meter stays in range. */
  lemma MobPhaseKeepsSettled(w: World, sc: Scenery, input: Input)
    requires Settled(w) && Admissible(input, |w.mobs|)
    ensures Ready(w)
    ensures Settled(MobPhase(w, sc, input))
    ensures |MobPhase(w, sc, input).mobs| == |w.mobs|
  {
    var target := w.player.sprite.rect.Center();
    var moved := MovedMobs(w, sc, input);
    UpdatedMobsPointwise(w.mobs, input.dt, target, sc.walls, input.mobDisps, input.spots);
    forall i | 0 <= i < |w.mobs|
      ensures Snug(moved[i].sprite, MobWidth, MobHeight, MobFrames)
    {
      MobStaysInWorld(w.mobs[i], input.dt, target, sc.walls, input.mobDisps[i], input.spots[i]);
    }
    var w1 := MobPhase(w, sc, input);
    assert w1.mobs == RescaledAll(moved, Modifier(NewLevel(w, sc, input)));
    assert forall i :: 0 <= i < |w1.mobs| ==> w1.mobs[i].sprite.rect == moved[i].sprite.rect;
  }

  /** The player's part keeps a world settled: the player stays anchored
      inside the world and a stun moves no mob. */
  lemma PlayerPhaseKeepsSettled(w: World, sc: Scenery, input: Input)
    requires Settled(w)
    ensures Settled(PlayerPhase(w, sc, input))
    ensures |PlayerPhase(w, sc, input).mobs| == |w.mobs|
    ensures PlayerPhase(w, sc, input).camera == w.camera
  {
    if !w.wheelVisible {
      PlayerStaysInWorld(w.player, input.dt, input.keys, sc.walls, sc.signs, sc.terminal, |w.mobs|, input.playerDisp);
    }
  }

  /** A frame keeps a settled world settled, keeps the number of mobs, and
      leaves the camera showing only the world. */
  lemma TickKeepsSettled(w: World, sc: Scenery, input: Input)
    requires Settled(w) && Admissible(input, |w.mobs|)
    ensures Ready(w)
    ensures Settled(Tick(w, sc, input))
    ensures |Tick(w, sc, input).mobs| == |w.mobs|
    ensures -(WorldWidth - ScreenWidth) <= Tick(w, sc, input).camera.x <= 0
    ensures -(WorldHeight - ScreenHeight) <= Tick(w, sc, input).camera.y <= 0
  {
    MobPhaseKeepsSettled(w, sc, input);
    var w1 := MobPhase(w, sc, input);
    PlayerPhaseKeepsSettled(w1, sc, input);
    assert Tick(w, sc, input) == PlayerPhase(w1, sc, input);
    assert w1.camera == Offset(w.player.sprite.rect.Center(), WorldWidth, WorldHeight);
  }

  /** The rounds of a frame sequence. */
  function Run(w: World, sc: Scenery, inputs: seq<Input>): World
    requires Settled(w)
    requires forall k :: 0 <= k < |inputs| ==> Admissible(inputs[k], |w.mobs|)
    decreases |inputs|
  {
    if inputs == [] then w
    else
      TickKeepsSettled(w, sc, inputs[0]);
      Run(Tick(w, sc, inputs[0]), sc, inputs[1..])
  }

  /** However many frames run from a settled world, it stays settled: suspicion stays in
      [0, 100] and no mob ever leaves the world (so none is recycled).
      A world built with a mob sticking out of it is not settled; see
      `EdgeSpawnIsRecycled`. */
  lemma {:induction false} RunStaysSettled(w: World, sc: Scenery, inputs: seq<Input>)
    requires Settled(w)
    requires forall k :: 0 <= k < |inputs| ==> Admissible(inputs[k], |w.mobs|)
    ensures Settled(Run(w, sc, inputs))
    ensures |Run(w, sc, inputs).mobs| == |w.mobs|
    decreases |inputs|
  {
    if inputs != [] {
      TickKeepsSettled(w, sc, inputs[0]);
      var next := Tick(w, sc, inputs[0]);
      assert forall k :: 0 <= k < |inputs[1..]| ==> Admissible(inputs[1..][k], |next.mobs|) by {
        forall k | 0 <= k < |inputs[1..]|
          ensures Admissible(inputs[1..][k], |next.mobs|)
        {
          assert inputs[1..][k] == inputs[k + 1];
        }
      }
      RunStaysSettled(next, sc, inputs[1..]);
    }
  }

  /** Suspicion follows the chase state the mob loop leaves behind (before
      the player's stun): it rises while some mob actively chases and falls
      otherwise, until it saturates. */
  lemma SuspicionFollowsChase(w: World, sc: Scenery, input: Input)
    requires Ready(w) && Admissible(input, |w.mobs|) && input.dt > 0.0
    ensures var chased := AnyActive(MovedMobs(w, sc, input));
      (chased && w.level < MaxSuspicion ==> Tick(w, sc, input).level > w.level) &&
      (!chased && w.level > 0.0 ==> Tick(w, sc, input).level < w.level) &&
      InRange(Tick(w, sc, input).level)
  {
  }

  /** What a frame leaves of the mobs' part: the suspicion values are the
      mob phase's, and the mobs are its rescaled mobs, stunned around the
      player when the stun fires. */
  lemma TickParts(w: World, sc: Scenery, input: Input)
    requires Ready(w) && Admissible(input, |w.mobs|)
    ensures Tick(w, sc, input).level == NewLevel(w, sc, input)
    ensures Tick(w, sc, input).effective == MobPhase(w, sc, input).effective
    ensures Tick(w, sc, input).mobs ==
      if !w.wheelVisible && Fires(w.player, input.keys, |w.mobs|)
      then StunNearby(MobPhase(w, sc, input).mobs, w.player.sprite.rect.Center())
      else MobPhase(w, sc, input).mobs
  {
  }

  /** Unless the player's stun fires this frame, every mob ends the frame at
      the speed the new suspicion level gives it: the scaled chase speed
      when actively chasing, the scaled base speed otherwise (stunned mobs
      included). */
  lemma SpeedsFollowSuspicion(w: World, sc: Scenery, input: Input)
    requires Ready(w) && Admissible(input, |w.mobs|)
    requires w.wheelVisible || !Fires(w.player, input.keys, |w.mobs|)
    ensures var next := Tick(w, sc, input);
      forall i :: 0 <= i < |next.mobs| ==> ScaledBy(next.mobs[i], Modifier(next.level))
  {
    TickParts(w, sc, input);
    RescaledSpeeds(MovedMobs(w, sc, input), Modifier(NewLevel(w, sc, input)));
  }

  /** A mob's speeds scaled by `modifier`: the chase speed, and the speed
      it moves at (the chase speed when actively chasing, the base speed
      otherwise). */
  predicate ScaledBy(m: MobState, modifier: real) {
    m.chaseSpeed == BaseChaseSpeed * modifier &&
    m.sprite.speed == (if ActivelyChasing(m) then BaseChaseSpeed else BaseSpeed) * modifier
  }

  /** After `update_speed` with a modifier, every mob's speeds are the
      baselines scaled by it. */
  lemma RescaledSpeeds(ms: seq<MobState>, modifier: real)
    ensures forall i :: 0 <= i < |ms| ==> ScaledBy(RescaledAll(ms, modifier)[i], modifier)
  {
  }

  /** How a mob ends a frame in which the player's stun fired around
      `center`: stunned for 3 s at speed zero when its centre is within 150
      of `center`, otherwise at the speed the `level` gives it. */
  predicate StunnedOrRescaled(m: MobState, center: Vec, level: real) {
    if InStunRange(m, center) then m.stunned && m.stunTimer == StunDuration && m.sprite.speed == 0.0
    else m.sprite.speed == (if ActivelyChasing(m) then BaseChaseSpeed else BaseSpeed) * Modifier(level)
  }

  /** When the stun fires, every mob whose (moved) centre is within 150 of
      the player's centre at the start of the frame ends the frame stunned
      for 3 s at speed zero; the others keep the rescaled speeds. */
  lemma StunAfterRescale(w: World, sc: Scenery, input: Input)
    requires Ready(w) && Admissible(input, |w.mobs|)
    requires !w.wheelVisible && Fires(w.player, input.keys, |w.mobs|)
    ensures var next := Tick(w, sc, input);
      forall i :: 0 <= i < |next.mobs| ==> StunnedOrRescaled(next.mobs[i], w.player.sprite.rect.Center(), next.level)
  {
    TickParts(w, sc, input);
    var ms := MovedMobs(w, sc, input);
    var modifier := Modifier(NewLevel(w, sc, input));
    assert MobPhase(w, sc, input).mobs == RescaledAll(ms, modifier);
    StunAfterSpeeds(Tick(w, sc, input), ms, modifier, w.player.sprite.rect.Center());
  }

  /** The stun applied after `update_speed`: the mobs in range are stunned,
      the others keep their rescaled speeds. */
  lemma StunAfterSpeeds(next: World, ms: seq<MobState>, modifier: real, center: Vec)
    requires next.mobs == StunNearby(RescaledAll(ms, modifier), center)
    requires Modifier(next.level) == modifier
    ensures forall i :: 0 <= i < |next.mobs| ==> StunnedOrRescaled(next.mobs[i], center, next.level)
  {
    var rs := RescaledAll(ms, modifier);
    forall i | 0 <= i < |next.mobs|
      ensures StunnedOrRescaled(next.mobs[i], center, next.level)
    {
      var m := next.mobs[i];
      assert m == StunOne(rs[i], center);
      if InStunRange(rs[i], center) {
        assert m.sprite.rect == rs[i].sprite.rect;
      } else {
        assert m == rs[i];
      }
    }
  }

  /** With the wheel open the player is frozen (no move, no stun, no
      countdown) and only the wheel turns; with it closed the wheel stays. */
  lemma WheelFreezesPlayer(w: World, sc: Scenery, input: Input)
    requires Ready(w) && Admissible(input, |w.mobs|)
    ensures w.wheelVisible ==> Tick(w, sc, input).player == w.player &&
                               Tick(w, sc, input).angle == NextAngle(w.angle, input.keys.a, input.keys.d)
    ensures !w.wheelVisible ==> Tick(w, sc, input).angle == w.angle
    ensures Tick(w, sc, input).wheelVisible == w.wheelVisible
  {
  }

  /** A world that agrees with `w` on the camera and the meter, and with
      the player phase from `w` on the wheel, the player and the mobs, is
      that phase's result. */
  lemma PlayerPhaseAssembles(w: World, sc: Scenery, input: Input, after: World)
    requires w.player.sprite.frameCount > 0
    requires after.camera == w.camera && after.level == w.level && after.effective == w.effective
    requires after.angle == PlayerPhase(w, sc, input).angle && after.wheelVisible == w.wheelVisible
    requires after.player == PlayerPhase(w, sc, input).player
    requires after.mobs == PlayerPhase(w, sc, input).mobs
    ensures after == PlayerPhase(w, sc, input)
  {
  }

  /** The world as the game's objects hold it. */
  function Snapshot(camera: Camera, meter: SuspicionSystem, wheel: WheelCipher, player: Player, mobs: seq<Mob>): World
    reads camera, meter, wheel, player, set m | m in mobs
  {
    World(Vec(camera.x, camera.y), meter.suspicion, meter.effective, wheel.outerAngle, wheel.visible,
          player.State(), States(mobs))
  }

  /** The first mob loop: update each mob and note whether any is actively
      chasing afterwards. */
  method UpdateMobs(mobs: seq<Mob>, dt: real, player: Rect, walls: seq<Rect>, input: Input) returns (anyChasing: bool)
    requires Distinct(mobs) && Admissible(input, |mobs|)
    modifies set m | m in mobs
    ensures States(mobs) == UpdatedMobs(old(States(mobs)), dt, player.Center(), walls, input.mobDisps, input.spots)
    ensures anyChasing == AnyActive(States(mobs))
  {
    ghost var before := States(mobs);
    ghost var done: seq<MobState> := [];
    anyChasing := false;
    for i := 0 to |mobs|
      invariant |done| == i
      invariant forall j :: 0 <= j < i ==>
        done[j] == MobStep(before[j], dt, player.Center(), walls, input.mobDisps[j], input.spots[j])
      invariant forall j :: 0 <= j < i ==> mobs[j].State() == done[j]
      invariant forall j :: i <= j < |mobs| ==> mobs[j].State() == before[j]
      invariant anyChasing == AnyActive(done)
    {
      UpdateOne(mobs, i, dt, player, walls, input);
      AnyActiveAppend(done, mobs[i].State());
      done := done + [mobs[i].State()];
      if mobs[i].chasing && !mobs[i].stunned {
        anyChasing := true;
      }
    }
    UpdatedMobsPointwise(before, dt, player.Center(), walls, input.mobDisps, input.spots);
    assert States(mobs) == done;
  }

  /** One mob's `update`; the other mobs are left as they are. */
  method UpdateOne(mobs: seq<Mob>, i: nat, dt: real, player: Rect, walls: seq<Rect>, input: Input)
    requires Distinct(mobs) && Admissible(input, |mobs|) && i < |mobs|
    modifies mobs[i]
    ensures mobs[i].State() == MobStep(old(mobs[i].State()), dt, player.Center(), walls, input.mobDisps[i], input.spots[i])
    ensures forall j :: 0 <= j < |mobs| && j != i ==> mobs[j].State() == old(mobs[j].State())
  {
    mobs[i].Update(dt, player, walls, input.mobDisps[i], input.spots[i]);
  }

  /** The second mob loop: `update_speed` with the new modifier. */
  method RescaleMobs(mobs: seq<Mob>, modifier: real)
    requires Distinct(mobs)
    modifies set m | m in mobs
    ensures States(mobs) == RescaledAll(old(States(mobs)), modifier)
  {
    for i := 0 to |mobs|
      invariant forall j :: 0 <= j < i ==> mobs[j].State() == Rescaled(old(mobs[j].State()), modifier)
      invariant forall j :: i <= j < |mobs| ==> mobs[j].State() == old(mobs[j].State())
    {
      mobs[i].UpdateSpeed(modifier);
    }
  }

  /** `spritecollide(player, mobs, False)` is non-empty. */
  method TouchesMob(r: Rect, mobs: seq<Mob>) returns (hit: bool)
    ensures hit <==> exists i :: 0 <= i < |mobs| && Overlaps(r, mobs[i].rect)
  {
    hit := false;
    for i := 0 to |mobs|
      invariant hit <==> exists j :: 0 <= j < i && Overlaps(r, mobs[j].rect)
    {
      if Overlaps(r, mobs[i].rect) {
        hit := true;
      }
    }
  }

  /** The mobs' part of a frame on the game's objects, from the world `w`
      they hold: the camera, the mob loop, the meter and the `update_speed`
      loop. */
  method MobPart(camera: Camera, meter: SuspicionSystem, player: Player, mobs: seq<Mob>,
                 sc: Scenery, input: Input, ghost w: World)
    requires Distinct(mobs) && meter.Valid() && Ready(w) && Admissible(input, |w.mobs|)
    requires w.camera == Vec(camera.x, camera.y) && w.level == meter.suspicion && w.effective == meter.effective
    requires w.player == player.State() && w.mobs == States(mobs)
    requires camera.width == WorldWidth && camera.height == WorldHeight
    modifies camera, meter, set m | m in mobs
    ensures meter.Valid()
    ensures Vec(camera.x, camera.y) == MobPhase(w, sc, input).camera
    ensures meter.suspicion == MobPhase(w, sc, input).level
    ensures meter.effective == MobPhase(w, sc, input).effective
    ensures States(mobs) == MobPhase(w, sc, input).mobs
  {
    camera.Update(player.rect);
    ChaseAndMeter(meter, player, mobs, sc, input, w);
    var modifier := meter.SpeedModifier();
    RescaleMobs(mobs, modifier);
  }

  /** The mob loop followed by the meter's update with its flag. */
  method ChaseAndMeter(meter: SuspicionSystem, player: Player, mobs: seq<Mob>, sc: Scenery, input: Input, ghost w: World)
    requires Distinct(mobs) && meter.Valid() && Ready(w) && Admissible(input, |w.mobs|)
    requires w.level == meter.suspicion && w.effective == meter.effective
    requires w.player == player.State() && w.mobs == States(mobs)
    modifies meter, set m | m in mobs
    ensures meter.Valid()
    ensures States(mobs) == MovedMobs(w, sc, input)
    ensures meter.suspicion == NewLevel(w, sc, input)
    ensures meter.effective == Smoothed(w.effective, NewLevel(w, sc, input))
  {
    var anyChasing := UpdateMobs(mobs, input.dt, player.rect, sc.walls, input);
    assert States(mobs) == MovedMobs(w, sc, input);
    meter.Update(input.dt, anyChasing);
  }

  /** The player's part of a frame on the game's objects, from the world
      `w` they hold. */
  method PlayerPart(wheel: WheelCipher, player: Player, mobs: seq<Mob>, sc: Scenery, input: Input, ghost w: World)
    requires Distinct(mobs)
    requires w.angle == wheel.outerAngle && w.wheelVisible == wheel.visible
    requires w.player == player.State() && w.mobs == States(mobs)
    modifies wheel, player, set m | m in mobs
    ensures wheel.outerAngle == PlayerPhase(w, sc, input).angle && wheel.visible == w.wheelVisible
    ensures player.State() == PlayerPhase(w, sc, input).player
    ensures States(mobs) == PlayerPhase(w, sc, input).mobs
  {
    if !wheel.visible {
      player.Update(input.dt, input.keys, sc.walls, sc.signs, sc.terminal, mobs, input.playerDisp);
    } else {
      wheel.Update(input.keys.a, input.keys.d);
    }
  }

  /** One frame on the game's objects, which hold the world `w` when it
      starts; the result says whether the round ends because the player
      touches a mob. */
  method Frame(camera: Camera, meter: SuspicionSystem, wheel: WheelCipher, player: Player, mobs: seq<Mob>,
               sc: Scenery, input: Input, ghost w: World) returns (caught: bool)
    requires w == Snapshot(camera, meter, wheel, player, mobs)
    requires Distinct(mobs) && meter.Valid() && Admissible(input, |mobs|)
    requires camera.width == WorldWidth && camera.height == WorldHeight
    modifies camera, meter, wheel, player, set m | m in mobs
    ensures meter.Valid()
    ensures Snapshot(camera, meter, wheel, player, mobs) == Tick(w, sc, input)
    ensures caught == Caught(Snapshot(camera, meter, wheel, player, mobs))
  {
    assert Ready(w);
    MobPart(camera, meter, player, mobs, sc, input, w);
    ghost var w1 := MobPhase(w, sc, input);
    caught := PlayerAndCatch(camera, meter, wheel, player, mobs, sc, input, w1);
  }

  /** The rest of a frame once the mob part has left the world `w`: the
      player's part and the collision test. */
  method PlayerAndCatch(camera: Camera, meter: SuspicionSystem, wheel: WheelCipher, player: Player, mobs: seq<Mob>,
                        sc: Scenery, input: Input, ghost w: World) returns (caught: bool)
    requires Distinct(mobs) && w == Snapshot(camera, meter, wheel, player, mobs) && w.player.sprite.frameCount > 0
    modifies wheel, player, set m | m in mobs
    ensures Snapshot(camera, meter, wheel, player, mobs) == PlayerPhase(w, sc, input)
    ensures caught == Caught(Snapshot(camera, meter, wheel, player, mobs))
  {
    PlayerPart(wheel, player, mobs, sc, input, w);
    PlayerPhaseAssembles(w, sc, input, Snapshot(camera, meter, wheel, player, mobs));
    caught := TouchesMob(player.rect, mobs);
  }
}
