# Lone Voyager: the per-frame simulation, modelled in Dafny

Lone Voyager (`323Game.py`) is a top-down stealth game written with pygame.
The player walks through a 3000 x 3000 world of walls, signs and a code
terminal while mobs roam it. Each mob chases the player when the player comes
within 200 units. It gives up once the player is more than 300 units away.
The player can stun every mob within 150 units, with a 5-second cooldown.
While some mob is chasing, a global suspicion level rises at 10 per second.
Otherwise it decays at 0.2 per second. A higher level makes every mob faster
(by up to 1.5 times). It also changes what the signs say. A round ends when
the player touches a mob. The puzzle is won by typing the code 8514 at the
terminal. A cipher wheel overlay, while open, freezes the player and turns
with A and D.

This project models that simulation one component at a time. Each component
has its own module:

- `Geometry`: integer points, pygame rectangles, `colliderect`,
  `rect.center = p` and `clamp_ip`.
- `Viewport`: `Camera`.
- `Suspicion`: `SuspicionSystem`.
- `Kinematics`: `AnimatedSprite.update` and the wall rollback that both the
  player and the mobs perform.
- `Pursuers`: `Mob`.
- `Interaction`: `Sign` and `CodeTerminal`.
- `PlayerControl`: `Player`.
- `Cipher`: `WheelCipher`.
- `CodeEntry`: the key rule of `show_code_input_screen`.
- `Simulation`: one pass of the game loop in `main`.

The source's mutable objects are classes whose methods update fields in
place. Each method is proved equal to a pure step function of the old state
(`Mob.Update` to `MobStep`, `Player.Update` to `PlayerStep`, and so on), and
the properties are lemmas about those functions. `Simulation.Frame` runs one
frame on the objects. It is proved to produce `Tick` of the world the objects
held when the frame started. `RunStaysSettled` shows that any number of frames
starting from a settled world keeps the following true:

- suspicion and its moving average stay in [0, 100];
- the wheel angle stays in [0, 360);
- the player and every mob stay anchored inside the world.

The world the set-up builds need not be settled, though. `main` draws the
mob centres with `random.randint(0, WORLD_WIDTH)` and
`random.randint(0, WORLD_HEIGHT)`, both bounds included. A 42 x 48 mob
centred within 21 units of the left or right edge, or 24 units of the top or
bottom edge, sticks out of the world. For such a round `RunStaysSettled` says
nothing, and the recycling branch of `Mob.update` is reachable.
`Pursuers.EdgeSpawnIsRecycled` exhibits it. A mob centred at (3000, 1050) sits
against the wall at (2050, 1000, 1000, 100). On the first frame (its
direction is still zero), the clamp pushes it into that wall, the rollback
returns it to where it was, and it is recycled: its rectangle goes to the
spawn spot above the world while `pos` stays. The next frame re-centres the
rectangle on `pos`, and the same happens again.

Several points where the code behaves in a way a reader may not expect:

- A stun that runs out leaves `chasing` as it was. The mob does not return to
  idle (`Pursuers.StunExpires`).
- `update_speed` gives a stunned mob the scaled base speed, not zero. Only
  `get_stunned`, and the stun applied later in the same frame, set the speed
  to zero (`Pursuers.Rescaled`, `Simulation.StunAfterRescale`).
- The speeds are rescaled after the mob loop has moved the mobs
  (`Simulation.MobPhase`). A mob's `update` also sets its speed before the
  move when the stun runs out, when a chase starts and when a chase ends
  (`Pursuers.Recover`, `Pursuers.Pursue`). On other frames the move uses the
  speed the previous frame's rescale gave. The model does not derive the
  displacement from the speed (see "Left out").
- The round ends on contact with any mob, stunned or not (`Simulation.Caught`).
- The stun cooldown is decremented only while it is positive, so it can end
  below zero and then stays there (`PlayerControl.SpentCooldownStays`).
- A player at the world centre (1500, 1500) gives the camera offset
  (-860, -1140), because neither axis is clamped (`Viewport.WorldCentreOffset`).
- A new mob starts at speed `PLAYER_SPEED` (300) with its animation clock at
  0. `AnimatedSprite.__init__` runs after the mob's own initialisation and
  overwrites the base speed and the random clock (`Pursuers.Mob.constructor`).
- In the code-entry screen, Return clears `input_active` but the rest of that
  frame's events are still handled. A later digit still lands in the code,
  and a later Escape still abandons the entry
  (`CodeEntry.ReturnTakesEffectAtEndOfFrame`).
- A mob that starts a frame inside the world is never recycled, because
  `clamp_ip` keeps it inside (`Pursuers.RecyclingNeverFires`). Only a mob
  spawned sticking out of the world reaches that branch
  (`Pursuers.EdgeSpawnIsRecycled`).

Conventions:

- Positions are integers, and distances are compared as squares:
  - `< 200` becomes `< 40000`;
  - `> 300` becomes `> 90000`;
  - `<= 150` becomes `<= 22500`.
- Times and speeds are real numbers.
- The frame time, the keyboard, each sprite's displacement for the frame and
  the random respawn spots are inputs of the model.

## Model

| member | source | states |
|---|---|---|
| Geometry.Norm2 | 323Game.py:509-511 | the squared distance is never negative and is zero only for the zero vector |
| Geometry.Rect.Moved | 323Game.py:37-41 | `rect.move` keeps the size and shifts the centre by the offset |
| Geometry.Overlaps | 323Game.py:494 | `colliderect`: the two rectangles share interior area; touching edges and empty rectangles do not overlap (`OverlapsSymmetric` proves it symmetric) |
| Geometry.HitsAny | 323Game.py:482-483 | `spritecollide` against the walls: some wall overlaps the rectangle (`BlockedStepStaysPut` and `FreeStepMoves` give each outcome) |
| Geometry.OverlapsSymmetric | 323Game.py:482-483 | `colliderect` does not depend on the order of its two rectangles |
| Geometry.CenteredAt | 323Game.py:379 | `rect.center = p` keeps the size, puts the centre at `p`, and changes nothing when the centre is already `p` |
| Geometry.ClampAxis | 323Game.py:381 | along one axis `clamp_ip` leaves a span already inside alone, otherwise moves it to the nearer edge, and a span no longer than the container always ends inside it |
| Geometry.ClampInto | 323Game.py:381 | `clamp_ip` keeps the size, puts any rectangle no larger than the container inside it, and leaves one already inside unchanged |
| Geometry.CenteredAtSameSize | 323Game.py:484-485 | re-centring a same-size rectangle on the old centre gives back the old rectangle, which is why the rollback restores it exactly |
| Viewport.Offset | 323Game.py:43-50 | the camera offset never shows anything outside the world; when no clamping is needed the target is at the screen centre; near the left or top edge the offset is 0, and near the right or bottom edge it is the last screen of the world |
| Viewport.CornersShowWorldEdges | 323Game.py:43-50 | a target at the top-left corner gives (0, 0); one at the bottom-right corner shows exactly the last screen of the world |
| Viewport.WorldCentreOffset | 323Game.py:43-50 | the world centre gives (-860, -1140) |
| Viewport.TargetDrawnAtScreenCentre | 323Game.py:37-50 | when centring is not clamped, `apply` draws the target centred on the screen |
| Viewport.Camera.constructor | 323Game.py:32-35 | the camera starts at offset (0, 0) with the given world size |
| Viewport.Camera.Update | 323Game.py:43-52 | `update(target)` sets the offset to the clamped centring offset of the target's centre |
| Viewport.Camera.Apply | 323Game.py:40-41 | `apply_rect` keeps the size and shifts the centre by the camera offset |
| Cipher.NextAngle | 323Game.py:232-239 | the angle stays in [0, 360), differs from the old one by the frame's turn modulo 360, and is unchanged when A and D agree |
| Cipher.TurnBack | 323Game.py:232-239 | a frame with A held is undone by a frame with D held |
| Cipher.WheelCipher.constructor | 323Game.py:185-190 | the wheel starts hidden at angle 0 |
| Cipher.WheelCipher.Update | 323Game.py:232-239 | `update` sets the angle to `NextAngle` and leaves visibility alone |
| Cipher.WheelCipher.Toggle | 323Game.py:241-242 | `toggle` flips visibility and leaves the angle alone |
| Suspicion.NextLevel | 323Game.py:257-261 | one update stays in [0, 100]; when chased it rises by 10 per second or saturates at 100; otherwise it falls by 0.2 per second or stops at 0; it strictly moves whenever it can |
| Suspicion.Smoothed | 323Game.py:263 | the moving average lands between its previous value and the level, and holds still when they are equal |
| Suspicion.Modifier | 323Game.py:265-266 | the speed modifier runs from 1.0 at level 0 to 1.5 at level 100 |
| Suspicion.ModifierMonotone | 323Game.py:265-266 | a higher level never gives a smaller modifier |
| Suspicion.RiseIsFiftyTimesDecay | 323Game.py:252-261 | away from saturation, a chased step rises exactly 50 times as far as an unchased step of the same length falls |
| Suspicion.LevelAfter | 323Game.py:257-261 | any sequence of updates keeps the level in [0, 100] |
| Suspicion.SustainedChase | 323Game.py:258-259 | `n` chased frames of length `dt` raise the level by `n` times `10 * dt`, capped at 100 |
| Suspicion.SustainedCalm | 323Game.py:260-261 | `n` unchased frames of length `dt` lower the level by `n` times `0.2 * dt`, stopping at 0 |
| Suspicion.TimesIsProduct | 323Game.py:257-261 | the repeated sum used by the two lemmas above is the product `n * x` |
| Suspicion.OneSecondOfChase | 323Game.py:252-259 | one second of chase from level 0 gives level 10 |
| Suspicion.SuspicionSystem.constructor | 323Game.py:249-255 | the meter starts at 0 with its average at 0 |
| Suspicion.SuspicionSystem.Update | 323Game.py:257-263 | `update` sets the level to `NextLevel` and the average to `Smoothed` of the new level, and keeps both in [0, 100] |
| Suspicion.SuspicionSystem.SpeedModifier | 323Game.py:265-266 | `get_suspicion_modifier` is `Modifier` of the level, in [1.0, 1.5] |
| Interaction.NewSign | 323Game.py:308-317 | a sign is 40 x 60; a missing or empty alternate text falls back to the normal text; its interaction zone reaches 30 beyond the sign on every side and contains it |
| Interaction.GetText | 323Game.py:319-322 | the alternate text is shown only above the threshold and only if it is non-empty; at or below the threshold the normal text is shown |
| Interaction.PlainSignNeverChanges | 323Game.py:316-322 | a sign built without an alternate text reads the same at every level |
| Interaction.AlternateTextAboveEighty | 323Game.py:319-322 | with the default threshold a sign switches text exactly when the level is above 80 |
| Interaction.NewTerminal | 323Game.py:325-332 | the terminal is 60 x 80 and its interaction zone is 40 larger on every side |
| Interaction.FirstOverlap | 323Game.py:492-497 | finds the first sign in group order whose zone overlaps; returns none exactly when no zone overlaps |
| Interaction.NearSign | 323Game.py:492-497 | the sign loop with `break` returns the first overlapping sign, and none when nothing overlaps |
| Kinematics.Animate | 323Game.py:367-372 | the animation clock restarts at 0 and the frame advances cyclically once 0.1 s is reached; otherwise the clock accumulates and the frame stays; a valid frame index stays valid; nothing else changes |
| Kinematics.Integrate | 323Game.py:367-384 | after the move the sprite is anchored (`pos` is the rectangle's centre), keeps its size, direction and speed, is inside the world when it fits, and its animation clock and frame advance as `Animate` says |
| Kinematics.StillStaysPut | 323Game.py:374-382 | a sprite with zero direction, zero speed or zero `dt` inside the world does not move |
| Kinematics.FreeMoveArrives | 323Game.py:377-382 | a moving sprite whose moved rectangle fits in the world arrives exactly at `pos + disp` |
| Kinematics.RollBack | 323Game.py:484-485 | the rollback restores `pos` and re-centres the rectangle on it, changing nothing else |
| Kinematics.Step | 323Game.py:480-485 | the move followed by the wall rollback; keeps the size and the frame count (`BlockedStepStaysPut`, `FreeStepMoves` and `StepStaysInWorld` state its two outcomes and its invariant) |
| Kinematics.BlockedStepStaysPut | 323Game.py:480-485 | a move that ends overlapping a wall is undone: same position, same rectangle |
| Kinematics.FreeStepMoves | 323Game.py:480-485 | a move that touches no wall keeps the clamped move |
| Kinematics.StepStaysInWorld | 323Game.py:480-485 | a sprite that starts anchored inside the world ends anchored inside it, whether or not the move is undone |
| Kinematics.IntegrateIgnoresRectPlacement | 323Game.py:377-382 | a step reads the rectangle only for its size, so a respawned rectangle is re-centred on the old `pos` at the next step |
| Pursuers.StunnedFor | 323Game.py:630-635 | `get_stunned` sets stunned, the timer to the duration and the speed to 0, and keeps the chase flag and everything else |
| Pursuers.Rescaled | 323Game.py:576-583 | `update_speed` scales both baselines afresh; the speed is the scaled chase speed for a chasing, unstunned mob and the scaled base speed otherwise, stunned mobs included |
| Pursuers.Recover | 323Game.py:586-590 | the countdown runs only while stunned; reaching zero unstuns the mob at base speed 100 and keeps `chasing` |
| Pursuers.Pursue | 323Game.py:594-615 | an idle mob starts chasing exactly when closer than 200, without turning yet; a chasing mob turns toward the player unless the centres coincide and keeps chasing exactly while within 300; the speed changes only with the flag |
| Pursuers.Turn | 323Game.py:604-611 | the direction becomes the vector to the player unless it is zero |
| Pursuers.Release | 323Game.py:613-615 | beyond 300 the mob becomes idle at base speed 100; within 300 nothing changes; only the flag and the speed can change |
| Pursuers.MobStep | 323Game.py:585-628 | one `Mob.update`: keeps the size, the frame count and the chase speed (`StunnedMobHolds`, `StunExpires`, `MobStaysInWorld`, `ChaseHysteresis` and the lemmas after them state its behaviour) |
| Pursuers.Moved | 323Game.py:617-622 | the move changes only the mob's sprite |
| Pursuers.Recycled | 323Game.py:624-628 | a mob past the 15-unit tolerance gets its rectangle placed exactly at the spawn spot, above the world, with its size kept; it becomes idle at base speed 100; `pos`, direction, stun state and chase speed are untouched; any other mob is unchanged |
| Pursuers.StunnedMobHolds | 323Game.py:586-594 | a mob still stunned after the countdown does not move or decide anything; only its timer runs |
| Pursuers.StunExpires | 323Game.py:586-602 | an expired stun frees the mob, which keeps the chase flag it had and applies the chase rule at once |
| Pursuers.RestunRefreshes | 323Game.py:630-633 | stunning twice equals stunning once with the second duration |
| Pursuers.MobStaysInWorld | 323Game.py:617-628 | a mob anchored inside the world stays anchored inside it and does not trigger recycling |
| Pursuers.RecyclingNeverFires | 323Game.py:624-628 | for a mob inside the world, the respawn spot makes no difference |
| Pursuers.EdgeSpawnIsRecycled | 323Game.py:624-628 | a mob centred at (3000, 1050), which the set-up can spawn, is outside the world; if idle, unstunned and without a direction, it is recycled on its frame and comes out idle, unstunned, without a direction and with `pos` unchanged, so it is recycled on every later frame too |
| Pursuers.ChaseHysteresis | 323Game.py:595-615 | for an unstunned mob, the new chase flag is `distance <= 300` when chasing and `distance < 200` when idle |
| Pursuers.HysteresisBand | 323Game.py:600-615 | between 200 and 300 the chase flag does not change |
| Pursuers.FreshChaseKeepsDirection | 323Game.py:595-602 | the frame on which a chase starts still moves the mob along its old direction |
| Pursuers.ReleasedChaseKeepsHeading | 323Game.py:603-615 | a mob that loses the player keeps the last direction it turned to, on that frame and the next |
| Pursuers.Mob.constructor | 323Game.py:517-546 | a new mob is 42 x 48, centred on its spawn point, idle, unstunned, at speed 300, with chase speed 150 and animation clock 0 |
| Pursuers.Mob.UpdateSpeed | 323Game.py:576-583 | `update_speed` produces `Rescaled` of the old state |
| Pursuers.Mob.GetStunned | 323Game.py:630-635 | `get_stunned` produces `StunnedFor` of the old state |
| Pursuers.Mob.Update | 323Game.py:585-628 | `update` produces `MobStep` of the old state |
| Pursuers.Mob.CountDownStun | 323Game.py:586-590 | the stun countdown produces `Recover` |
| Pursuers.Mob.DecideChase | 323Game.py:594-615 | the distance tests produce `Pursue` |
| Pursuers.Mob.MoveAndResolve | 323Game.py:617-622 | the move and the rollback produce `Moved` |
| Pursuers.Mob.RecycleIfOut | 323Game.py:624-628 | the recycling test produces `Recycled` |
| PlayerControl.MoveVector | 323Game.py:445-458 | each axis is -1, 0 or 1, negative or positive exactly when one of its two keys is held and the opposite one is not |
| PlayerControl.AnimationFor | 323Game.py:466-470 | a horizontal animation exactly when the move is more horizontal than vertical, pointing the way of the move |
| PlayerControl.LastDirection | 323Game.py:447-458 | `last_direction` is the last held key in the order up, down, left, right, or unchanged when none is held (`OppositeKeysCancel`, `DiagonalShowsVertical`) |
| PlayerControl.Steer | 323Game.py:444-478 | direction, facing and animation switch of `update` (`OppositeKeysCancel`, `DiagonalShowsVertical`, `StraightMoveFacesIt`) |
| PlayerControl.LookAround | 323Game.py:487-502 | the interaction flags of `update` (`InteractionFlags`) |
| PlayerControl.Cooled | 323Game.py:504-505 | the countdown of a positive cooldown (`CooldownCountsDown`, `SpentCooldownStays`) |
| PlayerControl.PlayerStep | 323Game.py:443-505 | one `Player.update` on the player's state; keeps the frame count (`PlayerStaysInWorld`, `InteractionFlags` and `FiringResetsCooldown` state its behaviour) |
| PlayerControl.StunNearby | 323Game.py:507-514 | the mobs after `stun_nearby_mobs` (`StunHitsExactlyNearby`) |
| PlayerControl.StunHitsExactlyNearby | 323Game.py:507-514 | the stun reaches exactly the mobs within 150: each is stunned for 3 s at speed 0 with its position and chase flag kept; the others are untouched |
| PlayerControl.OppositeKeysCancel | 323Game.py:447-478 | up and down together cancel: no move, facing down, animation unchanged |
| PlayerControl.DiagonalShowsVertical | 323Game.py:447-478 | a diagonal move shows a vertical animation while `last_direction` records the horizontal key, so releasing the keys turns the player sideways and restarts the frames |
| PlayerControl.StraightMoveFacesIt | 323Game.py:447-470 | along one axis, the animation shown and `last_direction` agree |
| PlayerControl.PlayerStaysInWorld | 323Game.py:480-485 | a player anchored inside the world stays anchored inside it |
| PlayerControl.InteractionFlags | 323Game.py:487-502 | after an update the player can interact exactly when its rectangle overlaps some sign's zone or the terminal's; the noted sign is the first such sign; the terminal flag is its own overlap test |
| PlayerControl.FiringResetsCooldown | 323Game.py:460-505 | firing sets the cooldown to 5 s minus this frame's `dt`; otherwise only the countdown applies |
| PlayerControl.CooldownCountsDown | 323Game.py:504-505 | a positive cooldown loses exactly the elapsed time while it stays positive |
| PlayerControl.SpentCooldownStays | 323Game.py:504-505 | a cooldown at or below zero never changes again |
| PlayerControl.StunLockedForFiveSeconds | 323Game.py:460-462 | after a stun, frames totalling less than 5 s keep P from firing |
| PlayerControl.Player.constructor | 323Game.py:387-411 | a new player is 80 x 120, centred on `(x, y)`, facing down, at speed 300, with nothing nearby and the stun ready |
| PlayerControl.Player.Update | 323Game.py:443-505 | `update` produces `PlayerStep` of the old state, and the mobs are `StunNearby` around the player's centre before the move when the stun fires, unchanged otherwise |
| PlayerControl.Player.MoveLookAndCount | 323Game.py:480-505 | the move with rollback, the interaction checks and the countdown, in that order |
| PlayerControl.Player.UseStun | 323Game.py:460-462 | the stun test stuns the nearby mobs and restarts the cooldown exactly when P is held, the cooldown is spent and there is a mob |
| PlayerControl.Player.CountDownCooldown | 323Game.py:504-505 | only a positive cooldown is decremented |
| PlayerControl.Player.SteerBy | 323Game.py:444-478 | the key tests and the animation switch produce `Steer` and leave the rectangle alone |
| PlayerControl.Player.ReadKeys | 323Game.py:444-458 | the key tests set the direction to `MoveVector` and `last_direction` to the last held key in test order |
| PlayerControl.Player.SwitchAnimation | 323Game.py:464-478 | the animation switch restarts the frame counter exactly when the shown animation changes |
| PlayerControl.Player.StunNearbyMobs | 323Game.py:507-514 | the mob loop produces `StunNearby` of the mobs' old states |
| PlayerControl.Player.MoveAndResolve | 323Game.py:480-485 | the move with rollback produces `Step` of the old sprite |
| PlayerControl.Player.LookAroundFor | 323Game.py:487-502 | the interaction checks produce `LookAround` |
| CodeEntry.Handle | 323Game.py:154-162 | one event: Quit and Escape end the screen at once, Return clears `input_active`, Backspace drops the last character, and a typed digit is appended while the code is shorter than 4 (`HandleKeepsWellFormed`) |
| CodeEntry.HandleAll | 323Game.py:149-162 | one frame's events in order, stopping at Quit or Escape (`HandleAllKeepsWellFormed`) |
| CodeEntry.Session | 323Game.py:144-182 | the frames of the code screen: it ends after the first frame in which Return was pressed, or at Quit or Escape (`SessionCodeIsFourDigitsAtMost`, `RightCodeAccepted`, `ReturnTakesEffectAtEndOfFrame`) |
| CodeEntry.HandleKeepsWellFormed | 323Game.py:154-162 | one key event keeps the code at most four ASCII digits and changes its length by at most one |
| CodeEntry.HandleAllKeepsWellFormed | 323Game.py:149-162 | a frame's events keep the code well formed |
| CodeEntry.SessionCodeIsFourDigitsAtMost | 323Game.py:144-182 | whatever is typed, the code submitted or pending is at most four digits |
| CodeEntry.RightCodeAccepted | 323Game.py:144-182 | typing 8, 5, 1, 4 and Return is accepted |
| CodeEntry.FifthDigitIgnored | 323Game.py:161-162 | a fifth digit is ignored |
| CodeEntry.BackspaceOnEmpty | 323Game.py:159-160 | backspace on an empty code does nothing |
| CodeEntry.LettersIgnored | 323Game.py:159-162 | letters are not typed and backspace removes the last digit |
| CodeEntry.ReturnTakesEffectAtEndOfFrame | 323Game.py:148-158 | Return submits only at the end of its frame: a later digit still counts, a later Escape abandons, and Escape on the next frame comes too late |
| CodeEntry.ReadCode | 323Game.py:144-182 | the screen's loops produce `Session` and, for single-character key text, a code of at most four digits |
| Simulation.UpdatedMobs | 323Game.py:758-762 | the first mob loop on the mobs' states; keeps their number (`UpdatedMobsPointwise`) |
| Simulation.AnyActive | 323Game.py:758-762 | the `any_chasing` flag accumulated in loop order (`AnyActiveMeans`) |
| Simulation.MobPhase | 323Game.py:725-767 | camera, mob loop, meter and rescale on the world (`MobPhaseKeepsSettled`, `SuspicionFollowsChase`) |
| Simulation.PlayerPhase | 323Game.py:769-772 | the player's update, or the wheel's while it is shown (`PlayerPhaseKeepsSettled`, `WheelFreezesPlayer`) |
| Simulation.Tick | 323Game.py:725-772 | one frame: the mob phase, then the player phase (`TickParts`, `TickKeepsSettled`) |
| Simulation.Caught | 323Game.py:786-788 | the round ends when the player's rectangle overlaps any mob's, stunned or not (`TouchesMob`) |
| Simulation.Settled | 323Game.py:724-788 | the invariant of a running round (`TickKeepsSettled`, `RunStaysSettled`) |
| Simulation.UpdatedMobsPointwise | 323Game.py:759-760 | the mob loop updates each mob on its own: the `i`-th result is the `i`-th mob's step |
| Simulation.AnyActiveMeans | 323Game.py:758-762 | `any_chasing` is set exactly when some mob ends its update chasing and unstunned |
| Simulation.RescaledAll | 323Game.py:766-767 | the second mob loop rescales every mob with the same modifier |
| Simulation.MobPhaseKeepsSettled | 323Game.py:758-767 | the camera, the mob loop, the meter and the rescale keep every mob inside the world and the meter in range |
| Simulation.PlayerPhaseKeepsSettled | 323Game.py:769-772 | the player's update or the wheel's keeps the player inside the world and the angle in range, and moves no mob |
| Simulation.TickKeepsSettled | 323Game.py:725-772 | a frame keeps a settled world settled, keeps the number of mobs, and leaves a camera offset that shows only the world |
| Simulation.RunStaysSettled | 323Game.py:724-788 | any number of frames keeps the world settled |
| Simulation.SuspicionFollowsChase | 323Game.py:758-764 | over a frame the level rises when some mob is actively chasing after the mob loop, falls otherwise, and stays in [0, 100] |
| Simulation.TickParts | 323Game.py:758-772 | a frame's level and average come from the mob phase; its mobs are the rescaled mobs, stunned around the player when the stun fires |
| Simulation.SpeedsFollowSuspicion | 323Game.py:764-772 | without a stun this frame, every mob ends the frame at the speeds the new level gives: the scaled chase speed when actively chasing, the scaled base speed otherwise |
| Simulation.RescaledSpeeds | 323Game.py:765-767 | after the rescale loop every mob's speeds are the baselines times the modifier |
| Simulation.StunAfterRescale | 323Game.py:764-772 | when the stun fires, every mob within 150 of the player's starting centre ends the frame stunned for 3 s at speed 0, and every other mob at the speed the new level gives |
| Simulation.StunAfterSpeeds | 323Game.py:766-770 | a stun after the rescale leaves the stunned mobs at speed 0 and the others at their rescaled speed |
| Simulation.WheelFreezesPlayer | 323Game.py:769-772 | with the wheel open the player is frozen and only the wheel turns; with it closed the wheel stays |
| Simulation.UpdateMobs | 323Game.py:758-762 | the first mob loop produces `UpdatedMobs` and returns whether any mob is actively chasing afterwards |
| Simulation.UpdateOne | 323Game.py:759-760 | one mob's update changes that mob only |
| Simulation.RescaleMobs | 323Game.py:766-767 | the `update_speed` loop produces `RescaledAll` |
| Simulation.TouchesMob | 323Game.py:786-788 | the collision test is true exactly when the player's rectangle overlaps some mob's |
| Simulation.MobPart | 323Game.py:725-767 | the camera, mob loop, meter and rescale on the objects produce the mob phase of the world they held |
| Simulation.ChaseAndMeter | 323Game.py:758-764 | the mob loop and the meter update produce the moved mobs, the new level and the new average |
| Simulation.PlayerPart | 323Game.py:769-772 | the player's or the wheel's update on the objects produces the player phase |
| Simulation.PlayerAndCatch | 323Game.py:769-788 | the player's part followed by the collision test |
| Simulation.Frame | 323Game.py:724-788 | one frame on the objects produces `Tick` of the world they held, keeps the meter valid, and reports whether the player touches a mob |

## Left out

- Drawing is not modelled: `draw_text`, `Camera.apply` on sprites, `WheelCipher.draw`, `SuspicionSystem.draw_effects`, the on-screen prompts and meters, and image tinting.
- The screens (`show_start_screen`, `show_game_over_screen`, `show_message_screen`, `show_win_screen`) are not modelled, only the key rule of `show_code_input_screen`. They are I/O loops with no state the simulation keeps.
- `MusicPlayer` and the chase-music switch in `main` are not modelled. They are audio only, and `any_chasing` itself is modelled.
- Sprite-sheet loading and the frame images are not modelled. Only the number of frames in each animation is kept.
- The event dispatch of `main` is not modelled: quitting, Escape, and opening a sign or the terminal. The wheel's `toggle` is modelled as a method. `WheelCipher.handle_event` is never called and is not part of this model.
- The level set-up in `main` is not modelled: wall positions, sign texts, the terminal position and the eight random mobs. Walls, signs and terminal are a `Scenery` parameter.
- Randomness is not modelled. The mob spawn points, the start frame and the respawn spot are inputs. The random animation clock is overwritten in the source anyway.
- The frame clock is not modelled. `dt` is an input.
- The link between a sprite's speed and its displacement is not modelled. The speed a frame sets is stated, but the distance moved is the input `disp`, so no contract says how far a mob at a given speed moves.
- Python floats are modelled as exact real numbers, with no rounding.
- Kinematics.Integrate: the source normalises `direction` in place before the move; the model keeps the unnormalised vector. This changes no behaviour in the model, because the displacement is an input.
- Kinematics.Integrate: the displacement is an input `disp`, not computed from `direction.normalize() * speed * dt` and the truncation to integer pixels, because the model has no square root and no float-to-int conversion. When the sprite is still (zero direction, zero speed or zero `dt`), `disp` is ignored.
- Pursuers.Pursue: the direction is the unnormalised vector to the player. Normalisation only matters through the displacement, which is an input.
- CodeEntry.SessionCodeIsFourDigitsAtMost: it assumes every key event types at most one character, as pygame's `unicode` does for key presses. `str.isdigit` is modelled for ASCII digits only.
- The prototype `323Game/323Game.py` is not part of this model.
