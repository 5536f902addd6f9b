/** The global suspicion meter (`SuspicionSystem`): a level in [0, 100] that
    rises while some mob is actively chasing and decays otherwise, an
    exponential moving average of it, and the speed multiplier it gives the
    mobs. */
module Suspicion {

  const MaxSuspicion: real := 100.0
  const IncreaseRate: real := 10.0
  const DecreaseRate: real := 0.2
  const HighThreshold: real := 80.0

  function Min(a: real, b: real): real { if a <= b then a else b }
  function Max(a: real, b: real): real { if a >= b then a else b }

  predicate InRange(level: real) { 0.0 <= level <= MaxSuspicion }

  /** The level after one `update(dt, chased)`: it climbs at 10 per second
      while chased and decays at 0.2 per second otherwise, saturating at the
      ends of the range. */
  function NextLevel(level: real, dt: real, chased: bool): (r: real)
    requires InRange(level) && dt >= 0.0
    ensures InRange(r)
    ensures chased ==> level <= r && (r == MaxSuspicion || r == level + IncreaseRate * dt)
    ensures chased && dt > 0.0 && level < MaxSuspicion ==> r > level
    ensures !chased ==> r <= level && (r == 0.0 || r == level - DecreaseRate * dt)
    ensures !chased && dt > 0.0 && level > 0.0 ==> r < level
  {
    if chased then Min(MaxSuspicion, level + IncreaseRate * dt)
    else Max(0.0, level - DecreaseRate * dt)
  }

  /** One step of the moving average (`effective_suspicion`): it lands
      between its previous value and the current level, so it never
      overshoots the level it follows. */
  function Smoothed(previous: real, level: real): (r: real)
    ensures Min(previous, level) <= r <= Max(previous, level)
    ensures previous == level ==> r == level
  {
    previous * 0.9 + level * 0.1
  }

  /** `get_suspicion_modifier`: 1.0 at no suspicion up to 1.5 at the maximum. */
  function Modifier(level: real): (r: real)
    ensures InRange(level) ==> 1.0 <= r <= 1.5
    ensures level == 0.0 ==> r == 1.0
    ensures level == MaxSuspicion ==> r == 1.5
  {
    1.0 + (level / MaxSuspicion) * 0.5
  }

  lemma ModifierMonotone(a: real, b: real)
    requires a <= b
    ensures Modifier(a) <= Modifier(b)
  {
  }

  /** Below saturation at both ends, a chased step raises the level exactly
      fifty times as much as an unchased step of the same length lowers it. */
  lemma RiseIsFiftyTimesDecay(level: real, dt: real)
    requires dt >= 0.0
    requires 0.0 <= level - DecreaseRate * dt && level + IncreaseRate * dt <= MaxSuspicion
    ensures NextLevel(level, dt, true) - level == 50.0 * (level - NextLevel(level, dt, false))
  {
  }

  /** One call of `update` with its inputs. */
  datatype Update = Update(dt: real, chased: bool)

  predicate Forward(updates: seq<Update>) {
    forall i :: 0 <= i < |updates| ==> updates[i].dt >= 0.0
  }

  /** The level after a sequence of updates; it never leaves [0, 100]. */
  function LevelAfter(level: real, updates: seq<Update>): (r: real)
    requires InRange(level) && Forward(updates)
    ensures InRange(r)
    decreases |updates|
  {
    if updates == [] then level
    else LevelAfter(NextLevel(level, updates[0].dt, updates[0].chased), updates[1..])
  }

  /** `n` updates of length `dt`, all with the same chase flag. */
  function Held(n: nat, dt: real, chased: bool): (u: seq<Update>)
    ensures |u| == n
    ensures forall i :: 0 <= i < n ==> u[i] == Update(dt, chased)
  {
    if n == 0 then [] else [Update(dt, chased)] + Held(n - 1, dt, chased)
  }

  /** `n` times `x`, by repeated addition. */
  function Times(n: nat, x: real): (r: real)
    ensures x >= 0.0 ==> r >= 0.0
  {
    if n == 0 then 0.0 else x + Times(n - 1, x)
  }

  lemma {:induction false} TimesIsProduct(n: nat, x: real)
    ensures Times(n, x) == (n as real) * x
  {
    if n > 0 {
      TimesIsProduct(n - 1, x);
      assert (n as real) * x == ((n - 1) as real) * x + x;
    }
  }

  /** Chasing held for `n` frames of length `dt` raises the level by
      `n` times `10 * dt` (`Times`, which `TimesIsProduct` shows is the
      product), until it saturates at 100. */
  lemma {:induction false} SustainedChase(level: real, n: nat, dt: real)
    requires InRange(level) && dt >= 0.0
    ensures Forward(Held(n, dt, true))
    ensures LevelAfter(level, Held(n, dt, true)) == Min(MaxSuspicion, level + Times(n, IncreaseRate * dt))
    decreases n
  {
    if n > 0 {
      var u := Held(n, dt, true);
      assert u[1..] == Held(n - 1, dt, true);
      SustainedChase(NextLevel(level, dt, true), n - 1, dt);
    }
  }

  /** An unchased stretch of `n` frames lowers the level by `n` times
      `0.2 * dt` until it reaches 0. */
  lemma {:induction false} SustainedCalm(level: real, n: nat, dt: real)
    requires InRange(level) && dt >= 0.0
    ensures Forward(Held(n, dt, false))
    ensures LevelAfter(level, Held(n, dt, false)) == Max(0.0, level - Times(n, DecreaseRate * dt))
    decreases n
  {
    if n > 0 {
      var u := Held(n, dt, false);
      assert u[1..] == Held(n - 1, dt, false);
      SustainedCalm(NextLevel(level, dt, false), n - 1, dt);
    }
  }

  /** One second of chasing from a calm world brings the level to 10. */
  lemma OneSecondOfChase()
    ensures NextLevel(0.0, 1.0, true) == 10.0
  {
  }

  /** The meter itself: `suspicion` and `effective_suspicion`. */
  class SuspicionSystem {
    var suspicion: real
    var effective: real

    predicate Valid()
      reads this
    {
      InRange(suspicion) && InRange(effective)
    }

    constructor ()
      ensures Valid()
      ensures suspicion == 0.0 && effective == 0.0
    {
      suspicion := 0.0;
      effective := 0.0;
    }

    /** `update(dt, is_being_chased)`. */
    method Update(dt: real, chased: bool)
      requires Valid() && dt >= 0.0
      modifies this
      ensures Valid()
      ensures suspicion == NextLevel(old(suspicion), dt, chased)
      ensures effective == Smoothed(old(effective), suspicion)
    {
      if chased {
        suspicion := Min(MaxSuspicion, suspicion + IncreaseRate * dt);
      } else {
        suspicion := Max(0.0, suspicion - DecreaseRate * dt);
      }
      effective := effective * 0.9 + suspicion * 0.1;
    }

    /** `get_suspicion_modifier()`. */
    function SpeedModifier(): (r: real)
      reads this
      requires Valid()
      ensures 1.0 <= r <= 1.5
      ensures r == Modifier(suspicion)
    {
      1.0 + (suspicion / MaxSuspicion) * 0.5
    }
  }
}
