/** The cipher wheel overlay (`WheelCipher`): its outer ring turns by two
    degrees per frame while A or D is held, and the angle is kept in
    [0, 360). */
module Cipher {

  const RotationSpeed: int := 2

  /** The angle after one `update` with A and D in the given states; Python's
      `%` with a positive modulus agrees with Dafny's. */
  function NextAngle(angle: int, a: bool, d: bool): (r: int)
    ensures 0 <= r < 360
    ensures (r - angle - Turn(a, d)) % 360 == 0
    ensures 0 <= angle < 360 && a == d ==> r == angle
  {
    var turned := angle - (if a then RotationSpeed else 0) + (if d then RotationSpeed else 0);
    turned % 360
  }

  /** The signed turn of one frame. */
  function Turn(a: bool, d: bool): int {
    (if d then RotationSpeed else 0) - (if a then RotationSpeed else 0)
  }

  /** A frame with A held is undone by a frame with D held. */
  lemma TurnBack(angle: int)
    requires 0 <= angle < 360
    ensures NextAngle(NextAngle(angle, true, false), false, true) == angle
  {
    if angle >= 2 {
      assert NextAngle(angle, true, false) == angle - 2;
    } else {
      assert NextAngle(angle, true, false) == angle + 358;
    }
  }

  class WheelCipher {
    var outerAngle: int
    var visible: bool

    constructor ()
      ensures outerAngle == 0 && !visible
    {
      outerAngle := 0;
      visible := false;
    }

    /** `update()`: A turns the outer ring back, D forward. */
    method Update(a: bool, d: bool)
      modifies this
      ensures outerAngle == NextAngle(old(outerAngle), a, d)
      ensures visible == old(visible)
    {
      if a {
        outerAngle := outerAngle - RotationSpeed;
      }
      if d {
        outerAngle := outerAngle + RotationSpeed;
      }
      outerAngle := outerAngle % 360;
    }

    /** `toggle()`. */
    method Toggle()
      modifies this
      ensures visible == !old(visible)
      ensures outerAngle == old(outerAngle)
    {
      visible := !visible;
    }
  }
}
