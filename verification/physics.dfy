/** The physics of one ball, one tick at a time, as functions on values.
    Doubles are modelled as reals; the only integer casts of the code, `radius/2`
    and `(int)` of a double, are written out as `Half` and `Trunc`. */
module Physics {

  /** The two coordinates of a ball's position and of its velocity. */
  datatype BallState = BallState(x: real, y: real, vx: real, vy: real)

  function Abs(v: real): (a: real) {
    if v < 0.0 then -v else v
  }

  /** C#'s `radius/2`: integer division truncating toward zero. */
  function Half(radius: int): (h: int)
    ensures radius >= 0 ==> 0 <= 2 * h <= radius <= 2 * h + 1
    ensures radius < 0 ==> 2 * h - 1 <= radius <= 2 * h <= 0
  {
    if radius >= 0 then radius / 2 else -((-radius) / 2)
  }

  /** C#'s `(int)` cast of a double: drops the fraction, toward zero. */
  function Trunc(v: real): (n: int)
    ensures Abs(n as real) <= Abs(v) < Abs(n as real) + 1.0
    ensures v >= 0.0 ==> n >= 0
    ensures v <= 0.0 ==> n <= 0
  {
    if v >= 0.0 then v.Floor else -((-v).Floor)
  }

  // ---------------------------------------------------------------- x axis

  /** True when the ball touches or passes the left or right edge. */
  predicate AtSideWall(x: real, half: int, width: int) {
    x - half as real <= 0.0 || x + half as real >= width as real
  }

  /** The side-wall bounce: at a wall the velocity is reversed and damped by 0.99. */
  function Bounce(x: real, vx: real, half: int, width: int): (b: real)
    ensures Abs(b) <= Abs(vx)
    ensures AtSideWall(x, half, width) ==> Abs(b) == 0.99 * Abs(vx) && (b == 0.0 || (b > 0.0) == (vx < 0.0))
    ensures !AtSideWall(x, half, width) ==> b == vx
  {
    if AtSideWall(x, half, width) then -(vx * 0.99) else vx
  }

  /** Air resistance of 0.02 toward zero, then any speed below 0.025 is dropped to 0.
      A velocity that survives has lost exactly 0.02 and kept its sign. */
  function Drag(b: real): (v: real)
    ensures v == 0.0 || Abs(v) >= 0.025
    ensures v == 0.0 || (Abs(v) == Abs(b) - 0.02 && (v > 0.0) == (b > 0.0))
    ensures Abs(v) <= Abs(b)
    ensures Abs(b) >= 0.045 ==> v != 0.0
  {
    var slowed := if b > 0.0 then b - 0.02 else if b < 0.0 then b + 0.02 else b;
    if slowed < 0.025 && slowed > -0.025 then 0.0 else slowed
  }

  /** The horizontal velocity after one tick. */
  function NextVx(x: real, vx: real, half: int, width: int): (v: real)
    ensures v == 0.0 || Abs(v) >= 0.025
    ensures Abs(v) <= Abs(vx)
  {
    Drag(Bounce(x, vx, half, width))
  }

  /** The horizontal position after one tick, given the new velocity `v`.
      The right-border step and the left-border step both add `v`, so a ball
      away from both borders moves by twice its velocity. The left border is
      kept; the right one can be overshot by up to one more `v`. */
  function NextX(x: real, v: real, half: int, width: int): (x': real)
    ensures x' >= half as real
    ensures x' == half as real || x' <= (width - half) as real + v
    ensures x + v + half as real <= width as real && x + 2.0 * v >= half as real ==> x' == x + 2.0 * v
    ensures x + v + half as real <= width as real && x + 2.0 * v < half as real ==> x' == half as real
    // Past the right border the ball is put at `width - radius/2`, and the left-border step then adds `v` once more.
    ensures x + v + half as real > width as real && (width - 2 * half) as real + v >= 0.0 ==>
      x' == (width - half) as real + v
    ensures x + v + half as real > width as real && (width - 2 * half) as real + v < 0.0 ==> x' == half as real
  {
    // Right border: the code's second test (`>= width`) always holds once the first has failed.
    var x1 := if x + v + half as real <= width as real then x + v else (width - half) as real;
    // Left border: likewise.
    if x1 + v - half as real >= 0.0 then x1 + v else half as real
  }

  // ---------------------------------------------------------------- y axis

  /** The vertical velocity after one tick: on the floor it is reflected with
      `-(int)(vy * 0.9)`, an integer no larger than 0.9 times the old speed and
      of the opposite sign; in the air gravity adds 1. */
  function NextVy(y: real, vy: real, radius: int, height: int): (v: real)
    ensures y + radius as real >= height as real ==>
      v.Floor as real == v && Abs(v) <= 0.9 * Abs(vy) < Abs(v) + 1.0 && (v == 0.0 || (v < 0.0) == (vy > 0.0))
    ensures y + radius as real < height as real ==> v == vy + 1.0
  {
    if y + radius as real >= height as real then
      var n := -Trunc(vy * 0.9);
      assert Abs(vy * 0.9) == 0.9 * Abs(vy);
      assert (n as real).Floor == n;
      n as real
    else
      vy + 1.0
  }

  /** The vertical position after one tick, given the new velocity `v`: the
      ball moves by `v` unless it would end within 1 of the floor or below it,
      in which case it is put on the floor; it never ends below the floor. */
  function NextY(y: real, v: real, radius: int, height: int): (y': real)
    ensures y' + radius as real <= height as real
    ensures y + v + 1.0 + radius as real <= height as real ==> y' == y + v
    ensures y + v + 1.0 + radius as real > height as real ==> y' == (height - radius) as real
  {
    if y + v + 1.0 + radius as real <= height as real then y + v else (height - radius) as real
  }

  // ---------------------------------------------------------------- one tick

  /** One call of `Ball.Update` on a ball of the given radius in a window of the given size. */
  function Step(s: BallState, radius: int, width: int, height: int): (t: BallState)
    ensures t.x >= Half(radius) as real
    ensures t.y + radius as real <= height as real
    ensures t.vx == 0.0 || Abs(t.vx) >= 0.025
    ensures Abs(t.vx) <= Abs(s.vx)
  {
    var half := Half(radius);
    var vx := NextVx(s.x, s.vx, half, width);
    var x := NextX(s.x, vx, half, width);
    var vy := NextVy(s.y, s.vy, radius, height);
    var y := NextY(s.y, vy, radius, height);
    BallState(x, y, vx, vy)
  }

  /** `n` successive ticks: after any positive number of them the ball is right
      of the left bound and above the floor, its horizontal speed has not grown,
      and a ball that has stopped horizontally stays stopped. */
  function Run(s: BallState, radius: int, width: int, height: int, n: nat): (t: BallState)
    ensures n > 0 ==> t.x >= Half(radius) as real && t.y + radius as real <= height as real
    ensures n > 0 ==> t.vx == 0.0 || Abs(t.vx) >= 0.025
    ensures Abs(t.vx) <= Abs(s.vx)
    // The "stays stopped" corollary of the clause above.
    ensures s.vx == 0.0 ==> t.vx == 0.0
    decreases n
  {
    if n == 0 then s else Run(Step(s, radius, width, height), radius, width, height, n - 1)
  }

  /** The right-hand bound `x <= width - radius/2` is not kept: a ball at x = 570
      moving right at 6 in a 600-wide window ends the tick at 580.98 > 575. */
  lemma RightBoundOvershoot()
    ensures Step(BallState(570.0, 0.0, 6.0, 0.0), 50, 600, 600).x == 580.98
    ensures Step(BallState(570.0, 0.0, 6.0, 0.0), 50, 600, 600).x > (600 - Half(50)) as real
  {
  }

  /** A ball dropped at (300, 0) with velocity (6, 0) in a 600 x 600 window:
      after one tick it is still in the window, has moved 2 * 5.98 to the right,
      and gravity has given it vertical velocity 1. */
  lemma FirstTickInTheAir()
    ensures Step(BallState(300.0, 0.0, 6.0, 0.0), 50, 600, 600) == BallState(311.96, 1.0, 5.98, 1.0)
  {
  }
}
