# BouncyBalls, modelled in Dafny

BouncyBalls is a small Windows Forms demo. Clicking the picture box spawns a
ball at the pointer. The ball gets a random colour and a random sideways
speed. A render thread refreshes the picture box about every 12 ms. Each
refresh draws every ball and, as a side effect of drawing, advances it one
physics tick. The tick applies a side-wall bounce, air resistance, gravity and
a floor bounce. The Reset button clears all balls, and the list keeps at most
100 balls: the oldest one is evicted first.

The model has three modules:

- `Physics` (`physics.dfy`) covers one tick of `Ball.Update` as functions on a
  `BallState` value (position and velocity). Doubles become reals, and C#'s
  `radius/2` and `(int)` cast are written out as `Half` and `Trunc`. Each
  part of the tick carries the property it guarantees. `Run` iterates the tick
  and keeps those guarantees over any number of ticks.
- `Balls` (`balls.dfy`) holds the `Ball` itself. In C# `Ball` is a struct
  whose `position` and `velocity` are array references, so every copy of a
  ball writes to the same two arrays. The model makes `Ball` a class whose
  fields never change: radius, colour, window and the two array references.
  `Update` writes into the two arrays step by step, as the source does, and
  is proved equal to `Physics.Step`. The `modifies` clause says that nothing
  but those arrays changes. `Form` stands for the window and holds only its
  size, which is what the physics reads.
- `Simulation` (`simulation.dfy`) holds the `Display`: the list of balls, the
  click handler, Reset and the paint pass. `System.Random` is replaced by the
  samples it would draw. Each `Next(lo, hi)` takes a number `u` in [0, 1) and
  yields `lo + (int)(u * (hi - lo))`.

The code differs from what one might expect of such a demo in three ways:

- The right-hand bound `x <= width - radius/2` is not kept. Lines 55 and 62
  both add the velocity, so a ball away from the borders moves by twice its
  velocity per tick. A ball can therefore end a tick past the right bound, by
  at most its velocity. `RightBoundOvershoot` shows this for x = 570, v = 6,
  width = 600: the ball ends at 580.98. The model claims only the left bound
  and this limited overshoot.
- Launch speeds are 4..7 to the right and -8..-5 to the left, not 4..8. The
  ball goes right when `Next(0, 10) > 5`, which holds for 4 outcomes in 10,
  not half of them.
- Colour components are drawn with `Next(0, 255)`, so 255 is never drawn.

## Model

| member | source | states |
|---|---|---|
| `Physics.Half` | BouncyBall/src/BouncyBall.cs:35 | `radius/2` truncates toward zero: twice the result is within one of the radius, on the radius's side of zero |
| `Physics.Trunc` | BouncyBall/src/BouncyBall.cs:71 | the `(int)` cast drops the fraction toward zero: the result is smaller in magnitude by less than 1 and never has the opposite sign |
| `Physics.Bounce` | BouncyBall/src/BouncyBall.cs:34-37 | at a side wall the horizontal velocity is reversed and its magnitude scaled by 0.99; away from the walls it is unchanged; it never grows |
| `Physics.Drag` | BouncyBall/src/BouncyBall.cs:39-51 | after air resistance and the small-speed cut-off the velocity is 0 or at least 0.025 in magnitude; if not 0 it lost exactly 0.02 and kept its sign; it never grows, and a speed of at least 0.045 is never zeroed |
| `Physics.NextVx` | BouncyBall/src/BouncyBall.cs:34-51 | the new horizontal velocity is 0 or of magnitude at least 0.025, and no faster than before the tick |
| `Physics.NextX` | BouncyBall/src/BouncyBall.cs:53-65 | the new x is at least `radius/2`; away from both borders the ball moves by `2 * v`; crossing the left border it is put at `radius/2`; past the right border it ends at `width - radius/2 + v`, or at `radius/2` if that is left of the left border |
| `Physics.NextVy` | BouncyBall/src/BouncyBall.cs:69-74 | on floor contact the new vertical velocity is an integer whose magnitude is at most, and less than 1 below, 0.9 times the old one, with the opposite sign or 0; in the air it grows by exactly 1 |
| `Physics.NextY` | BouncyBall/src/BouncyBall.cs:76-81 | y moves by the velocity when `y + v + 1 + radius <= height`, and otherwise is set to `height - radius`, so a ball ending within 1 of the floor is put on it; the ball's bottom is never below the floor (`y + radius <= height`) |
| `Physics.Step` | BouncyBall/src/BouncyBall.cs:31-82 | after one tick, from any starting state: `x >= radius/2`, `y + radius <= height`, the horizontal velocity is 0 or at least 0.025 in magnitude and no larger than before |
| `Physics.Run` | BouncyBall/src/BouncyBall.cs:31-82 | after any positive number of ticks the same bounds hold; horizontal speed never grows; a ball stopped horizontally stays stopped |
| `Physics.RightBoundOvershoot` | BouncyBall/src/BouncyBall.cs:53-65 | a ball at x = 570 with velocity 6 in a 600-wide window ends at 580.98, past `width - radius/2` = 575 |
| `Physics.FirstTickInTheAir` | BouncyBall/src/BouncyBall.cs:31-82 | a ball at (300, 0) with velocity (6, 0) in a 600 x 600 window ends the tick at (311.96, 1) with velocity (5.98, 1) |
| `Balls.Form.constructor` | BouncyBall/src/BouncyBall.cs:113 | the window has the requested width and height |
| `Balls.Outline` | BouncyBall/src/BouncyBall.cs:26 | the square drawn for a ball has side `radius`, and its corner lies within one pixel of the position less `radius/2` |
| `Balls.Ball.constructor` | BouncyBall/src/BouncyBall.cs:16-22 | the ball holds exactly the radius, arrays, colour and window it is given |
| `Balls.Ball.DrawBall` | BouncyBall/src/BouncyBall.cs:24-29 | the ball is drawn at its position before the tick, then advanced by exactly one `Step` |
| `Balls.Ball.Update` | BouncyBall/src/BouncyBall.cs:31-82 | the arrays afterwards hold `Step` of what they held before; `x >= radius/2` and `y + radius <= height`; only the two arrays change |
| `Balls.Ball.UpdateX` | BouncyBall/src/BouncyBall.cs:32-65 | the x-axis statements leave `NextVx` and `NextX` of the old x values in the arrays and the y values untouched |
| `Balls.Ball.UpdateY` | BouncyBall/src/BouncyBall.cs:67-81 | the y-axis statements leave `NextVy` and `NextY` of the old y values in the arrays and the x values untouched |
| `Simulation.Next` | BouncyBall/src/BouncyBall.cs:147 | `Next(lo, hi)` lies in `[lo, hi)`, and the sample that yields `r` lies in the slice `[(r - lo) / (hi - lo), (r - lo + 1) / (hi - lo))` |
| `Simulation.RightwardShare` | BouncyBall/src/BouncyBall.cs:154 | `Next(0, 10) > 5` holds exactly when the sample is at least 0.6, which is 40% of samples |
| `Simulation.LaunchSpeed` | BouncyBall/src/BouncyBall.cs:153-158 | the launch speed lies in 4..7 or -8..-5, and it is positive exactly when the direction sample is at least 0.6 |
| `Simulation.Admit` | BouncyBall/src/BouncyBall.cs:161-165 | below capacity the list becomes `old + [new]`; at capacity it becomes `old[1..] + [new]`; a list of at most 100 stays within 100 |
| `Simulation.SpawnedKeepsNewest` | BouncyBall/src/BouncyBall.cs:161-165 | spawning any run of balls into an empty list leaves exactly the last 100 spawned (all of them if fewer), in spawn order |
| `Simulation.OldestEvicted` | BouncyBall/src/BouncyBall.cs:163-165 | after 101 spawns the list is the last 100 spawned, so only the first one is evicted |
| `Simulation.Display.constructor` | BouncyBall/src/BouncyBall.cs:95-103 | a new display has a fresh window of the given size and no balls |
| `Simulation.Display.Click` | BouncyBall/src/BouncyBall.cs:143-166 | a fresh ball with radius 50, the click position, velocity `(LaunchSpeed, 0)`, fresh arrays and the sampled colour is admitted with `Admit`; the display stays valid, including at most 100 balls |
| `Simulation.Display.Reset` | BouncyBall/src/BouncyBall.cs:174-176 | the list is empty afterwards, from any size |
| `Simulation.Display.Paint` | BouncyBall/src/BouncyBall.cs:168-172 | each ball, front to back, is drawn at its old position and advanced by exactly one `Step`; the list, its length and its order are unchanged |

## Left out

- Window setup (`InitializeComponents` apart from the form's size), the
  title, the Reset button's layout and font, and `Program.Main`: UI
  configuration with no logic.
- Drawing: `SolidBrush` and `FillEllipse` are foreign rendering calls.
  `DrawBall` and `Paint` return the squares they would fill instead of
  painting them.
- Threads: `Start`, `Show`, `Render`, `Thread.Sleep(12)`, the `ThreadState`
  polling and `Application.Run`. Each refresh is one `Paint` call; `Run` gives
  n ticks of one ball's physics. The unsynchronised sharing of the list
  between the two threads is a concurrency concern outside a sequential model.
- `System.Random`: the generator is replaced by its samples in [0, 1). The
  model does not claim that consecutive samples are independent or uniform.
  `RightwardShare` and `Next` state which slice of samples gives each outcome.
- IEEE-754 doubles: positions and velocities are exact reals, so rounding
  (0.99, 0.02, 0.9 are not exact in binary) is not modelled.
- `Physics.Trunc`: does not model the C# cast of a double outside the `int`
  range, because the model's integers are unbounded.
- `Balls.Ball.Update`: written as two calls, `UpdateX` and `UpdateY`, along the
  code's own x-axis and y-axis sections. The statements inside each are the
  code's, in its order.
