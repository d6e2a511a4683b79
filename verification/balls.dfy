/** The `Ball` of the demo and the window it bounces in.

    In the code `Ball` is a struct, but its position and velocity are array
    references: every copy of a ball shares the same two arrays, and `Update`
    writes through them. The model therefore makes `Ball` a class whose fields
    never change (radius, colour, window and the two array references) and whose
    `Update` writes into the two arrays only. */
module Balls {
  import opened Physics

  /** The window; only its size is read by the physics. */
  class Form {
    var width: int
    var height: int

    constructor (width: int, height: int)
      ensures this.width == width && this.height == height
    {
      this.width := width;
      this.height := height;
    }
  }

  /** A colour, opaque to the physics. */
  datatype Color = Color(red: int, green: int, blue: int)

  /** The rectangle `FillEllipse` is given: the square around the ball. */
  datatype Ellipse = Ellipse(left: int, top: int, width: int, height: int)

  /** The square the ball is drawn in: its corner is the position less `radius/2`,
      cast to `int`, so the corner lies within one pixel of that point. */
  function Outline(s: BallState, radius: int): (e: Ellipse)
    ensures Abs(e.left as real - (s.x - Half(radius) as real)) < 1.0
    ensures Abs(e.top as real - (s.y - Half(radius) as real)) < 1.0
    ensures e.width == radius && e.height == radius
  {
    Ellipse(Trunc(s.x - Half(radius) as real), Trunc(s.y - Half(radius) as real), radius, radius)
  }

  class Ball {
    const radius: int
    const position: array<real>
    const velocity: array<real>
    const color: Color
    const form: Form

    /** Two coordinates each, in two different arrays. */
    ghost predicate Valid() {
      position.Length == 2 && velocity.Length == 2 && position != velocity
    }

    /** The values held in the two arrays. */
    ghost function State(): BallState
      requires Valid()
      reads position, velocity
    {
      BallState(position[0], position[1], velocity[0], velocity[1])
    }

    constructor (radius: int, position: array<real>, velocity: array<real>, color: Color, form: Form)
      ensures this.radius == radius && this.position == position && this.velocity == velocity
      ensures this.color == color && this.form == form
    {
      this.radius := radius;
      this.position := position;
      this.velocity := velocity;
      this.color := color;
      this.form := form;
    }

    /** Draws the ball where it is, then advances it one tick. */
    method DrawBall() returns (drawn: Ellipse)
      requires Valid()
      modifies position, velocity
      ensures drawn == Outline(old(State()), radius)
      ensures State() == Step(old(State()), radius, form.width, form.height)
    {
      drawn := Outline(BallState(position[0], position[1], velocity[0], velocity[1]), radius);
      Update();
    }

    /** One physics tick, written in place step by step; each step reads what
        the step before it wrote. Afterwards the ball is right of `radius/2` and
        not below the floor, and nothing but the two arrays has changed. */
    method Update()
      requires Valid()
      modifies position, velocity
      ensures State() == Step(old(State()), radius, form.width, form.height)
      ensures position[0] >= Half(radius) as real
      ensures position[1] + radius as real <= form.height as real
    {
      UpdateX();
      UpdateY();
    }

    /** The x-axis half of `Update`. */
    method UpdateX()
      requires Valid()
      modifies position, velocity
      ensures velocity[0] == NextVx(old(position[0]), old(velocity[0]), Half(radius), form.width)
      ensures position[0] == NextX(old(position[0]), velocity[0], Half(radius), form.width)
      ensures position[1] == old(position[1]) && velocity[1] == old(velocity[1])
    {
      var half := Half(radius) as real;
      var width := form.width as real;
      ghost var x, vx := position[0], velocity[0];

      // left and right border
      if position[0] - half <= 0.0 || position[0] + half >= width {
        velocity[0] := -(velocity[0] * 0.99);
      }
      assert velocity[0] == Bounce(x, vx, Half(radius), form.width);
      // air resistance
      if velocity[0] > 0.0 {
        velocity[0] := velocity[0] - 0.02;
      } else if velocity[0] < 0.0 {
        velocity[0] := velocity[0] + 0.02;
      }
      // remove small velocity
      if velocity[0] < 0.025 && velocity[0] > -0.025 {
        velocity[0] := 0.0;
      }
      // right border
      if position[0] + velocity[0] + half <= width {
        position[0] := position[0] + velocity[0];
      } else if position[0] + velocity[0] + half >= width {
        position[0] := width - half;
      }
      // left border
      if position[0] + velocity[0] - half >= 0.0 {
        position[0] := position[0] + velocity[0];
      } else if position[0] + velocity[0] - half <= 0.0 {
        position[0] := half;
      }
    }

    /** The y-axis half of `Update`. */
    method UpdateY()
      requires Valid()
      modifies position, velocity
      ensures velocity[1] == NextVy(old(position[1]), old(velocity[1]), radius, form.height)
      ensures position[1] == NextY(old(position[1]), velocity[1], radius, form.height)
      ensures position[0] == old(position[0]) && velocity[0] == old(velocity[0])
    {
      var height := form.height as real;

      // ground and gravity
      if position[1] + radius as real >= height {
        velocity[1] := -(Trunc(velocity[1] * 0.9) as real);
      } else {
        velocity[1] := velocity[1] + 1.0;
      }
      if position[1] + velocity[1] + 1.0 + radius as real <= height {
        position[1] := position[1] + velocity[1];
      } else {
        position[1] := height - radius as real;
      }
    }
  }
}
