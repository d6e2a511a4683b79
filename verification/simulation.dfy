/** The `Display`: the list of live balls, spawning a ball on a click, clearing
    the list on Reset, and the paint pass that draws and advances every ball.

    `System.Random` is replaced by its samples: each call `Next(lo, hi)` is fed
    a number `u` in [0, 1), as the generator's own `Sample()` would be. */
module Simulation {
  import opened Physics
  import opened Balls

  /** The capacity of the list (`maxBalls`). */
  const MaxBalls: nat := 100

  /** The radius of every spawned ball. */
  const SpawnRadius: int := 50

  /** `Random.Next(lo, hi)` for the sample `u`: `lo + (int)(u * (hi - lo))`.
      Each value of [lo, hi) is hit by a slice of [0, 1) of width 1 / (hi - lo). */
  function Next(lo: int, hi: int, u: real): (r: int)
    requires lo <= hi
    requires 0.0 <= u < 1.0
    ensures lo < hi ==> lo <= r < hi
    ensures lo == hi ==> r == lo
    ensures lo < hi ==> (r - lo) as real <= u * (hi - lo) as real < (r - lo + 1) as real
  {
    var d := (hi - lo) as real;
    assert 0.0 <= u * d;
    assert lo < hi ==> u * d < d by {
      if lo < hi { assert d - u * d == (1.0 - u) * d; }
    }
    var n := Trunc(u * d);
    assert n as real <= u * d < n as real + 1.0;
    lo + n
  }

  /** `Next(0, 10) > 5` holds for the top four tenths of the samples, not for half. */
  lemma RightwardShare(u: real)
    requires 0.0 <= u < 1.0
    ensures Next(0, 10, u) > 5 <==> u >= 0.6
  {
  }

  /** The horizontal launch speed of a spawned ball from the direction sample
      and the speed sample: 4 to 7 to the right, for the top 40% of direction
      samples, and -8 to -5 to the left otherwise. */
  function LaunchSpeed(direction: real, speed: real): (v: int)
    requires 0.0 <= direction < 1.0 && 0.0 <= speed < 1.0
    ensures 4 <= v <= 7 || -8 <= v <= -5
    ensures v > 0 <==> direction >= 0.6
  {
    RightwardShare(direction);
    if Next(0, 10, direction) > 5 then Next(4, 8, speed) else Next(-8, -4, speed)
  }

  /** The list after one ball is added at the back: `Add`, then, once the count
      passes the capacity, the front ball is removed. Below capacity the list
      grows by one; at or above it the oldest entry makes way for the new one. */
  function Admit<T>(q: seq<T>, b: T): (r: seq<T>)
    ensures |q| < MaxBalls ==> r == q + [b] && |r| == |q| + 1
    ensures |q| >= MaxBalls ==> r == q[1..] + [b] && |r| == |q|
    ensures |q| <= MaxBalls ==> |r| <= MaxBalls
  {
    var added := q + [b];
    if |added| > MaxBalls then added[1..] else added
  }

  /** The list after the balls `bs` are spawned one by one into an empty list. */
  function Spawned<T>(bs: seq<T>): (r: seq<T>)
  {
    if bs == [] then [] else Admit(Spawned(bs[..|bs| - 1]), bs[|bs| - 1])
  }

  /** The last `MaxBalls` entries of `bs`, or all of them if there are fewer. */
  function Newest<T>(bs: seq<T>): (r: seq<T>) {
    if |bs| <= MaxBalls then bs else bs[|bs| - MaxBalls..]
  }

  /** Admitting one more ball keeps the list equal to the newest entries. */
  lemma AdmitNewest<T>(bs: seq<T>, b: T)
    ensures Admit(Newest(bs), b) == Newest(bs + [b])
  {
  }

  /** After any run of spawns into an empty list the list holds exactly the
      last `MaxBalls` balls spawned (all of them, if fewer), in spawn order. */
  lemma {:induction false} SpawnedKeepsNewest<T>(bs: seq<T>)
    ensures Spawned(bs) == Newest(bs)
  {
    if bs != [] {
      var front, last := bs[..|bs| - 1], bs[|bs| - 1];
      SpawnedKeepsNewest(front);
      AdmitNewest(front, last);
      assert front + [last] == bs;
    }
  }

  /** Spawning `MaxBalls + 1` balls leaves out only the first one. */
  lemma OldestEvicted<T>(bs: seq<T>)
    requires |bs| == MaxBalls + 1
    ensures Spawned(bs) == bs[1..]
    ensures |Spawned(bs)| == MaxBalls
    ensures bs[|bs| - 1] in Spawned(bs)
  {
    SpawnedKeepsNewest(bs);
  }

  class Display {
    const form: Form
    var balls: seq<Ball>

    /** At most `MaxBalls` balls, all in this window, each with arrays of its own. */
    ghost predicate Valid()
      reads this
    {
      |balls| <= MaxBalls &&
      (forall i :: 0 <= i < |balls| ==> balls[i].Valid() && balls[i].form == form) &&
      (forall i, j :: 0 <= i < |balls| && 0 <= j < |balls| && i != j ==>
         balls[i].position != balls[j].position &&
         balls[i].position != balls[j].velocity &&
         balls[i].velocity != balls[j].velocity)
    }

    /** The arrays the balls' physics writes to. */
    ghost function Arrays(): set<array<real>>
      reads this
    {
      (set b | b in balls :: b.position) + (set b | b in balls :: b.velocity)
    }

    /** A display whose window has the given size, with no balls. */
    constructor (width: int, height: int)
      ensures Valid() && fresh(form)
      ensures form.width == width && form.height == height
      ensures balls == []
    {
      form := new Form(width, height);
      balls := [];
    }

    /** A click at (x, y): a ball of radius 50 with a random colour is placed at
        the click, moving sideways at `LaunchSpeed`, and added at the back of the
        list; past capacity the front ball is evicted. */
    method Click(x: int, y: int, red: real, green: real, blue: real, direction: real, speed: real)
      requires Valid()
      requires 0.0 <= red < 1.0 && 0.0 <= green < 1.0 && 0.0 <= blue < 1.0
      requires 0.0 <= direction < 1.0 && 0.0 <= speed < 1.0
      modifies this
      ensures Valid()
      ensures |balls| > 0 && balls == Admit(old(balls), balls[|balls| - 1])
      ensures var b := balls[|balls| - 1];
        fresh(b) && fresh(b.position) && fresh(b.velocity) &&
        b.radius == SpawnRadius && b.form == form &&
        b.position[..] == [x as real, y as real] &&
        b.velocity[..] == [LaunchSpeed(direction, speed) as real, 0.0] &&
        b.color == Color(Next(0, 255, red), Next(0, 255, green), Next(0, 255, blue))
    {
      var color := Color(Next(0, 255, red), Next(0, 255, green), Next(0, 255, blue));
      var radius := SpawnRadius;
      var position := new real[] [x as real, y as real];
      var velocity := new real[] [LaunchSpeed(direction, speed) as real, 0.0];
      var ball := new Ball(radius, position, velocity, color, form);
      balls := balls + [ball];
      // `Remove(balls[0])` removes the first ball equal to the front one: the front one.
      if |balls| > MaxBalls {
        balls := balls[1..];
      }
    }

    /** The Reset button: the list is emptied, whatever its length. */
    method Reset()
      requires Valid()
      modifies this
      ensures Valid() && balls == []
    {
      balls := [];
    }

    /** The paint pass: each ball, front to back, is drawn and then advanced by
        exactly one tick. The list itself, its length and its order, is untouched. */
    method Paint() returns (drawn: seq<Ellipse>)
      requires Valid()
      modifies Arrays()
      ensures Valid() && balls == old(balls)
      ensures |drawn| == |balls|
      ensures forall k :: 0 <= k < |balls| ==>
        drawn[k] == Outline(old(balls[k].State()), balls[k].radius) &&
        balls[k].State() == Step(old(balls[k].State()), balls[k].radius, form.width, form.height)
    {
      drawn := [];
      var i := 0;
      while i < |balls|
        invariant 0 <= i <= |balls| && |drawn| == i
        invariant forall k :: 0 <= k < i ==>
          drawn[k] == Outline(old(balls[k].State()), balls[k].radius) &&
          balls[k].State() == Step(old(balls[k].State()), balls[k].radius, form.width, form.height)
        invariant forall k :: i <= k < |balls| ==> balls[k].State() == old(balls[k].State())
      {
        var ball := balls[i];
        var box := ball.DrawBall();
        drawn := drawn + [box];
        i := i + 1;
      }
    }
  }
}
