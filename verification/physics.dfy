/** Pure model of one tick of the Arcanoid ball physics: the ball moves by its
    direction, bounces off the paddle ("platform") and off the four screen
    borders. Positions are exact reals (the game's Floats without rounding);
    the ball size and the screen dimensions are integers, as in the game. */
module Physics {

  /** A point or a per-tick displacement (the game's `Vector` data class). */
  datatype Vector = Vector(x: real, y: real)

  datatype Option<T> = None | Some(value: T)

  /** The paddle as the simulation sees it: its top-left corner and its width. */
  datatype Paddle = Paddle(position: Vector, width: real)

  /** The part of a ball that a tick changes: where it is and where it goes. */
  datatype BallMotion = BallMotion(position: Vector, direction: Vector)

  /** The new motion after a step, and the bounce ratio when the paddle was hit. */
  datatype Outcome = Outcome(motion: BallMotion, ratio: Option<real>)

  /** Every ball is created with size 10. */
  const BallSize: int := 10

  /** A new ball sits at the origin and moves one unit right and one unit down. */
  const InitialMotion: BallMotion := BallMotion(Vector(0.0, 0.0), Vector(1.0, 1.0))

  function Abs(r: real): real { if r < 0.0 then -r else r }

  predicate IsUnit(r: real) { r == 1.0 || r == -1.0 }

  /** Both direction components are +1 or -1. */
  predicate UnitDirection(m: BallMotion) { IsUnit(m.direction.x) && IsUnit(m.direction.y) }

  /** The direction components keep the magnitudes of `m`'s. */
  predicate SameSpeed(m: BallMotion, m': BallMotion)
  {
    Abs(m'.direction.x) == Abs(m.direction.x) && Abs(m'.direction.y) == Abs(m.direction.y)
  }

  /** Advancing the ball: the displacement is exactly the direction, which stays. */
  function Advanced(m: BallMotion): (r: BallMotion)
    ensures r.direction == m.direction
    ensures r.position.x - m.position.x == m.direction.x
    ensures r.position.y - m.position.y == m.direction.y
  {
    BallMotion(Vector(m.position.x + m.direction.x, m.position.y + m.direction.y), m.direction)
  }

  /** The paddle test: the ball has reached the paddle's top edge and lies
      strictly between its left and right edges. */
  predicate PlatformHit(p: Vector, pad: Paddle)
  {
    p.y >= pad.position.y && p.x < pad.position.x + pad.width && p.x > pad.position.x
  }

  /** Where along the paddle the ball landed, as a fraction of the paddle width. */
  function CollisionRatio(ballX: real, platformX: real, platformWidth: real): (r: real)
    requires platformWidth != 0.0
    ensures platformX + r * platformWidth == ballX
    ensures platformX < ballX < platformX + platformWidth ==> 0.0 < r < 1.0
  {
    var offset := ballX - platformX;
    assert platformX < ballX < platformX + platformWidth ==> 0.0 < offset / platformWidth < 1.0 by {
      if platformX < ballX < platformX + platformWidth {
        RatioBounds(offset, platformWidth);
      }
    }
    offset / platformWidth
  }

  lemma RatioBounds(offset: real, width: real)
    requires 0.0 < offset < width
    ensures 0.0 < offset / width < 1.0
  {
    var q := offset / width;
    assert q * width == offset;
    if q >= 1.0 {
      assert false;
    }
  }

  /** The paddle check: on a hit only `direction.y` is negated and the bounce
      ratio is reported; otherwise nothing changes and nothing is reported. */
  function PlatformBounce(m: BallMotion, pad: Paddle): (r: Outcome)
    ensures r.motion.position == m.position
    ensures r.motion.direction.x == m.direction.x
    ensures SameSpeed(m, r.motion)
    ensures r.motion.direction.y != m.direction.y <==> PlatformHit(m.position, pad) && m.direction.y != 0.0
    ensures r.ratio.Some? <==> PlatformHit(m.position, pad)
    ensures PlatformHit(m.position, pad) ==> pad.width > 0.0
    ensures r.ratio.Some? ==>
              0.0 < r.ratio.value < 1.0 && pad.position.x + r.ratio.value * pad.width == m.position.x
  {
    if PlatformHit(m.position, pad) then
      Outcome(BallMotion(m.position, Vector(m.direction.x, -m.direction.y)),
              Some(CollisionRatio(m.position.x, pad.position.x, pad.width)))
    else
      Outcome(m, None)
  }

  /** The ball `[c, c + size]` sticks out of `[0, limit]` on one axis; the
      far-edge test is strict, so touching the border is not a collision. */
  predicate OutOfBounds(c: real, size: int, limit: int)
  {
    c + size as real > limit as real || c < 0.0
  }

  /** The border check: each axis is tested on its own and its direction
      component is negated when the ball is out of bounds on that axis. */
  function BorderBounce(m: BallMotion, size: int, screenWidth: int, screenHeight: int): (r: BallMotion)
    ensures r.position == m.position
    ensures SameSpeed(m, r)
    ensures r.direction.x != m.direction.x <==>
              OutOfBounds(m.position.x, size, screenWidth) && m.direction.x != 0.0
    ensures r.direction.y != m.direction.y <==>
              OutOfBounds(m.position.y, size, screenHeight) && m.direction.y != 0.0
  {
    var dx := if OutOfBounds(m.position.x, size, screenWidth) then -m.direction.x else m.direction.x;
    var dy := if OutOfBounds(m.position.y, size, screenHeight) then -m.direction.y else m.direction.y;
    BallMotion(m.position, Vector(dx, dy))
  }

  /** One tick after the paddle has been synced: move, then the paddle check,
      then the border check. `direction.x` flips exactly when the moved ball is
      out of bounds horizontally, whatever the paddle does; `direction.y` flips
      exactly when one, but not both, of the paddle test and the vertical
      border test fires, so the two negations cancel. */
  function Step(m: BallMotion, pad: Paddle, size: int, screenWidth: int, screenHeight: int): (r: Outcome)
    ensures r.motion.position == Advanced(m).position
    ensures SameSpeed(m, r.motion)
    ensures UnitDirection(m) ==> UnitDirection(r.motion)
    ensures var p := Advanced(m).position;
            r.motion.direction.x == (if OutOfBounds(p.x, size, screenWidth) then -m.direction.x else m.direction.x)
    ensures var p := Advanced(m).position;
            r.motion.direction.y == (if PlatformHit(p, pad) != OutOfBounds(p.y, size, screenHeight)
                                     then -m.direction.y else m.direction.y)
    ensures r.ratio.Some? <==> PlatformHit(Advanced(m).position, pad)
    ensures r.ratio.Some? ==>
              0.0 < r.ratio.value < 1.0 && pad.position.x + r.ratio.value * pad.width == Advanced(m).position.x
  {
    var hit := PlatformBounce(Advanced(m), pad);
    Outcome(BorderBounce(hit.motion, size, screenWidth, screenHeight), hit.ratio)
  }

  /** The ball after one tick per paddle position in `pads` (the paddle as synced
      at the start of each tick). */
  function Run(m: BallMotion, pads: seq<Paddle>, size: int, screenWidth: int, screenHeight: int): BallMotion
    decreases |pads|
  {
    if pads == [] then m
    else Run(Step(m, pads[0], size, screenWidth, screenHeight).motion, pads[1..], size, screenWidth, screenHeight)
  }

  /** The paddle and the border reflections are independent: running the border
      check before the paddle check gives the same motion and the same ratio. */
  lemma ReflectionsCommute(m: BallMotion, pad: Paddle, size: int, screenWidth: int, screenHeight: int)
    ensures var hitFirst := PlatformBounce(m, pad);
            var bordersFirst := PlatformBounce(BorderBounce(m, size, screenWidth, screenHeight), pad);
            BorderBounce(hitFirst.motion, size, screenWidth, screenHeight) == bordersFirst.motion
            && hitFirst.ratio == bordersFirst.ratio
  {
  }

  /** The border test is strict at the far edge: a ball exactly touching the
      right border keeps its direction, one past it by any amount turns. */
  lemma BorderEdgeIsExclusive(m: BallMotion, size: int, screenWidth: int, screenHeight: int)
    requires size <= screenWidth && m.direction.x != 0.0
    ensures m.position.x == (screenWidth - size) as real ==>
              BorderBounce(m, size, screenWidth, screenHeight).direction.x == m.direction.x
    ensures m.position.x > (screenWidth - size) as real ==>
              BorderBounce(m, size, screenWidth, screenHeight).direction.x == -m.direction.x
  {
  }

  /** A paddle at (100, 400), 80 wide: a ball at (130, 399) moving (1, 1)
      reaches y = 400 at x = 131, bounces up and reports 31/80. */
  lemma PaddleBounceExample()
    ensures Step(BallMotion(Vector(130.0, 399.0), Vector(1.0, 1.0)), Paddle(Vector(100.0, 400.0), 80.0), BallSize, 360, 640)
            == Outcome(BallMotion(Vector(131.0, 400.0), Vector(1.0, -1.0)), Some(31.0 / 80.0))
  {
  }

  /** Every tick keeps both direction components at +1 or -1. */
  lemma {:induction false} RunKeepsUnitDirection(
    m: BallMotion, pads: seq<Paddle>, size: int, screenWidth: int, screenHeight: int)
    requires UnitDirection(m)
    ensures UnitDirection(Run(m, pads, size, screenWidth, screenHeight))
    decreases |pads|
  {
    if pads != [] {
      var next := Step(m, pads[0], size, screenWidth, screenHeight).motion;
      RunKeepsUnitDirection(next, pads[1..], size, screenWidth, screenHeight);
    }
  }

  /** Any number of ticks keeps the magnitudes of both direction components. */
  lemma {:induction false} RunKeepsSpeed(
    m: BallMotion, pads: seq<Paddle>, size: int, screenWidth: int, screenHeight: int)
    ensures SameSpeed(m, Run(m, pads, size, screenWidth, screenHeight))
    decreases |pads|
  {
    if pads != [] {
      var next := Step(m, pads[0], size, screenWidth, screenHeight).motion;
      RunKeepsSpeed(next, pads[1..], size, screenWidth, screenHeight);
    }
  }

  /** Running two sequences of ticks one after the other is running their concatenation. */
  lemma {:induction false} RunAppend(
    m: BallMotion, a: seq<Paddle>, b: seq<Paddle>, size: int, screenWidth: int, screenHeight: int)
    ensures Run(m, a + b, size, screenWidth, screenHeight)
            == Run(Run(m, a, size, screenWidth, screenHeight), b, size, screenWidth, screenHeight)
    decreases |a|
  {
    if a != [] {
      assert (a + b)[0] == a[0] && (a + b)[1..] == a[1..] + b;
      RunAppend(Step(m, a[0], size, screenWidth, screenHeight).motion, a[1..], b, size, screenWidth, screenHeight);
    } else {
      assert a + b == b;
    }
  }

  /** A ball of size 10 moving right on a 360-wide screen, with its left edge
      in [0, 350 - n], keeps moving right for n ticks and advances by n. */
  lemma {:induction false} RunMovesRight(m: BallMotion, pads: seq<Paddle>, screenHeight: int)
    requires m.direction.x == 1.0 && 0.0 <= m.position.x && m.position.x + |pads| as real <= 350.0
    ensures var r := Run(m, pads, BallSize, 360, screenHeight);
            r.direction.x == 1.0 && r.position.x == m.position.x + |pads| as real
    decreases |pads|
  {
    if pads != [] {
      var next := Step(m, pads[0], BallSize, 360, screenHeight).motion;
      RunMovesRight(next, pads[1..], screenHeight);
    }
  }

  /** On a 360-wide screen a new ball first turns at a side wall on tick 351:
      after 350 ticks it is at x = 350 still moving right, whatever the paddle
      does, and the 351st tick reverses it. */
  lemma FirstSideBounce(pads: seq<Paddle>, screenHeight: int)
    requires |pads| == 351
    ensures var before := Run(InitialMotion, pads[..350], BallSize, 360, screenHeight);
            before.direction.x == 1.0 && before.position.x == 350.0
    ensures Run(InitialMotion, pads, BallSize, 360, screenHeight).direction.x == -1.0
  {
    RunMovesRight(InitialMotion, pads[..350], screenHeight);
    assert pads == pads[..350] + [pads[350]];
    RunAppend(InitialMotion, pads[..350], [pads[350]], BallSize, 360, screenHeight);
  }

  predicate IsIntegral(r: real) { r.Floor as real == r }

  /** A ball with integral coordinates and a unit direction keeps integral
      coordinates for ever, whatever the paddle does; so a new game's ball,
      which starts at the origin with direction (1, 1), only ever sits on
      whole pixels. */
  lemma {:induction false} RunKeepsIntegralPosition(
    m: BallMotion, pads: seq<Paddle>, size: int, screenWidth: int, screenHeight: int)
    requires UnitDirection(m) && IsIntegral(m.position.x) && IsIntegral(m.position.y)
    ensures var r := Run(m, pads, size, screenWidth, screenHeight);
            UnitDirection(r) && IsIntegral(r.position.x) && IsIntegral(r.position.y)
    decreases |pads|
  {
    if pads != [] {
      var next := Step(m, pads[0], size, screenWidth, screenHeight).motion;
      IntegralStep(m.position.x, m.direction.x);
      IntegralStep(m.position.y, m.direction.y);
      RunKeepsIntegralPosition(next, pads[1..], size, screenWidth, screenHeight);
    }
  }

  lemma IntegralStep(c: real, d: real)
    requires IsIntegral(c) && IsUnit(d)
    ensures IsIntegral(c + d)
  {
    var k := c.Floor;
    if d == 1.0 {
      assert c + d == (k + 1) as real;
    } else {
      assert c + d == (k - 1) as real;
    }
  }

  /** A new game's ball keeps a unit direction and whole-pixel coordinates. */
  lemma FromStart(pads: seq<Paddle>, size: int, screenWidth: int, screenHeight: int)
    ensures var r := Run(InitialMotion, pads, size, screenWidth, screenHeight);
            UnitDirection(r) && IsIntegral(r.position.x) && IsIntegral(r.position.y)
  {
    RunKeepsIntegralPosition(InitialMotion, pads, size, screenWidth, screenHeight);
  }
}
