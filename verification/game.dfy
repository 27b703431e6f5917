/** The mutable side of the Arcanoid game: the ball and the paddle objects
    that a `Game` updates in place every tick, the view models it publishes
    to, and the drag handler that moves the paddle. Each method is proved
    against the pure functions of module Physics. */
module Arcanoid {
  import opened Physics

  /** The ball. Only `position` and `direction` change; `velocity` is never read. */
  class Ball {
    var size: int
    var position: Vector
    var direction: Vector
    var velocity: real

    constructor (posX: real, posY: real)
      ensures size == BallSize && velocity == 1.0
      ensures Motion() == BallMotion(Vector(posX, posY), Vector(1.0, 1.0))
    {
      size := BallSize;
      position := Vector(posX, posY);
      direction := Vector(1.0, 1.0);
      velocity := 1.0;
    }

    function Motion(): BallMotion
      reads this
    {
      BallMotion(position, direction)
    }
  }

  /** The game's own copy of the paddle, refreshed at the start of every tick. */
  class Platform {
    var position: Vector
    var width: real

    constructor ()
      ensures AsPaddle() == Paddle(Vector(0.0, 0.0), 0.0)
    {
      position := Vector(0.0, 0.0);
      width := 0.0;
    }

    function AsPaddle(): Paddle
      reads this
    {
      Paddle(position, width)
    }
  }

  /** What the ball view shows: where the ball is and how large it is. */
  datatype BallState = BallState(position: Vector, size: int)

  class BallViewModel {
    var coordinates: BallState

    constructor ()
      ensures coordinates == BallState(Vector(0.0, 0.0), 0)
    {
      coordinates := BallState(Vector(0.0, 0.0), 0);
    }

    /** Publishes a new ball state. */
    method UpdateState(ballSize: int, x: real, y: real)
      modifies this
      ensures coordinates == BallState(Vector(x, y), ballSize)
    {
      coordinates := BallState(Vector(x, y), ballSize);
    }
  }

  /** What the menu shows: its initial text, or the last bounce ratio reported
      (the game shows the ratio as text; the model keeps the number). */
  datatype MenuState = InitialState | BounceRatio(ratio: real)

  class MenuViewModel {
    var state: MenuState

    constructor ()
      ensures state == InitialState
    {
      state := InitialState;
    }
  }

  /** The menu after a paddle check: a reported ratio replaces what was shown. */
  function Reported(shown: MenuState, ratio: Option<real>): MenuState
  {
    if ratio.Some? then BounceRatio(ratio.value) else shown
  }

  /** The paddle position and width as set by the drag handler. */
  class PlatformViewModel {
    var position: Vector
    var width: real

    constructor ()
      ensures AsPaddle() == Paddle(Vector(0.0, 0.0), 0.0)
    {
      position := Vector(0.0, 0.0);
      width := 0.0;
    }

    function AsPaddle(): Paddle
      reads this
    {
      Paddle(position, width)
    }

    /** Replaces position and width together. */
    method UpdateCoordinates(pos: Vector, width: real)
      modifies this
      ensures AsPaddle() == Paddle(pos, width)
    {
      this.position := pos;
      this.width := width;
    }
  }

  /** The game: one ball and one paddle in a fixed screen. The ball and the
      paddle objects are never replaced, only updated. */
  class Game {
    const screenWidth: int
    const screenHeight: int
    const ball: Ball
    const platform: Platform
    const ballViewModel: BallViewModel
    const platformViewModel: PlatformViewModel
    const menuViewModel: MenuViewModel

    /** The ball keeps its size and moves one unit per axis and tick. */
    ghost predicate Valid()
      reads this, ball
    {
      ball.size == BallSize && UnitDirection(ball.Motion())
    }

    constructor (screenWidth: int, screenHeight: int)
      ensures Valid()
      ensures this.screenWidth == screenWidth && this.screenHeight == screenHeight
      ensures ball.Motion() == InitialMotion && ball.velocity == 1.0
      ensures platform.AsPaddle() == Paddle(Vector(0.0, 0.0), 0.0)
      ensures platformViewModel.AsPaddle() == Paddle(Vector(0.0, 0.0), 0.0)
      ensures ballViewModel.coordinates == BallState(Vector(0.0, 0.0), 0)
      ensures menuViewModel.state == InitialState
      ensures fresh(ball) && fresh(platform)
      ensures fresh(ballViewModel) && fresh(platformViewModel) && fresh(menuViewModel)
    {
      this.screenWidth := screenWidth;
      this.screenHeight := screenHeight;
      ball := new Ball(0.0, 0.0);
      platform := new Platform();
      ballViewModel := new BallViewModel();
      platformViewModel := new PlatformViewModel();
      menuViewModel := new MenuViewModel();
    }

    /** One tick: copy the paddle from its view model, move the ball, run the
        paddle check and then the border check, and publish the ball. */
    method UpdateState()
      requires Valid()
      modifies ball, platform, ballViewModel, menuViewModel
      ensures Valid()
      ensures platform.AsPaddle() == platformViewModel.AsPaddle()
      ensures var o := Step(old(ball.Motion()), platformViewModel.AsPaddle(), BallSize, screenWidth, screenHeight);
              ball.Motion() == o.motion && menuViewModel.state == Reported(old(menuViewModel.state), o.ratio)
      ensures ballViewModel.coordinates == BallState(ball.position, BallSize)
      ensures ball.velocity == old(ball.velocity)
    {
      platform.position := platformViewModel.position;
      platform.width := platformViewModel.width;

      UpdateBallPosition();
      CheckPlatformCollision();
      CheckBordersCollision();

      ballViewModel.UpdateState(ball.size, ball.position.x, ball.position.y);
    }

    /** Moves the ball by its direction. */
    method UpdateBallPosition()
      modifies ball
      ensures ball.Motion() == Advanced(old(ball.Motion()))
      ensures ball.size == old(ball.size) && ball.velocity == old(ball.velocity)
    {
      var currentPosition := ball.position;
      var direction := ball.direction;

      var newPositionX := currentPosition.x + direction.x;
      var newPositionY := currentPosition.y + direction.y;

      ball.position := Vector(newPositionX, newPositionY);
    }

    /** Bounces the ball off the paddle and reports where it landed. */
    method CheckPlatformCollision()
      modifies ball, menuViewModel
      ensures var o := PlatformBounce(old(ball.Motion()), platform.AsPaddle());
              ball.Motion() == o.motion && menuViewModel.state == Reported(old(menuViewModel.state), o.ratio)
      ensures ball.size == old(ball.size) && ball.velocity == old(ball.velocity)
    {
      if ball.position.y >= platform.position.y
         && ball.position.x < platform.position.x + platform.width
         && ball.position.x > platform.position.x
      {
        var currentDirection := ball.direction;
        var newDirection := Vector(currentDirection.x, -currentDirection.y);
        ball.direction := newDirection;

        var collisionPointToPlatformWidthRatio :=
          CollisionRatio(ball.position.x, platform.position.x, platform.width);

        menuViewModel.state := BounceRatio(collisionPointToPlatformWidthRatio);
      }
    }

    /** Bounces the ball off the screen borders, one axis after the other. */
    method CheckBordersCollision()
      modifies ball
      ensures ball.Motion() == BorderBounce(old(ball.Motion()), old(ball.size), screenWidth, screenHeight)
      ensures ball.size == old(ball.size) && ball.velocity == old(ball.velocity)
    {
      if ball.position.x + ball.size as real > screenWidth as real || ball.position.x < 0.0 {
        var currentDirection := ball.direction;
        var newDirection := Vector(-currentDirection.x, currentDirection.y);
        ball.direction := newDirection;
      }
      if ball.position.y + ball.size as real > screenHeight as real || ball.position.y < 0.0 {
        var currentDirection := ball.direction;
        var newDirection := Vector(currentDirection.x, -currentDirection.y);
        ball.direction := newDirection;
      }
    }
  }

  /** The drag guard: the paddle may only be moved to where it lies strictly
      inside the screen. */
  predicate InsideScreen(offset: real, width: real, screenSize: int)
  {
    offset > 0.0 && offset + width < screenSize as real
  }

  /** The draggable paddle: its horizontal offset, its measured width and top,
      and the view model it reports accepted positions to. */
  class PlatformContainer {
    var offsetX: real
    var width: int
    var posY: real
    const screenSize: int
    const platformViewModel: PlatformViewModel

    /** Either no drag has been accepted yet (the offset is still 0), or the
        view model holds the accepted offset and lies strictly on screen. */
    ghost predicate Valid()
      reads this, platformViewModel
    {
      offsetX == 0.0
      || (platformViewModel.position.x == offsetX
          && InsideScreen(platformViewModel.position.x, platformViewModel.width, screenSize))
    }

    constructor (screenSize: int, platformViewModel: PlatformViewModel)
      ensures Valid()
      ensures offsetX == 0.0 && width == 0 && posY == 0.0
      ensures this.screenSize == screenSize && this.platformViewModel == platformViewModel
    {
      offsetX := 0.0;
      width := 0;
      posY := 0.0;
      this.screenSize := screenSize;
      this.platformViewModel := platformViewModel;
    }

    /** Layout has measured the paddle: record its width and its top. */
    method OnGloballyPositioned(measuredWidth: int, top: real)
      requires Valid()
      modifies this`width, this`posY
      ensures Valid()
      ensures width == measuredWidth && posY == top
    {
      width := measuredWidth;
      posY := top;
    }

    /** A horizontal drag by `delta`: accepted only if the moved paddle stays
        strictly inside the screen; then the offset and the view model move
        together, otherwise nothing changes. */
    method Drag(delta: real) returns (accepted: bool)
      requires Valid()
      modifies this`offsetX, platformViewModel
      ensures Valid()
      ensures accepted <==> InsideScreen(old(offsetX) + delta, width as real, screenSize)
      ensures accepted ==> offsetX == old(offsetX) + delta
                           && platformViewModel.AsPaddle() == Paddle(Vector(offsetX, posY), width as real)
      ensures !accepted ==> offsetX == old(offsetX) && unchanged(platformViewModel)
    {
      var newOffset := offsetX + delta;

      accepted := newOffset > 0.0 && newOffset + width as real < screenSize as real;
      if accepted {
        offsetX := newOffset;
        var newPosition := Vector(newOffset, posY);
        platformViewModel.UpdateCoordinates(newPosition, width as real);
      }
    }
  }
}
