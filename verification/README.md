# Arcanoid ball physics in Dafny

This project models the game core of a small Jetpack Compose Arcanoid prototype. Each tick, a `Game` does the following:

- copies the paddle ("platform") position and width from the paddle view model;
- moves the ball one step along its direction;
- negates the vertical direction when the ball is on the paddle, and reports where on the paddle it landed as a ratio of the paddle width;
- negates each direction component whose axis has the ball out of the screen;
- publishes the ball's position and size.

A drag handler moves the paddle. It accepts a new offset only while the paddle stays strictly inside the screen.

The project has two modules:

- `Physics` (`physics.dfy`) holds the tick as pure functions over values. These are `Vector`, `Paddle` and `BallMotion` (position and direction). The file also has the lemmas about a tick and about any number of ticks (`Run`).
- `Arcanoid` (`game.dfy`) holds the objects that the game updates in place: `Ball`, `Platform`, `BallViewModel`, `MenuViewModel`, `PlatformViewModel`, `Game` and the drag handler `PlatformContainer`. `Game`'s methods state the new ball state in terms of the `Physics` functions. `Game.UpdateState` is one tick, and its postcondition is `Physics.Step`.

Numbers: positions, directions, the paddle width and the ratio are exact `real`s, standing in for the game's `Float`s. The ball size and the screen dimensions are `int`s, as in the game.

Facts about the code that the model makes explicit:

- The ball moves by exactly `direction` each tick. The `velocity` field (MainActivity.kt:242) is never read.
- The strict paddle test (MainActivity.kt:172-174) implies a paddle width above 0. So the division at MainActivity.kt:200 is never by zero, and the ratio lies strictly in (0, 1) (`PlatformBounce`).
- On a 360-wide screen, a new ball starting at x = 0 first turns at a side wall on tick 351 (`FirstSideBounce`).

## Model

| member | source | states |
|---|---|---|
| `Physics.Advanced` | app/src/main/java/com/ponykamni/arcanoid/MainActivity.kt:222-230 | the ball is displaced by exactly its direction on each axis, and the direction is kept |
| `Physics.CollisionRatio` | app/src/main/java/com/ponykamni/arcanoid/MainActivity.kt:193-201 | the ratio r locates the ball on the paddle (`platformX + r * width == ballX`); it lies strictly in (0, 1) whenever the ball is strictly between the paddle edges |
| `Physics.PlatformBounce` | app/src/main/java/com/ponykamni/arcanoid/MainActivity.kt:171-191 | a ratio is reported exactly when the paddle test fires; a firing test implies width > 0 and a ratio in (0, 1) that locates the ball; position and `direction.x` are untouched; `direction.y` changes exactly when the test fires (and it is nonzero), keeping its magnitude |
| `Physics.BorderBounce` | app/src/main/java/com/ponykamni/arcanoid/MainActivity.kt:203-220 | position untouched and magnitudes kept; `direction.x` changes exactly when `x + size > screenWidth or x < 0`, and `direction.y` exactly when `y + size > screenHeight or y < 0`, each axis on its own |
| `Physics.Step` | app/src/main/java/com/ponykamni/arcanoid/MainActivity.kt:160-219 | one tick moves the ball by its direction and keeps the direction magnitudes (so a unit direction stays unit); `direction.x` is negated exactly when the moved ball is out of bounds horizontally, whatever the paddle does; `direction.y` is negated exactly when one, but not both, of the paddle test and the vertical border test fires, so the two negations cancel; a ratio is reported exactly when the moved ball is on the paddle, it lies in (0, 1) and it locates the moved ball on the paddle (`pad.x + ratio * width == x`) |
| `Physics.ReflectionsCommute` | app/src/main/java/com/ponykamni/arcanoid/MainActivity.kt:164-166 | running the border check before the paddle check gives the same motion and ratio, so the two reflections are independent |
| `Physics.BorderEdgeIsExclusive` | app/src/main/java/com/ponykamni/arcanoid/MainActivity.kt:204 | for a ball no larger than the screen (`size <= screenWidth`) with a nonzero `direction.x`: a ball at exactly `x == screenWidth - size` is not reflected; any x beyond it is |
| `Physics.PaddleBounceExample` | app/src/main/java/com/ponykamni/arcanoid/MainActivity.kt:171-201 | paddle at (100, 400), 80 wide, and ball at (130, 399) moving (1, 1): after one tick the ball is at (131, 400), moves (1, -1), and 31/80 is reported |
| `Physics.RunKeepsUnitDirection` | app/src/main/java/com/ponykamni/arcanoid/MainActivity.kt:171-220 | from a direction in {-1, 1} x {-1, 1}, any sequence of ticks with any paddles keeps it there |
| `Physics.RunKeepsSpeed` | app/src/main/java/com/ponykamni/arcanoid/MainActivity.kt:171-220 | any sequence of ticks keeps `abs(direction.x)` and `abs(direction.y)` |
| `Physics.RunKeepsIntegralPosition` | app/src/main/java/com/ponykamni/arcanoid/MainActivity.kt:222-230 | a ball with whole-number coordinates and a unit direction keeps whole-number coordinates on every tick |
| `Physics.FromStart` | app/src/main/java/com/ponykamni/arcanoid/MainActivity.kt:233-243 | a new ball, at (0, 0) moving (1, 1), keeps a unit direction and whole-number coordinates for any number of ticks |
| `Physics.RunAppend` | app/src/main/java/com/ponykamni/arcanoid/MainActivity.kt:92-98 | running two sequences of ticks one after the other is the same as running their concatenation |
| `Physics.RunMovesRight` | app/src/main/java/com/ponykamni/arcanoid/MainActivity.kt:203-230 | on a 360-wide screen, a size-10 ball moving right with its left edge in [0, 350 - n] keeps moving right for n ticks and advances by exactly n, whatever the paddle does |
| `Physics.FirstSideBounce` | app/src/main/java/com/ponykamni/arcanoid/MainActivity.kt:148-243 | on a 360-wide screen a new game's ball is at x = 350, still moving right, after 350 ticks, and moving left after tick 351 |
| `Arcanoid.Ball.constructor` | app/src/main/java/com/ponykamni/arcanoid/MainActivity.kt:233-243 | a new ball has size 10, velocity 1, the given position and direction (1, 1) |
| `Arcanoid.Platform.constructor` | app/src/main/java/com/ponykamni/arcanoid/MainActivity.kt:245-249 | a new platform is at (0, 0) with width 0 |
| `Arcanoid.BallViewModel.constructor` | app/src/main/java/com/ponykamni/arcanoid/MainActivity.kt:50-57 | the published ball state starts at (0, 0) with size 0 |
| `Arcanoid.BallViewModel.UpdateState` | app/src/main/java/com/ponykamni/arcanoid/MainActivity.kt:59-66 | the published state becomes the given position and size |
| `Arcanoid.MenuViewModel.constructor` | app/src/main/java/com/ponykamni/arcanoid/MainActivity.kt:129-132 | the menu starts in its initial state |
| `Arcanoid.PlatformViewModel.constructor` | app/src/main/java/com/ponykamni/arcanoid/MainActivity.kt:308-314 | the paddle view model starts at (0, 0) with width 0 |
| `Arcanoid.PlatformViewModel.UpdateCoordinates` | app/src/main/java/com/ponykamni/arcanoid/MainActivity.kt:316-319 | position and width are replaced together |
| `Arcanoid.Game.constructor` | app/src/main/java/com/ponykamni/arcanoid/MainActivity.kt:148-158 | a new game keeps the screen size; its fresh ball is at (0, 0) moving (1, 1) with size 10; the paddle and the view models are in their initial states; the invariant (size 10, unit direction) holds |
| `Arcanoid.Game.UpdateState` | app/src/main/java/com/ponykamni/arcanoid/MainActivity.kt:160-169 | the platform equals the paddle view model; the ball's new motion is `Step` of the old one with that paddle; the menu shows the ratio when one is reported and is unchanged otherwise; the published state is the new position with size 10; size 10 and the unit direction are kept |
| `Arcanoid.Game.UpdateBallPosition` | app/src/main/java/com/ponykamni/arcanoid/MainActivity.kt:222-230 | the ball's motion becomes `Advanced` of the old one; size and velocity unchanged |
| `Arcanoid.Game.CheckPlatformCollision` | app/src/main/java/com/ponykamni/arcanoid/MainActivity.kt:171-191 | the ball's motion becomes `PlatformBounce` against the platform; the menu shows the ratio exactly when the paddle test fires |
| `Arcanoid.Game.CheckBordersCollision` | app/src/main/java/com/ponykamni/arcanoid/MainActivity.kt:203-220 | the ball's motion becomes `BorderBounce` with the ball's size and the screen size |
| `Arcanoid.PlatformContainer.constructor` | app/src/main/java/com/ponykamni/arcanoid/MainActivity.kt:274-277 | offset 0, width 0, top 0; the drag invariant holds |
| `Arcanoid.PlatformContainer.OnGloballyPositioned` | app/src/main/java/com/ponykamni/arcanoid/MainActivity.kt:286-289 | the measured width and top are recorded; the view model is untouched and the invariant is kept |
| `Arcanoid.PlatformContainer.Drag` | app/src/main/java/com/ponykamni/arcanoid/MainActivity.kt:293-301 | a delta is accepted iff `newOffset > 0 and newOffset + width < screenSize`. On acceptance the offset and the view model's position and width move together; otherwise nothing changes. So any paddle position ever accepted lies strictly inside the screen (invariant `Valid`) |

## Left out

- The Compose UI is not modelled: `GameScreen`, `Menu`, `BallScreen`, the `Ball` and `Platform` composables, `DefaultPreview`, layout and drawing. It is presentation only.
- `MainActivity.onCreate` is not modelled. Its endless coroutine loop calls `updateState` with `delay(1)`. The model states one tick (`Game.UpdateState`) and any number of ticks (`Physics.Run`) instead.
- Concurrency is not modelled. This covers `@Volatile` on the paddle view model and a tick that might read a new position with an old width. `UpdateCoordinates` and `UpdateState` are modelled as sequential, atomic updates.
- `MutableStateFlow` emission is modelled as assigning the published state. `ratio.toString()` is modelled by keeping the number in `MenuState.BounceRatio` instead of the text.
- The screen queries `getScreenSize`, `getScreenWidthInPixels` and `getScreenDensity` are not modelled, because they are platform calls and DPI scaling. The screen sizes are parameters.
- Compose computes the drag `delta` and the measured size and top of the paddle. They are parameters of `Drag` and `OnGloballyPositioned`. Only the measured width is kept, because the height plays no part.
- IEEE `Float` rounding, NaN and infinities are not modelled. All arithmetic is exact.
- `Physics.CollisionRatio`: requires a nonzero width, where Kotlin's `Float` division by zero would yield an infinity or NaN. Its only caller, the paddle check, runs it only when the width is positive, so the requirement never fails.
- `Arcanoid.PlatformContainer.Drag`: returns whether the delta was accepted. The drag callback returns nothing; the result only lets the contract name the decision.
- `Arcanoid.Game`: the `ball` and `platform` fields are `var` in the game but are never reassigned, so they are constant fields here.
