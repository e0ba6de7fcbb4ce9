# Arkanoid core in Dafny

This project models the core of a Java Arkanoid game and of the bouncing-ball demos that came before it:

- **Geometry.** Points use a 1e-10-tolerant equality. Line segments have a slope, range tests and a segment–segment intersection split into cases. An axis-aligned rectangle yields the distinct intersection points of its four boundary lines with a segment.
- **Velocity.** A velocity is a per-step displacement.
- **Collision rules.** Blocks reflect a ball using the line it hits (`hit`) and, at a point shared by several collidables, using the velocity quadrant (`hitMultiCollidables`). The paddle is clamped between the side borders and bounces a ball by which fifth of its top edge was hit. The free ball turns back at its borders.
- **Game environment.** It is the list of collidables that the ball asks for the closest collision on its trajectory, and for the blocks on a collision point.
- **Small state machines.** These are the score `Counter`, the key-press latch that stops an animation, and the "3, 2, 1, Go" countdown.
- **Level selection.** The levels are chosen from the command-line arguments.
- **Demo helpers.** The demos clamp radii and speeds and split balls between two frames.

Pure code is modelled as datatypes, functions and lemmas. The objects that the source updates in place are Dafny classes. Their methods are proved against specification functions:

- `GameEnvironment`, the notifying `Block`, `Paddle`, `Ball` and `Counter`;
- `KeyPressStoppableAnimation` and `CountdownAnimation`.

Loops in the source are methods with loop invariants:

- `isPointInList`;
- `getCollidablesOnPoint`;
- the two loops of `getClosestCollision`;
- `notifyHit`;
- `whichRegion`;
- the argument loop of `main`.

Java `double` is modelled as `real` and Java `int` as `int`. Where the source's integer behaviour matters, it is written out:

- the counter's 32-bit wrap-around;
- `(int)` truncation toward zero;
- truncating `/`.

The model leaves several things outside itself:

- **Calls into code it cannot see.** `Line.isPointOnLine` and `Rectangle.closestIntersectionToStartOfLine` are not part of this model. They are taken as function parameters (`onLine`, `closest`), so the properties hold for any implementation of them.
- **Keyboard and clock.** Each is read once per frame and becomes a parameter.
- **Java `null`.** It is `Option`'s `None`.
- **Distances.** They are compared as squared distances, which orders them as `Point.distance` does.

Two readings of the source are worth noting:

- **Key press.** `KeyPressStoppableAnimation` clears its "already pressed" flag on the first frame in which the key is down, and stops on the next frame in which the key is down. A key held down from the start therefore stops the animation on its second frame. `KeyPress.StopsOnSecondPress` states exactly this behaviour.
- **Missing getters.** `Ball.moveOneStep` calls `getVelocityX()` and `getVelocityY()`, which `src/Velocity.java` does not define. The model reads them as the velocity's `dx` and `dy` (what `getDX()` and `getDY()` return).

## Model

| member | source | states |
|---|---|---|
| Points.Abs | src/Point.java:54-56 | the magnitude used by every epsilon comparison is non-negative and equals the argument or its negation |
| Points.Offset | src/Point.java:29-32 | the offset constructor displaces the point by exactly (dx, dy) |
| Points.DistanceSq | src/Point.java:39-45 | Point.distance, squared; its properties are DistanceSqSymmetric and DistanceSqNonNegative |
| Points.Equals | src/Point.java:54-68 | Point.equals with isDoubleEqual on both coordinates; characterised by EqualsIsReflexiveAndSymmetric |
| Points.EqualsNullable | src/Point.java:63-68 | Point.equals with a possibly null argument; EqualsNullIsFalse states the null case |
| Points.OffsetComposes | src/Point.java:29-32 | two offsets compose into one offset by the summed displacement |
| Points.DistanceSqSymmetric | src/Point.java:39-45 | the distance from p to q equals the distance from q to p |
| Points.DistanceSqNonNegative | src/Point.java:39-45 | distances are non-negative and a point is at distance zero from itself |
| Points.SquareIsPositive | src/Point.java:39-45 | a square is non-negative and positive for a non-zero difference, which the distance comparisons rely on |
| Points.EqualsNullIsFalse | src/Point.java:63-68 | `equals(null)` is false |
| Points.EqualsIsReflexiveAndSymmetric | src/Point.java:54-68 | point equality holds exactly when both coordinates differ by less than EPSILON; it is reflexive and symmetric |
| Points.EqualsIsNotTransitive | src/Point.java:54-68 | epsilon equality is not transitive: three points in a row, each within EPSILON of the next |
| Lines.SlopeOf | src/Line.java:48-60 | slopeCalculator, with the vertical sentinel; characterised by SlopeCharacterization |
| Lines.YIntercept | src/Line.java:66-71 | yInterceptCalculator for a non-vertical segment; SlopeCharacterization shows both endpoints on the resulting line |
| Lines.IsInRange | src/Line.java:80-89 | isInRange; characterised by IsInRangeCharacterization |
| Lines.IsInsideRange | src/Line.java:98-105 | isInsideRange; characterised by IsInsideRangeCharacterization |
| Lines.MutualX | src/Line.java:176-180 | the crossing x of isIntersecting and intersectionWith; MutualXSymmetric and MutualXOnBothLines state its properties |
| Lines.IsIntersecting | src/Line.java:152-182 | isIntersecting; IsIntersectingSymmetric states its symmetry and the intersection lemmas its role |
| Lines.IsIntersectingVertical | src/Line.java:189-238 | isIntersectingVertical; used by IsIntersecting and characterised through IntersectionOneVertical |
| Lines.IntersectionWith | src/Line.java:245-295 | intersectionWith; IntersectionNullCases, IntersectionCrossing, IntersectionOneVertical, IntersectionParallel and IntersectionExistsUnlessParallel state its cases |
| Lines.IntersectionWithVertical | src/Line.java:302-368 | intersectionWithVertical; IntersectionOneVertical and IntersectionParallel state what it returns |
| Lines.LineEquals | src/Line.java:375-391 | Line.equals; LineEqualsSymmetric states its symmetry |
| Lines.SlopeCharacterization | src/Line.java:48-71 | the vertical sentinel is chosen exactly when the x extent is below EPSILON; otherwise both endpoints lie on y = slope * x + yIntercept |
| Lines.IsInRangeCharacterization | src/Line.java:80-89 | isInRange is the open interval between the bounds widened by EPSILON, independent of the bounds' order, and holds at both bounds |
| Lines.IsInsideRangeCharacterization | src/Line.java:80-105 | isInsideRange is the open interval, implies isInRange, fails at the bounds and on a degenerate range |
| Lines.Middle | src/Line.java:119-129 | the midpoint splits the segment into two equal displacements, so it is equidistant from both endpoints and within their x and y ranges |
| Lines.MiddleIsOrientationFree | src/Line.java:119-129 | the midpoint is the same for a segment and its reversal, and a degenerate segment's midpoint is its point |
| Lines.MutualXSymmetric | src/Line.java:176-180 | the crossing x of two non-parallel lines does not depend on which line computes it |
| Lines.IsIntersectingSymmetric | src/Line.java:152-238 | isIntersecting is symmetric across all four slope cases |
| Lines.LineEqualsSymmetric | src/Line.java:375-391 | Line.equals is symmetric and a segment equals its reversal |
| Lines.IntersectionNullCases | src/Line.java:245-253 | intersectionWith is null for non-intersecting segments and for equal segments |
| Lines.CrossingPointOnBothLines | src/Line.java:287-293 | the computed crossing x gives the same y on both lines |
| Lines.MutualXOnBothLines | src/Line.java:287-293 | the mutual x the crossing branch computes gives the same y on both segments' lines |
| Lines.IntersectionCrossing | src/Line.java:287-293 | with different slopes the result is non-null exactly when the segments intersect and differ, and the point lies on both lines inside both x ranges |
| Lines.IntersectionOneVertical | src/Line.java:302-368 | with exactly one vertical segment the result is non-null exactly when the segments intersect and differ, and it has the vertical segment's x, lies in its y range and on the other segment's line within its x range |
| Lines.IntersectionParallel | src/Line.java:264-283 | for parallel or both-vertical segments the result is non-null exactly when they intersect, differ and do not overlap inside; it is this segment's start if that touches the other's endpoints, else its end |
| Lines.IntersectionExistsUnlessParallel | src/Line.java:245-295 | outside the parallel family, intersecting distinct segments always yield a point |
| Rectangles.Boundary | src/geometry/Rectangle.java:42-52 | the four lines initializeLines builds, in the order intersectionPoints visits them; BoundaryIsClosed and BoundaryIsAxisAligned state their shape |
| Rectangles.IntersectionPointsOf | src/geometry/Rectangle.java:91-110 | the list intersectionPoints returns; characterised by IntersectionPointsProperties |
| Rectangles.BoundaryIsClosed | src/geometry/Rectangle.java:31-52 | the upper and lower lines run from the corners the upper-left point, width and height give; the four lines share corner endpoints and close the boundary |
| Rectangles.BoundaryIsAxisAligned | src/geometry/Rectangle.java:42-52 | the left and right lines are vertical; the upper and lower lines are horizontal unless the width is below EPSILON |
| Rectangles.CollectNewProperties | src/geometry/Rectangle.java:91-110 | the guarded appends keep at most one point per candidate, pairwise distinct, each a candidate's value, with every non-null candidate represented, and nothing exactly when all candidates are null |
| Rectangles.CollectNewPrefix | src/geometry/Rectangle.java:91-110 | later candidates only append, so earlier points keep their places |
| Rectangles.IntersectionPointsProperties | src/geometry/Rectangle.java:91-110 | intersectionPoints returns at most four distinct points, each from a boundary line; every meeting boundary line is represented, in the order upper, lower, left, right; it is empty exactly when no line meets the segment |
| Rectangles.IsPointInList | src/geometry/Rectangle.java:61-68 | the scan returns true exactly when some element equals the point |
| Rectangles.AppendIfNew | src/geometry/Rectangle.java:92-108 | one guarded append: a non-null point is added when no equal point is present |
| Rectangles.IntersectionPoints | src/geometry/Rectangle.java:91-110 | the method's list is the collected boundary intersections, at most four and pairwise distinct |
| Rectangles.HasIntersectionPoints | src/geometry/Rectangle.java:77-80 | true exactly when some boundary line meets the segment |
| Lists.RemoveFirst | src/physics/GameEnvironment.java:50-55 | List.remove(Object); RemoveNonMember, RemoveFirstOccurrence, RemoveFirstMultiset and AddThenRemove state its properties |
| Lists.RemoveNonMember | src/physics/GameEnvironment.java:50-55 | removing a collidable that is not in the list changes nothing |
| Lists.RemoveFirstOccurrence | src/physics/GameEnvironment.java:50-55 | removing a member cuts out exactly its first occurrence and keeps the order of the rest |
| Lists.RemoveFirstMultiset | src/physics/GameEnvironment.java:50-55 | removal takes one copy of the element out of the collection, or none if it is absent |
| Lists.AddThenRemove | src/physics/GameEnvironment.java:37-55 | adding a new collidable and removing it restores the list |
| Collidables.ClassName | src/objects/Block.java:225-227 | className is "Block" exactly for blocks and "Paddle" exactly for the paddle (src/Paddle.java:201-203) |
| Environment.BlocksOnPoint | src/physics/GameEnvironment.java:74-87 | the list getCollidablesOnPoint returns; characterised by BlocksOnPointProperties |
| Environment.BlocksOnPointProperties | src/physics/GameEnvironment.java:74-87 | the collidables on a point are exactly the Block-tagged members whose boundary holds the point, each kept as often as it occurs |
| Environment.HitsProperties | src/physics/GameEnvironment.java:98-110 | the first loop gathers, for each member, its closest intersection with the trajectory; there is none exactly when no member yields one |
| Environment.ClosestIndex | src/physics/GameEnvironment.java:111-121 | the second loop settles on an index of the list |
| Environment.ClosestIndexIsLastMinimum | src/physics/GameEnvironment.java:111-121 | the chosen collision is no farther than any other and every later one is strictly farther |
| Environment.ClosestIndexIsUnique | src/physics/GameEnvironment.java:111-121 | only one index has both properties |
| Environment.ClosestCollision | src/physics/GameEnvironment.java:98-122 | the value getClosestCollision returns; characterised by ClosestCollisionProperties |
| Environment.ClosestCollisionProperties | src/physics/GameEnvironment.java:98-122 | getClosestCollision is null exactly when no member yields an intersection; otherwise it pairs a member with that member's closest intersection, and no other member's intersection is nearer the trajectory start |
| Environment.GameEnvironment.constructor | src/physics/GameEnvironment.java:27-29 | a new environment holds no collidables |
| Environment.GameEnvironment.AddCollidable | src/physics/GameEnvironment.java:37-42 | a non-null collidable is appended; null changes nothing |
| Environment.GameEnvironment.RemoveCollidable | src/physics/GameEnvironment.java:50-55 | the first occurrence is removed; null changes nothing |
| Environment.GameEnvironment.GetCollidablesOnPoint | src/physics/GameEnvironment.java:74-87 | the loop's result is the block-on-point filter of the members |
| Environment.GameEnvironment.GetClosestCollision | src/physics/GameEnvironment.java:98-122 | the two loops compute the closest collision characterised by ClosestCollisionProperties |
| Velocities.ApplyToPoint | src/Velocity.java:43-47 | applyToPoint displaces the point by exactly (dx, dy) |
| Velocities.Reversed | src/Paddle.java:177 | the fallback velocity of the paddle's hit, `new Velocity(-dx, -dy)`, cancels the incoming one component-wise |
| Velocities.ZeroVelocityKeepsPoint | src/Velocity.java:43-47 | a zero velocity leaves a point in place |
| Velocities.ApplyThenReverse | src/Velocity.java:43-47 | applying a velocity and then its reverse returns to the original point |
| Velocities.ApplyComposes | src/Velocity.java:43-47 | two steps equal one step by the summed velocity |
| Blocks.HitMultiCollidables | src/Block.java:61-114 | the flags per velocity quadrant: negate dx or dy when the point lies short of the far edge and is not the quadrant's excluded corner; no flag when a component is zero (also src/objects/Block.java:124-178) |
| Blocks.HitMultiCollidablesDependsOnSigns | src/Block.java:61-114 | the flags depend on the velocity only through the signs of its components |
| Blocks.ExcludedCornerSetsNoFlag | src/Block.java:61-114 | a hit at the corner each quadrant excludes sets no flag |
| Blocks.Hit | src/Block.java:119-135 | magnitudes are kept; the left line turns dx negative, the right line positive; the upper line turns dy positive, the lower line negative; a point on no side line or on no top/bottom line leaves that component unchanged (also src/objects/Block.java:186-203) |
| Blocks.HitKeepsOrNegates | src/Block.java:119-135 | each component comes back unchanged or negated; off all four lines the velocity is unchanged |
| Blocks.HitIsIdempotent | src/Block.java:119-135 | reflecting an already reflected velocity at the same point changes nothing |
| NotifyingBlocks.Events | src/objects/Block.java:105-112 | a notification pass calls each listener entry once, in list order, with the hitting ball |
| NotifyingBlocks.EventsCountListeners | src/objects/Block.java:105-112 | each listener hears of a hit as many times as it is registered, and only registered listeners hear |
| NotifyingBlocks.Block.constructor | src/objects/Block.java:36-40 | a new block has its rectangle and colour and no listeners |
| NotifyingBlocks.Block.AddHitListener | src/objects/Block.java:87-89 | the listener is appended |
| NotifyingBlocks.Block.RemoveHitListener | src/objects/Block.java:96-98 | the first occurrence of the listener is removed |
| NotifyingBlocks.Block.NotifyHit | src/objects/Block.java:105-112 | every listener of the list as it was is notified once, in order; the list is unchanged |
| NotifyingBlocks.Block.HitMultiCollidables | src/objects/Block.java:124-178 | listeners are notified, then the flags are those of the reflection rules |
| NotifyingBlocks.Block.Hit | src/objects/Block.java:186-203 | listeners are notified, then the velocity is reflected by the reflection rules |
| Paddles.StepLeft | src/Paddle.java:64-73 | moveLeft stays put when the new left edge would reach the left border within EPSILON, otherwise moves left by 5; it keeps the paddle inside the borders |
| Paddles.StepRight | src/Paddle.java:77-87 | moveRight stays put when the new right edge would reach the right border within EPSILON, otherwise moves right by 5; it keeps the paddle inside the borders |
| Paddles.OneStep | src/Paddle.java:192-199 | moveOneStep on the rectangle: moveLeft if the left key is held, then moveRight if the right key is held |
| Paddles.Run | src/Paddle.java:192-199 | moveOneStep over a run of frames; RunStaysInBounds and PaddleNeverLeavesBoard state its bounds |
| Paddles.RunStaysInBounds | src/Paddle.java:192-199 | whatever keys are held frame after frame, a paddle inside the borders stays inside |
| Paddles.PaddleNeverLeavesBoard | src/Paddle.java:31-37 | from its starting place the paddle always keeps x > 24 and x + 100 < 776 |
| Paddles.RegionFromIsSmallest | src/Paddle.java:95-105 | the region search returns the first boundary past the point, else 5 |
| Paddles.Region | src/Paddle.java:95-105 | the value whichRegion returns; characterised by RegionIsSmallest and RegionIsMonotone |
| Paddles.RegionIsSmallest | src/Paddle.java:95-105 | whichRegion lies in 1..5 and is the leftmost of the four inner fifth-boundaries to the right of the point |
| Paddles.RegionIsMonotone | src/Paddle.java:95-105 | a hit further right never lands in a region further left |
| Paddles.HitOutcome | src/Paddle.java:129-178 | an upper-line hit bounces by region: angle 150 (80 near the left border), 120, dy mirrored, 60, or 30 (100 near the right border); otherwise a left-line hit gives 150 (80), a right-line hit 30 (100), and a point on none reverses the velocity; angle bounces keep the speed |
| Paddles.TopAnglesFallLeftToRight | src/Paddle.java:129-178 | away from the borders, the bounce angle of an upper-line hit never rises as the hit moves right |
| Paddles.Paddle.constructor | src/Paddle.java:31-37 | the paddle starts at (350, 35), 100 wide and 10 high, inside the borders, and orange |
| Paddles.Paddle.MoveLeft | src/Paddle.java:64-73 | the rectangle becomes StepLeft of the old one and stays inside the borders |
| Paddles.Paddle.MoveRight | src/Paddle.java:77-87 | the rectangle becomes StepRight of the old one and stays inside the borders |
| Paddles.Paddle.MoveOneStep | src/Paddle.java:192-199 | left then right according to the held keys; stays inside the borders |
| Paddles.Paddle.WhichRegion | src/Paddle.java:95-105 | the loop returns the region characterised by RegionIsSmallest |
| Paddles.Paddle.Hit | src/Paddle.java:129-178 | the bounce is the one HitOutcome describes for the paddle's rectangle |
| Balls.Trunc | src/Ball.java:66-76 | the int cast truncates toward zero |
| Balls.BounceOffWalls | src/Ball.java:137-163 | the wall test keeps the magnitude of each velocity component |
| Balls.HitsSide | src/Ball.java:150-159 | the wall test of moveOneStep for one axis; characterised by HitsSideMeansEdgeReachesBorder |
| Balls.HitsSideMeansEdgeReachesBorder | src/Ball.java:137-163 | the test fires exactly when the ball's edge after the step comes within EPSILON of, or passes, the border in the direction of travel |
| Balls.BounceOffWallsCharacterization | src/Ball.java:137-163 | each component is negated exactly when the step would carry the ball into one of that axis's borders |
| Balls.BounceTurnsAway | src/Ball.java:137-163 | a ball heading into exactly one border comes away from it |
| Balls.Ball.constructor | src/Ball.java:29-33 | the ball gets its centre, radius and colour, no velocity and the default 0..200 borders |
| Balls.Ball.FromCoordinates | src/Ball.java:42-46 | the same from coordinates |
| Balls.Ball.SetBorders | src/Ball.java:55-60 | each argument goes to its own border; nothing else changes |
| Balls.Ball.SetVelocity | src/Ball.java:98-100 | the velocity is replaced (null clears it); nothing else changes |
| Balls.Ball.SetVelocityComponents | src/Ball.java:107-109 | the velocity becomes (dx, dy); nothing else changes |
| Balls.Ball.MoveOneStep | src/Ball.java:137-163 | without a velocity nothing happens; otherwise the velocity is bounced off the walls from the truncated centre and the point moves by it |
| Counters.Wrap | src/Counter.java:22-32 | Java int arithmetic lands in the int range, is the identity inside it, and differs from the exact result by a multiple of 2^32 |
| Counters.WrapShift | src/Counter.java:22-32 | results that differ by a multiple of 2^32 wrap to the same int |
| Counters.AddThenSubtract | src/Counter.java:22-32 | subtracting n after adding n restores any int, overflow or not |
| Counters.Counter.constructor | src/Counter.java:14-16 | a new counter holds 0 |
| Counters.Counter.Increase | src/Counter.java:22-24 | the counter becomes the wrapped sum, the exact sum when it fits |
| Counters.Counter.Decrease | src/Counter.java:30-32 | the counter becomes the wrapped difference, the exact one when it fits |
| Counters.Counter.GetValue | src/Counter.java:38-40 | returns the counter's value |
| Counters.IncreaseThenDecrease | src/Counter.java:22-32 | increase(n) then decrease(n) leaves the counter where it was |
| KeyPress.PressStep | src/animations/KeyPressStoppableAnimation.java:39-47 | an unpressed frame changes nothing; stop is set by a press once the "already pressed" flag is clear, and a press clears that flag |
| KeyPress.RunFrames | src/animations/KeyPressStoppableAnimation.java:39-47 | isKeyPressed over a run of frames; RunFramesCountsPresses, StopsOnSecondPress and FlagsAreMonotone state its behaviour |
| KeyPress.RunFramesCountsPresses | src/animations/KeyPressStoppableAnimation.java:39-47 | the flags depend only on how many pressed frames were seen, capped at two |
| KeyPress.StopsOnSecondPress | src/animations/KeyPressStoppableAnimation.java:28-58 | from construction the wrapper stops exactly when the key has been down in at least two frames, and still treats the key as already pressed exactly when it has not been down at all |
| KeyPress.FlagsAreMonotone | src/animations/KeyPressStoppableAnimation.java:39-47 | stop never clears and "already pressed" never sets again |
| KeyPress.KeyPressStoppableAnimation.constructor | src/animations/KeyPressStoppableAnimation.java:28-34 | stop starts false and "already pressed" true |
| KeyPress.KeyPressStoppableAnimation.IsKeyPressed | src/animations/KeyPressStoppableAnimation.java:39-47 | the flags take one PressStep for the sampled key |
| KeyPress.KeyPressStoppableAnimation.ShouldStop | src/animations/KeyPressStoppableAnimation.java:56-58 | returns the stop flag |
| Countdown.SecondsPerPrint | src/animations/CountdownAnimation.java:35-42 | the period is finite exactly when the count is non-zero, and then period * count equals the total seconds |
| Countdown.Reached | src/animations/CountdownAnimation.java:49-50 | the elapsed-time comparison against the period under IEEE rules; Tick states its effect |
| Countdown.Tick | src/animations/CountdownAnimation.java:45-65 | the count drops by one exactly when a period has elapsed since the last change, which also resets the start time; stop is set once the count is below zero |
| Countdown.LabelOf | src/animations/CountdownAnimation.java:45-65 | a positive count is drawn as the number, anything else as "Go" |
| Countdown.RunFrames | src/animations/CountdownAnimation.java:45-65 | doOneFrame over a run of frames; RunFramesProperties and SpacedFramesCountDown state its behaviour |
| Countdown.RunFramesProperties | src/animations/CountdownAnimation.java:45-70 | over any frames the count falls by at most one per frame, stop never clears, and a count below zero has stopped |
| Countdown.SpacedFramesCountDown | src/animations/CountdownAnimation.java:35-70 | frames at least a period apart each count down, so a countdown from n >= 0 stops after n + 1 frames |
| Countdown.CountdownAnimation.constructor | src/animations/CountdownAnimation.java:35-42 | the period is total seconds over count and the clock starts now, not stopped |
| Countdown.CountdownAnimation.DoOneFrame | src/animations/CountdownAnimation.java:45-65 | the state takes one Tick and the label drawn is the count or "Go" |
| Countdown.CountdownAnimation.ShouldStop | src/animations/CountdownAnimation.java:68-70 | returns the stop flag |
| LevelSelection.LevelsOfArg | src/game/Ass6Game.java:30-38 | "1", "2" and "3" add DirectHit, WideEasy and Green3; any other argument adds nothing |
| LevelSelection.CollectedCount | src/game/Ass6Game.java:29-39 | one level per recognised argument, repeats included |
| LevelSelection.CollectedAppend | src/game/Ass6Game.java:29-39 | levels follow the order of the arguments |
| LevelSelection.SelectedLevels | src/game/Ass6Game.java:29-45 | the list main hands to runLevels; characterised by SelectedLevelsProperties |
| LevelSelection.SelectedLevelsProperties | src/game/Ass6Game.java:29-45 | runLevels never gets an empty list: the named levels, or all three in order when none was named |
| LevelSelection.SelectLevels | src/game/Ass6Game.java:29-45 | the loop and the fallback compute SelectedLevels |
| BouncingBallAnimation.OutOfBox | src/BouncingBallAnimation.java:27-38 | the test of outOfBorder; OutOfBorderPlacesInside shows the corrected coordinate passes it |
| BouncingBallAnimation.OutOfBorder | src/BouncingBallAnimation.java:27-38 | a coordinate that leaves the ball out of the box moves to 100; otherwise it is unchanged |
| BouncingBallAnimation.OutOfBorderPlacesInside | src/BouncingBallAnimation.java:27-38 | for a ball narrower than the box the corrected coordinate is inside, so correcting twice changes nothing |
| BouncingBallAnimation.SpeedLimit | src/BouncingBallAnimation.java:45-52 | the speed is clamped into [-15, 15] and unchanged inside it |
| BouncingBallAnimation.SpeedLimitIsIdempotent | src/BouncingBallAnimation.java:45-52 | clamping twice is clamping once, and the clamp never increases a magnitude |
| MultipleBouncingBalls.JavaDiv | src/MultipleBouncingBallsAnimation.java:28-52 | Java int division truncates toward zero |
| MultipleBouncingBalls.RadiosCheck | src/MultipleBouncingBallsAnimation.java:28-36 | a radius of half the range or more becomes half the range minus one, a negative one becomes 1, others are kept |
| MultipleBouncingBalls.RadiosCheckFits | src/MultipleBouncingBallsAnimation.java:28-36 | for a range of at least 3 the checked radius is non-negative and the ball's diameter is below the range |
| MultipleBouncingBalls.RandomCentreFitsInBox | src/MultipleBouncingBallsAnimation.java:59-67 | a centre drawn as createRandomBall draws it keeps the whole ball inside the box |
| MultipleBouncingBalls.RadiosCheckForDemoRange | src/MultipleBouncingBallsAnimation.java:28-36 | with the demo's range of 200 every radius is corrected into 0..99 |
| MultipleBouncingBalls.CreateRandomSpeed | src/MultipleBouncingBallsAnimation.java:43-52 | radius 50 or more gives speed 1, otherwise (61 - r) / 6 |
| MultipleBouncingBalls.CreateRandomSpeedProperties | src/MultipleBouncingBallsAnimation.java:43-52 | radii 0..49 give speeds 2..10 and a larger ball is never faster |
| MultipleFramesBouncingBalls.IntAbs | src/MultipleFramesBouncingBallsAnimation.java:31-39 | the channel difference magnitude is non-negative and equals the difference or its negation |
| MultipleFramesBouncingBalls.IsSimilarColor | src/MultipleFramesBouncingBallsAnimation.java:31-39 | isSimilarColor; characterised by IsSimilarColorProperties |
| MultipleFramesBouncingBalls.IsSimilarColorProperties | src/MultipleFramesBouncingBallsAnimation.java:31-39 | colours are similar exactly when every channel differs by less than 50; similarity is reflexive and symmetric |
| MultipleFramesBouncingBalls.IsSimilarColorIsNotTransitive | src/MultipleFramesBouncingBallsAnimation.java:31-39 | similarity is not transitive |
| MultipleFramesBouncingBalls.RadiosCheckForFrames | src/MultipleFramesBouncingBallsAnimation.java:48-56 | in the frames of range 450 and 150 a corrected radius is at most 224 and 74 |
| MultipleFramesBouncingBalls.InFirstFrame | src/MultipleFramesBouncingBallsAnimation.java:165-167 | the test i + 1 <= n / 2 of main; FrameSplit states which balls pass it |
| MultipleFramesBouncingBalls.FrameBox | src/MultipleFramesBouncingBallsAnimation.java:167-175 | a ball in the first frame gets the first frame's border and range, any other the second's |
| MultipleFramesBouncingBalls.FrameSplit | src/MultipleFramesBouncingBallsAnimation.java:165-175 | the first frame takes the first n / 2 balls and the second the rest, as many or one more |

## Left out

- Floating point: `double` is `real`, so rounding, overflow to infinity and NaN are not modelled. The one exception is the countdown's period `numOfSeconds / countFrom`, whose division by zero gives an IEEE infinity or NaN (`Countdown.Period`).
- Square roots: `Point.distance` and `Line.length` are not modelled. Distances are compared as squares, which orders them the same way. The paddle's bounce speed is reported as a squared speed.
- `Velocity.fromAngleAndSpeed` (trigonometry): the paddle's upper-line bounce is reported as an angle and a squared speed (`Paddles.Bounce`), not as the resulting components.
- `Line.isPointOnLine` and `Rectangle.closestIntersectionToStartOfLine` are not part of this model. They are parameters (`onLine`, `closest`) of the members that call them.
- `Line.yInterceptCalculator` on a vertical segment (an infinite slope times x): the intercept is defined only for non-vertical segments, which is the only place the source reads it.
- Drawing, the GUI, `Sleeper`, `Random` and `main` of the demos are left out. The random draws appear as inputs of `MultipleBouncingBalls.RandomCentreFitsInBox`.
- The keyboard and the clock become parameters sampled once per frame. `Paddle.moveOneStep` queries the keyboard twice per frame. `CountdownAnimation.doOneFrame` reads `System.currentTimeMillis()` twice. The model uses one sample each.
- `HitListener.hitEvent` effects (score, removal of blocks and balls) are not part of this model. The notifying block records each call as an event.
- The level contents (`DirectHit`, `WideEasy`, `Green3`) and `GameFlow.runLevels` are not part of this model. Only the selection of the list is modelled.
- Getters that only return a field (`getX`/`getY` of Point, `getDX`/`getDY`, `getRectangle`, `getUpperLine`, `collisionPoint()`) are datatype fields.
- `MultipleBouncingBalls.JavaDiv`: only the positive-divisor cases are stated, because every division in these helpers is by 2 or 6.
- `Balls.Trunc`: Java's saturation of out-of-range double-to-int casts is not modelled.
- `MultipleBouncingBalls.RadiosCheck` and `MultipleBouncingBalls.CreateRandomSpeed`: Java int overflow is not modelled, because radii and ranges are small in every caller.
- `Points.DistanceSqNonNegative`: that the distance is zero only at the same point is not stated, because nothing in the game relies on it.
- `Blocks.Hit`: a point on both the left and the right line (a segment of width below EPSILON) is flipped by both tests in turn; the contract states the net result, so "a left-line hit turns dx negative" is stated only when the point is not also on the right line, and likewise for the upper and lower lines.
- The old `src/Block.java` and `src/Paddle.java` (lines 34, 72 and 86) use a default-package `Rectangle` class that is not part of this model. Both are modelled with the `Rectangle` of `src/geometry/Rectangle.java`, which has the same boundary lines.
- The `src/objects/` versions of Ball and Paddle are not part of this model. Only the free ball of the demos (`src/Ball.java`) and `src/Paddle.java` are modelled.
- Reference identity of collidables: the environment holds Java references, removes by identity and reads each member's current rectangle at query time. Here an entry is a value snapshot `Collidable(id, rect, kind)` compared structurally. A paddle that has moved is therefore a different value: the environment keeps the rectangle it was added with, and removing the moved value misses the stale entry. The model does not capture this aliasing.
- `addToGame`, `removeFromGame` and `timePassed` register sprites or do nothing in the game loop, and are not modelled.
