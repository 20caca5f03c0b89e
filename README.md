# JTurtle turtle engine, modelled in Dafny

This project models the core of JTurtle's `turtle` class (`src/turtle/turtle.java`), a
JavaFX turtle-graphics engine. It covers:

- the turtle's logical state: angle, window position, pen, color mode, pen and fill colors, speed and tracer;
- the commands that change that state at once and hand one animation per command to the animator;
- the color resolver (`makeColor`);
- the change from turtle space (origin in the centre, +y up) to window space (origin top left, +y down);
- the rule that gives a move or a turn its length in milliseconds;
- the `Animator`, the producer/consumer queue that plays animations one at a time, in order.

JavaFX timelines become values of the `Animation` datatype: `Rotate`, `Move` and `Recolor`.
Java `double` becomes Dafny `real`.

Files:

- `wrappers.dfy` (`Wrappers`): `Option` and `Result`.
- `colors.dfy` (`Colors`): color modes, the `Color` type, `MakeColor`.
  A JavaFX color always has its components in [0, 1], because its constructor refuses anything else, so `Color` is a subset type.
- `geometry.dfy` (`Geometry`): window size, the speed constants, the coordinate transform, the move and turn durations.
- `sequencing.dfy` (`Sequencing`): the animation descriptors and the animator.
  `Sequencer` is the animator's state as a value, with its three transitions.
  `Event`/`Replay` run any interleaving of enqueues, consumer wake-ups and completion signals.
  `Animator` is the class whose methods update the queue and the `finished` flag in place, each specified by the matching `Sequencer` transition.
- `turtle.dfy` (`Turtles`): the `Turtle` class and one method per command, aliases included.
  Each method states the new logical state (`State()`, with every unchanged field kept) and the animator's new state.
  `Turtle.Valid()` holds that the color mode is 1.0 or 255.0, the speed is positive, the distance function is never negative and the animator keeps its invariant.

## Model

| member | source | states |
|---|---|---|
| `Colors.MakeColor` | src/turtle/turtle.java:500-515 | the color is refused exactly when some channel lies outside [0, mode]; the error carries the channels divided by the mode; an accepted color is opaque and scales back to exactly the given channels |
| `Colors.MakeColorOfChannels` | src/turtle/turtle.java:500-515 | every opaque color is accepted back from the channels it is written as under either mode (the inverse direction of MakeColor) |
| `Colors.MakeColorScales` | src/turtle/turtle.java:501-505 | in 255-mode a triple gives the same color or error as the triple divided by 255 in 1-mode |
| `Geometry.ToWindowX` | src/turtle/turtle.java:394 | the window x is the turtle x shifted by half the width, and converting back gives the turtle x |
| `Geometry.ToWindowY` | src/turtle/turtle.java:395 | the window y is the turtle y flipped about half the height, and converting back gives the turtle y |
| `Geometry.WindowRoundTrip` | src/turtle/turtle.java:426-431 | converting window coordinates to turtle space and back gives them unchanged, which is what setX and setY rely on |
| `Geometry.MoveMillis` | src/turtle/turtle.java:445-457 | a move lasts 1 ms when the tracer is off, whatever the endpoints; with the tracer on it is non-negative and equals distance / speed in seconds |
| `Geometry.MoveMillisProportional` | src/turtle/turtle.java:448-451 | with the tracer on, a k times longer move takes k times as long |
| `Geometry.TurnMillis` | src/turtle/turtle.java:358 | a turn lasts degrees / 180 seconds; the length is negative exactly for a negative turn, which is the case the key frame refuses |
| `Sequencing.Sequencer.Add` | src/turtle/turtle.java:658-663 | addAnimation appends at the tail of the queue and of the history, starts nothing, and keeps the FIFO invariant |
| `Sequencing.Sequencer.Step` | src/turtle/turtle.java:613-623 | a loop iteration starts an animation exactly when finished is set and the queue is non-empty; it is the head; finished is cleared; otherwise nothing changes; the invariant is kept |
| `Sequencing.Sequencer.Finish` | src/turtle/turtle.java:644-649 | handle sets finished; afterwards no animation is in flight; the queue and the history are unchanged |
| `Sequencing.ReplayKeepsOrder` | src/turtle/turtle.java:601-663 | under any interleaving of enqueues, wake-ups and completions the invariant holds, the history grows by exactly the enqueued animations, and a started animation is never taken back |
| `Sequencing.FifoSingleFlight` | src/turtle/turtle.java:601-663 | from a fresh animator, the started animations followed by the queued ones are exactly the enqueued ones in enqueue order, and at most one is unfinished, none exactly when finished is set |
| `Sequencing.RoundsPlayEverything` | src/turtle/turtle.java:608-649 | if every played animation signals its end, one completion and one wake-up per waiting animation start all of them in order; nothing is dropped |
| `Sequencing.Animator.constructor` | src/turtle/turtle.java:601-605 | empty queue, finished set, empty history |
| `Sequencing.Animator.Add` | src/turtle/turtle.java:658-663 | the object's new state is Sequencer.Add of the old one |
| `Sequencing.Animator.Step` | src/turtle/turtle.java:613-623 | the object's new state and the animation handed out to play are Sequencer.Step of the old state |
| `Sequencing.Animator.Finish` | src/turtle/turtle.java:644-649 | the object's new state is Sequencer.Finish of the old one |
| `Turtles.Turtle.constructor` | src/turtle/turtle.java:148-193 | facing angle 0, at the window centre, pen down, black pen and fill, color mode 1.0, speed 200, tracer on, idle animator |
| `Turtles.Turtle.SetTracer` | src/turtle/turtle.java:202-204 | only the tracer flag changes; nothing is enqueued |
| `Turtles.Turtle.SetColorMode` | src/turtle/turtle.java:223-230 | the mode becomes the argument when it is 1.0 or 255.0, otherwise nothing changes; the mode stays in {1.0, 255.0} |
| `Turtles.Turtle.SetPenColor` | src/turtle/turtle.java:466-472 | only the pen color changes, and exactly one stroke recolor with that color is enqueued |
| `Turtles.Turtle.SetFillColor` | src/turtle/turtle.java:481-487 | only the fill color changes, and exactly one fill recolor with that color is enqueued |
| `Turtles.Turtle.PenColor` | src/turtle/turtle.java:250-252 | an accepted triple sets the pen color and enqueues one recolor; a refused one returns MakeColor's error and changes nothing |
| `Turtles.Turtle.FillColor` | src/turtle/turtle.java:273-275 | an accepted triple sets the fill color and enqueues one recolor; a refused one returns MakeColor's error and changes nothing |
| `Turtles.Turtle.PenDown` | src/turtle/turtle.java:305-307 | only the pen flag changes, to down; nothing is enqueued |
| `Turtles.Turtle.Pd` | src/turtle/turtle.java:291-293 | as PenDown |
| `Turtles.Turtle.Down` | src/turtle/turtle.java:298-300 | as PenDown |
| `Turtles.Turtle.PenUp` | src/turtle/turtle.java:326-328 | only the pen flag changes, to up; nothing is enqueued |
| `Turtles.Turtle.Pu` | src/turtle/turtle.java:312-314 | as PenUp |
| `Turtles.Turtle.Up` | src/turtle/turtle.java:319-321 | as PenUp |
| `Turtles.Turtle.Right` | src/turtle/turtle.java:355-365 | only the angle changes, increased by the argument; for a non-negative turn one rotation to the new angle is enqueued; for a negative turn the key frame's refusal of a negative time is returned, after the angle has changed, and nothing is enqueued |
| `Turtles.Turtle.Rt` | src/turtle/turtle.java:351-353 | as Right |
| `Turtles.Turtle.Left` | src/turtle/turtle.java:371-381 | only the angle changes, decreased by the argument; for a non-negative turn one rotation to the new angle is enqueued, as long as a right turn by the argument; for a negative turn the key frame's refusal is returned, after the angle has changed, and nothing is enqueued |
| `Turtles.Turtle.Lt` | src/turtle/turtle.java:367-369 | as Left |
| `Turtles.LeftThenRight` | src/turtle/turtle.java:355-381 | left then right by the same non-negative amount restores the angle exactly and enqueues exactly the two rotations; a negative amount stops at left's refusal, with the angle changed and nothing enqueued |
| `Turtles.Turtle.SetPosition` | src/turtle/turtle.java:391-424 | only the position changes, to the window image of the turtle-space point; one move from the old to the new point is enqueued; it draws a line in the pen color exactly when the pen was down at call time; it lasts MoveMillis of the distance |
| `Turtles.Turtle.GoTo` | src/turtle/turtle.java:383-385 | as SetPosition |
| `Turtles.Turtle.SetPos` | src/turtle/turtle.java:387-389 | as SetPosition |
| `Turtles.Turtle.SetX` | src/turtle/turtle.java:426-428 | only the window x changes; y stays exactly as it was; one horizontal move is enqueued |
| `Turtles.Turtle.SetY` | src/turtle/turtle.java:430-432 | only the window y changes; x stays exactly as it was; one vertical move is enqueued |

## Left out

- Rendering: JavaFX `Timeline`, `KeyFrame`, `KeyValue`, `Group`, `Line`, `Polygon`, `Scene`/`Stage`, `TurtleApp` and `display()` with the `notDisplayed` flag (src/turtle/turtle.java:542-574). These are foreign library calls and UI. Animations are descriptors. The transparent line that a pen-down move adds to the scene, and the 1 ms key frame that gives it its stroke, are the `line` field of `Move`.
- Threads: `synchronized`, `wait`/`notify`, the daemon thread and the `running` flag, which only stops the loop on an interrupt (src/turtle/turtle.java:607-635). Each loop iteration, each completion signal and each enqueue is one atomic step. `Replay` covers every interleaving of them.
- `makeColor(String)` and the `penColor(String)`/`fillColor(String)` overloads: they look the name up by reflection on JavaFX `Color` fields, and that palette is not part of this model.
- `euclidianDistance`/`Point2D.distance`: it needs a square root. The distance is a parameter of the `Turtle` constructor, and the model assumes only that it is non-negative.
- `forward`, `fd`, `backward`, `bk`, `back`: in this revision they are stubs that at most open the window (src/turtle/turtle.java:331-349). They change no turtle state and enqueue nothing, so there is nothing to model.
- The getters `tracer()` and `colorMode()`: the model's fields are readable directly.
- `Colors.MakeColor`, `Turtles.Turtle.SetX`, `Turtles.Turtle.SetY`, `Turtles.Turtle.Left`, `Turtles.Turtle.Right`, `Turtles.LeftThenRight`, `Geometry.MoveMillis`: real arithmetic is exact, but the source divides and adds in IEEE doubles.
  - Its `350 - (350 - y)` in setX can lose low-order bits of a tiny `y`, which the model's "y unchanged" does not capture.
  - `angle -= d; angle += d` need not restore the angle in doubles (from 1.0 with d = 1e17 it ends at 0.0). The exact restoration holds for reals only.
  - makeColor's range test is false for a NaN channel, so the source accepts `penColor(NaN, 0, 0)`. Reals have no NaN, and `MakeColor`'s "refused exactly when outside [0, mode]" says nothing about it.
- `Sequencing.RoundsPlayEverything`, `Sequencing.Replay`: a `Wake` event is unconstrained. In the source, the consumer loop checks again only when its `queue.wait()` returns after a `notify` sent while it waited (src/turtle/turtle.java:627).
  - A timeline of length zero, such as `right(0)`, or a pen-up `setPosition` to the current point with the tracer on, may call its finish handler inside `play()`. That happens in the rendering library's code, which is not part of this model.
  - When it does, `handle`'s `notify` runs before the loop waits and is lost. What is queued behind that timeline then waits for the next `addAnimation`.
  - `RoundsPlayEverything` assumes one wake-up per completion, which the source does not always deliver.
- `Colors.MakeColor` requires the mode to be 1.0 or 255.0. The turtle's color-mode field always is, by `Turtle.Valid()`.
- Speed, width and fill: turtle.java has no `speed`, `width`/`penSize` or `beginFill` operation, although the demo programs call some of them. The speed stays at 200 pixels per second, and turns take `degrees / 180` seconds whether or not the tracer is on, as in the source.
- The demo programs (`src/HTree.java`, `src/turtleTest.java`, `src/FillTest.java`, `tests/*.java`) only issue commands. The `tests/` files and `src/FillTest.java` target another turtle class that is not part of this model.
