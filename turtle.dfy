/** The turtle: its logical state, changed at once by every command, and the
    animator to which every animating command hands exactly one animation. */
module Turtles {
  import opened Wrappers
  import opened Colors
  import opened Geometry
  import opened Sequencing

  /** The turtle's logical state; `x` and `y` are window coordinates. */
  datatype TurtleState = TurtleState(
    angle: real,
    x: real,
    y: real,
    penDown: bool,
    colorMode: real,
    penColor: Color,
    fillColor: Color,
    speed: real,
    tracer: bool)

  /** Facing east, in the centre of the window, pen down, black pen and fill,
      colors given in 0..1, default speed, tracer on. */
  const Defaults: TurtleState :=
    TurtleState(0.0, WIDTH / 2.0, HEIGHT / 2.0, true, COLOR_MODE_1, BLACK, BLACK, PIXELS_PER_SECOND, true)

  /** The Euclidean distance between (x0, y0) and (x1, y1), which the source
      takes from the rendering library. */
  type Metric = (real, real, real, real) -> real

  ghost predicate IsDistance(d: Metric) {
    forall x0, y0, x1, y1 :: d(x0, y0, x1, y1) >= 0.0
  }

  lemma DistanceIsNonNegative(d: Metric, x0: real, y0: real, x1: real, y1: real)
    requires IsDistance(d)
    ensures d(x0, y0, x1, y1) >= 0.0
  {
  }

  /** A JavaFX key frame refuses a negative time. */
  datatype KeyFrameError = NegativeTime(millis: real)

  class Turtle {
    var angle: real
    var x: real
    var y: real
    var penDown: bool
    var colorMode: real
    var penColor: Color
    var fillColor: Color
    var speed: real
    var tracer: bool
    const animator: Animator
    const distance: Metric

    ghost function State(): TurtleState
      reads this
    {
      TurtleState(angle, x, y, penDown, colorMode, penColor, fillColor, speed, tracer)
    }

    /** The color mode is always one of the two accepted ones, the speed is
        positive, and the animator keeps its FIFO invariant. */
    ghost predicate Valid()
      reads this, animator
    {
      animator.Valid() && IsColorMode(colorMode) && speed > 0.0 && IsDistance(distance)
    }

    constructor (distance: Metric)
      requires IsDistance(distance)
      ensures Valid() && State() == Defaults && this.distance == distance
      ensures fresh(animator) && animator.State() == Idle
    {
      angle := 0.0;
      x := WIDTH / 2.0;
      y := HEIGHT / 2.0;
      colorMode := COLOR_MODE_1;
      penColor := BLACK;
      fillColor := BLACK;
      speed := PIXELS_PER_SECOND;
      penDown := true;
      tracer := true;
      this.distance := distance;
      animator := new Animator();
    }

    /** tracer(boolean): animate at the configured speed, or nearly at once. */
    method SetTracer(enabled: bool)
      requires Valid()
      modifies this
      ensures Valid() && State() == old(State()).(tracer := enabled)
      ensures animator.State() == old(animator.State())
    {
      tracer := enabled;
    }

    /** colorMode(double): only 1.0 and 255.0 are taken; anything else is ignored. */
    method SetColorMode(mode: real)
      requires Valid()
      modifies this
      ensures Valid()
      ensures State() == if IsColorMode(mode) then old(State()).(colorMode := mode) else old(State())
      ensures animator.State() == old(animator.State())
    {
      if mode == COLOR_MODE_1 {
        colorMode := COLOR_MODE_1;
      } else if mode == COLOR_MODE_255 {
        colorMode := COLOR_MODE_255;
      }
    }

    /** The private penColor(Color): the new pen color, animated in turn. */
    method SetPenColor(color: Color)
      requires Valid()
      modifies this, animator
      ensures Valid() && State() == old(State()).(penColor := color)
      ensures animator.State() == old(animator.State()).Add(Recolor(Stroke, color))
    {
      penColor := color;
      animator.Add(Recolor(Stroke, color));
    }

    /** The private fillColor(Color): the new fill color, animated in turn. */
    method SetFillColor(color: Color)
      requires Valid()
      modifies this, animator
      ensures Valid() && State() == old(State()).(fillColor := color)
      ensures animator.State() == old(animator.State()).Add(Recolor(Fill, color))
    {
      fillColor := color;
      animator.Add(Recolor(Fill, color));
    }

    /** penColor(double, double, double): on a bad channel the error is
        returned and nothing changes. */
    method PenColor(red: real, green: real, blue: real) returns (error: Option<ColorError>)
      requires Valid()
      modifies this, animator
      ensures Valid()
      ensures var made := MakeColor(old(colorMode), red, green, blue);
        if made.Ok? then
          error == None && State() == old(State()).(penColor := made.value) &&
          animator.State() == old(animator.State()).Add(Recolor(Stroke, made.value))
        else
          error == Some(made.error) && State() == old(State()) &&
          animator.State() == old(animator.State())
    {
      var made := MakeColor(colorMode, red, green, blue);
      if made.Err? {
        return Some(made.error);
      }
      SetPenColor(made.value);
      error := None;
    }

    /** fillColor(double, double, double): on a bad channel the error is
        returned and nothing changes. */
    method FillColor(red: real, green: real, blue: real) returns (error: Option<ColorError>)
      requires Valid()
      modifies this, animator
      ensures Valid()
      ensures var made := MakeColor(old(colorMode), red, green, blue);
        if made.Ok? then
          error == None && State() == old(State()).(fillColor := made.value) &&
          animator.State() == old(animator.State()).Add(Recolor(Fill, made.value))
        else
          error == Some(made.error) && State() == old(State()) &&
          animator.State() == old(animator.State())
    {
      var made := MakeColor(colorMode, red, green, blue);
      if made.Err? {
        return Some(made.error);
      }
      SetFillColor(made.value);
      error := None;
    }

    /** penDown: the next moves draw; nothing is animated. */
    method PenDown()
      requires Valid()
      modifies this
      ensures Valid() && State() == old(State()).(penDown := true)
      ensures animator.State() == old(animator.State())
    {
      penDown := true;
    }

    /** pd, an alias of penDown. */
    method Pd()
      requires Valid()
      modifies this
      ensures Valid() && State() == old(State()).(penDown := true)
      ensures animator.State() == old(animator.State())
    {
      PenDown();
    }

    /** down, an alias of penDown. */
    method Down()
      requires Valid()
      modifies this
      ensures Valid() && State() == old(State()).(penDown := true)
      ensures animator.State() == old(animator.State())
    {
      PenDown();
    }

    /** penUp: the next moves draw nothing; nothing is animated. */
    method PenUp()
      requires Valid()
      modifies this
      ensures Valid() && State() == old(State()).(penDown := false)
      ensures animator.State() == old(animator.State())
    {
      penDown := false;
    }

    /** pu, an alias of penUp. */
    method Pu()
      requires Valid()
      modifies this
      ensures Valid() && State() == old(State()).(penDown := false)
      ensures animator.State() == old(animator.State())
    {
      PenUp();
    }

    /** up, an alias of penUp. */
    method Up()
      requires Valid()
      modifies this
      ensures Valid() && State() == old(State()).(penDown := false)
      ensures animator.State() == old(animator.State())
    {
      PenUp();
    }

    /** right: the angle grows by `degrees`, then the arrowhead turns to it.
        A negative turn would last a negative time, which the key frame
        refuses: the angle has already changed, and nothing is enqueued. */
    method Right(degrees: real) returns (error: Option<KeyFrameError>)
      requires Valid()
      modifies this, animator
      ensures Valid() && State() == old(State()).(angle := old(angle) + degrees)
      ensures degrees >= 0.0 ==> (error == None &&
        animator.State() == old(animator.State()).Add(Rotate(angle, TurnMillis(degrees))))
      ensures degrees < 0.0 ==> (error == Some(NegativeTime(TurnMillis(degrees))) &&
        animator.State() == old(animator.State()))
    {
      angle := angle + degrees;
      var millis := TurnMillis(degrees);
      if millis < 0.0 {
        return Some(NegativeTime(millis));
      }
      animator.Add(Rotate(angle, millis));
      error := None;
    }

    /** rt, an alias of right. */
    method Rt(degrees: real) returns (error: Option<KeyFrameError>)
      requires Valid()
      modifies this, animator
      ensures Valid() && State() == old(State()).(angle := old(angle) + degrees)
      ensures degrees >= 0.0 ==> (error == None &&
        animator.State() == old(animator.State()).Add(Rotate(angle, TurnMillis(degrees))))
      ensures degrees < 0.0 ==> (error == Some(NegativeTime(TurnMillis(degrees))) &&
        animator.State() == old(animator.State()))
    {
      error := Right(degrees);
    }

    /** left: the angle shrinks by `degrees`, then the arrowhead turns to it;
        the turn lasts as long as a right turn by `degrees`, so a negative
        `degrees` is refused by the key frame after the angle has changed. */
    method Left(degrees: real) returns (error: Option<KeyFrameError>)
      requires Valid()
      modifies this, animator
      ensures Valid() && State() == old(State()).(angle := old(angle) - degrees)
      ensures degrees >= 0.0 ==> (error == None &&
        animator.State() == old(animator.State()).Add(Rotate(angle, TurnMillis(degrees))))
      ensures degrees < 0.0 ==> (error == Some(NegativeTime(TurnMillis(degrees))) &&
        animator.State() == old(animator.State()))
    {
      angle := angle - degrees;
      var millis := TurnMillis(degrees);
      if millis < 0.0 {
        return Some(NegativeTime(millis));
      }
      animator.Add(Rotate(angle, millis));
      error := None;
    }

    /** lt, an alias of left. */
    method Lt(degrees: real) returns (error: Option<KeyFrameError>)
      requires Valid()
      modifies this, animator
      ensures Valid() && State() == old(State()).(angle := old(angle) - degrees)
      ensures degrees >= 0.0 ==> (error == None &&
        animator.State() == old(animator.State()).Add(Rotate(angle, TurnMillis(degrees))))
      ensures degrees < 0.0 ==> (error == Some(NegativeTime(TurnMillis(degrees))) &&
        animator.State() == old(animator.State()))
    {
      error := Left(degrees);
    }

    /** setPosition: go to the turtle-space point (newX, newY) at once, and
        animate one move there from the old point, drawing a line in the pen
        color only if the pen is down now. */
    method SetPosition(newX: real, newY: real)
      requires Valid()
      modifies this, animator
      ensures Valid() && State() == old(State()).(x := ToWindowX(newX), y := ToWindowY(newY))
      ensures animator.State() == old(animator.State()).Add(
        Move(Point(old(x), old(y)), Point(x, y),
             if penDown then Some(penColor) else None,
             MoveMillis(tracer, speed, distance(old(x), old(y), x, y))))
    {
      var realX := ToWindowX(newX);
      var realY := ToWindowY(newY);
      var line := if penDown then Some(penColor) else None;
      DistanceIsNonNegative(distance, x, y, realX, realY);
      var millis := MoveMillis(tracer, speed, distance(x, y, realX, realY));
      var move := Move(Point(x, y), Point(realX, realY), line, millis);
      x := realX;
      y := realY;
      animator.Add(move);
    }

    /** goTo, an alias of setPosition. */
    method GoTo(newX: real, newY: real)
      requires Valid()
      modifies this, animator
      ensures Valid() && State() == old(State()).(x := ToWindowX(newX), y := ToWindowY(newY))
      ensures animator.State() == old(animator.State()).Add(
        Move(Point(old(x), old(y)), Point(x, y),
             if penDown then Some(penColor) else None,
             MoveMillis(tracer, speed, distance(old(x), old(y), x, y))))
    {
      SetPosition(newX, newY);
    }

    /** setPos, an alias of setPosition. */
    method SetPos(newX: real, newY: real)
      requires Valid()
      modifies this, animator
      ensures Valid() && State() == old(State()).(x := ToWindowX(newX), y := ToWindowY(newY))
      ensures animator.State() == old(animator.State()).Add(
        Move(Point(old(x), old(y)), Point(x, y),
             if penDown then Some(penColor) else None,
             MoveMillis(tracer, speed, distance(old(x), old(y), x, y))))
    {
      SetPosition(newX, newY);
    }

    /** setX: a horizontal move; the window y does not change. */
    method SetX(newX: real)
      requires Valid()
      modifies this, animator
      ensures Valid() && State() == old(State()).(x := ToWindowX(newX))
      ensures animator.State() == old(animator.State()).Add(
        Move(Point(old(x), y), Point(x, y),
             if penDown then Some(penColor) else None,
             MoveMillis(tracer, speed, distance(old(x), y, x, y))))
    {
      SetPosition(newX, FromWindowY(y));
    }

    /** setY: a vertical move; the window x does not change. */
    method SetY(newY: real)
      requires Valid()
      modifies this, animator
      ensures Valid() && State() == old(State()).(y := ToWindowY(newY))
      ensures animator.State() == old(animator.State()).Add(
        Move(Point(x, old(y)), Point(x, y),
             if penDown then Some(penColor) else None,
             MoveMillis(tracer, speed, distance(x, old(y), x, y))))
    {
      SetPosition(FromWindowX(x), newY);
    }
  }

  /** A left turn followed by a right turn by the same amount brings the
      angle back exactly, after two animated turns. A negative amount stops
      at the left turn's refusal: the angle is left changed, nothing is
      enqueued, and the right turn is never made. */
  method LeftThenRight(t: Turtle, degrees: real) returns (error: Option<KeyFrameError>)
    requires t.Valid()
    modifies t, t.animator
    ensures t.Valid()
    ensures degrees >= 0.0 ==> (error == None && t.State() == old(t.State()) &&
      t.animator.State() == old(t.animator.State())
        .Add(Rotate(old(t.angle) - degrees, TurnMillis(degrees)))
        .Add(Rotate(old(t.angle), TurnMillis(degrees))))
    ensures degrees < 0.0 ==> (error.Some? &&
      t.State() == old(t.State()).(angle := old(t.angle) - degrees) &&
      t.animator.State() == old(t.animator.State()))
  {
    error := t.Left(degrees);
    if error.None? {
      error := t.Right(degrees);
    }
  }
}
