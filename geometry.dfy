/** The turtle's world: window size, the change between turtle space (origin
    in the centre, +y up) and window space (origin top left, +y down), and
    the rules that give an animation its length in milliseconds. */
module Geometry {
  /** Width and height of the world in pixels. */
  const WIDTH: real := 700.0
  const HEIGHT: real := 700.0

  /** Default speed of a move, in pixels per second. */
  const PIXELS_PER_SECOND: real := 200.0
  /** Speed of a turn, in degrees per second. */
  const DEGREES_PER_SECOND: real := 180.0
  /** The shortest animation, one millisecond. */
  const ONE_MILLI: real := 1.0

  /** A point in window space. */
  datatype Point = Point(x: real, y: real)

  function FromWindowX(wx: real): real {
    wx - WIDTH / 2.0
  }

  function FromWindowY(wy: real): real {
    HEIGHT / 2.0 - wy
  }

  /** Window x of the turtle-space x coordinate `tx`. */
  function ToWindowX(tx: real): (wx: real)
    ensures FromWindowX(wx) == tx
    ensures wx - tx == WIDTH / 2.0
  {
    tx + WIDTH / 2.0
  }

  /** Window y of the turtle-space y coordinate `ty`: the axis is flipped. */
  function ToWindowY(ty: real): (wy: real)
    ensures FromWindowY(wy) == ty
    ensures wy + ty == HEIGHT / 2.0
  {
    HEIGHT / 2.0 - ty
  }

  /** Turtle space and window space are in one-to-one correspondence. */
  lemma WindowRoundTrip(wx: real, wy: real)
    ensures ToWindowX(FromWindowX(wx)) == wx
    ensures ToWindowY(FromWindowY(wy)) == wy
  {
  }

  /** getDuration: 1 ms with the tracer off, otherwise the distance travelled
      at `speed` pixels per second. */
  function MoveMillis(tracer: bool, speed: real, distance: real): (ms: real)
    requires speed > 0.0 && distance >= 0.0
    ensures ms >= 0.0
    ensures !tracer ==> ms == ONE_MILLI
    ensures tracer ==> ms * speed == distance * 1000.0
  {
    if tracer then distance / speed * 1000.0 else ONE_MILLI
  }

  /** With the tracer on, a move k times as long takes k times as long. */
  lemma MoveMillisProportional(speed: real, distance: real, k: real)
    requires speed > 0.0 && distance >= 0.0 && k >= 0.0
    ensures MoveMillis(true, speed, k * distance) == k * MoveMillis(true, speed, distance)
  {
  }

  /** The length of a turn by `degrees`; the tracer does not shorten it. */
  function TurnMillis(degrees: real): (ms: real)
    ensures ms * DEGREES_PER_SECOND == degrees * 1000.0
    ensures ms >= 0.0 <==> degrees >= 0.0
  {
    degrees / DEGREES_PER_SECOND * 1000.0
  }
}
