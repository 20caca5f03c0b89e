/** The color resolver of the turtle: RGB channels given under the current
    color mode become a JavaFX-style color with channels in [0, 1]. */
module Colors {
  import opened Wrappers

  /** Channels are given as numbers between 0.0 and 1.0 (the default). */
  const COLOR_MODE_1: real := 1.0
  /** Channels are given as numbers between 0.0 and 255.0. */
  const COLOR_MODE_255: real := 255.0

  predicate IsColorMode(mode: real) {
    mode == COLOR_MODE_1 || mode == COLOR_MODE_255
  }

  predicate InUnitRange(v: real) {
    0.0 <= v <= 1.0
  }

  /** Red, green, blue and opacity, as a JavaFX color stores them. */
  datatype Rgba = Rgba(red: real, green: real, blue: real, opacity: real)

  /** A color as the turtle can hold one: the color's own constructor
      refuses any component outside [0, 1]. */
  type Color = c: Rgba
    | InUnitRange(c.red) && InUnitRange(c.green) && InUnitRange(c.blue) && InUnitRange(c.opacity)
    witness Rgba(0.0, 0.0, 0.0, 1.0)

  const BLACK: Color := Rgba(0.0, 0.0, 0.0, 1.0)

  /** "bad color sequence", carrying the channels after scaling. */
  datatype ColorError = BadColorSequence(red: real, green: real, blue: real)

  /** A channel as given under `mode`, brought into the 0..1 scale. */
  function Normalize(mode: real, v: real): real {
    if mode == COLOR_MODE_255 then v / 255.0 else v
  }

  /** A channel accepted under `mode`: between 0 and the mode's maximum. */
  predicate InScale(mode: real, v: real) {
    0.0 <= v <= mode
  }

  /** The channels that `c` is written as under `mode`. */
  function Channels(mode: real, c: Color): (real, real, real) {
    (c.red * mode, c.green * mode, c.blue * mode)
  }

  /** makeColor(red, green, blue): scale by 255 in 255-mode, then refuse any
      channel outside [0, 1]; an accepted color is opaque. */
  function MakeColor(mode: real, red: real, green: real, blue: real): (r: Result<Color, ColorError>)
    requires IsColorMode(mode)
    ensures r.Ok? <==> InScale(mode, red) && InScale(mode, green) && InScale(mode, blue)
    ensures r.Ok? ==> r.value.opacity == 1.0 && Channels(mode, r.value) == (red, green, blue)
    ensures r.Err? ==> r.error == BadColorSequence(red / mode, green / mode, blue / mode)
  {
    var r, g, b := Normalize(mode, red), Normalize(mode, green), Normalize(mode, blue);
    if !InUnitRange(r) || !InUnitRange(g) || !InUnitRange(b) then
      Err(BadColorSequence(r, g, b))
    else
      assert mode == COLOR_MODE_255 ==> r * 255.0 == red && g * 255.0 == green && b * 255.0 == blue;
      Ok(Rgba(r, g, b, 1.0))
  }

  /** Every opaque color is made back from the channels it is written as. */
  lemma MakeColorOfChannels(mode: real, c: Color)
    requires IsColorMode(mode) && c.opacity == 1.0
    ensures var (red, green, blue) := Channels(mode, c); MakeColor(mode, red, green, blue) == Ok(c)
  {
  }

  /** In 255-mode a triple gives the same color, or the same error, as the
      triple divided by 255 gives in 1-mode. */
  lemma MakeColorScales(red: real, green: real, blue: real)
    ensures MakeColor(COLOR_MODE_255, red, green, blue)
         == MakeColor(COLOR_MODE_1, red / 255.0, green / 255.0, blue / 255.0)
  {
  }
}
