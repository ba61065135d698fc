/**
 Pixels shared by the two 2D labs (PixelPlotter and SpritePlotter): .NET
 colours and a viewport modelled as a map from pixel coordinates to colours.
 `SetViewportPixel` is a map update and `GetViewportPixel` a map lookup.
 */
module Raster {

  import opened Optional

  /** An 8-bit colour channel, as held by the .NET `Color` structure. */
  type Channel = c: int | 0 <= c <= 255

  /** A .NET `Color`: alpha, red, green and blue channels. */
  datatype Colour = Colour(a: Channel, r: Channel, g: Channel, b: Channel)

  /** `Color::FromArgb(red, green, blue)`: the three-argument overload makes an opaque colour. */
  function FromRgb(r: Channel, g: Channel, b: Channel): (c: Colour)
    ensures c.a == 255 && c.r == r && c.g == g && c.b == b
  {
    Colour(255, r, g, b)
  }

  /**
   Rebuilding a colour from its own three channels gives it back exactly
   when it was opaque, and distinct channel triples give distinct colours.
   */
  lemma FromRgbRoundTrip(c: Colour, r: Channel, g: Channel, b: Channel)
    ensures FromRgb(c.r, c.g, c.b) == c <==> c.a == 255
    ensures FromRgb(r, g, b) == FromRgb(c.r, c.g, c.b) ==> (r, g, b) == (c.r, c.g, c.b)
  {
  }

  type Point = (int, int)

  type Viewport = map<Point, Colour>

  /** The viewport pixel at `p`, or None where the viewport has none. */
  function At(v: Viewport, p: Point): Option<Colour>
  {
    if p in v then Some(v[p]) else None
  }
}
