/**
 CPU sprite compositing of the SpritePlotter lab.

 A viewport is a map from pixel coordinates to colours; `SetViewportPixel`
 is a map update and `GetViewportPixel` a map lookup. A bitmap is a grid of
 .NET colours read with `GetPixel(x, y)`. Every drawing routine visits the
 bitmap column by column (x outer, y inner) and writes the viewport pixel
 at (X + x, Y + y); the routines differ only in the colour they write.
 */
module Sprites {

  import opened Optional
  import opened Raster

  /** A bitmap stored as columns: `columns[x][y]` is `GetPixel(x, y)`. */
  datatype Grid = Grid(height: nat, columns: seq<seq<Colour>>)
  {
    predicate Rectangular()
    {
      forall x :: 0 <= x < |columns| ==> |columns[x]| == height
    }
  }

  type Bitmap = g: Grid | g.Rectangular() witness Grid(0, [])

  function Width(bmp: Bitmap): nat
  {
    |bmp.columns|
  }

  function GetPixel(bmp: Bitmap, x: int, y: int): Colour
    requires 0 <= x < Width(bmp) && 0 <= y < bmp.height
  {
    bmp.columns[x][y]
  }

  /** True when `p` lies under the bitmap drawn with its top-left corner at (X, Y). */
  predicate Covered(X: int, Y: int, bmp: Bitmap, p: Point)
  {
    X <= p.0 < X + Width(bmp) && Y <= p.1 < Y + bmp.height
  }

  /** The bitmap pixel that lands on viewport pixel `p`. */
  function SourceAt(X: int, Y: int, bmp: Bitmap, p: Point): Colour
    requires Covered(X, Y, bmp, p)
  {
    GetPixel(bmp, p.0 - X, p.1 - Y)
  }

  //////////////////////////////////////////////////////////////////////////
  // Per-channel formulas (integer arithmetic, division truncates; all
  // operands are non-negative so truncation and floor agree)
  //////////////////////////////////////////////////////////////////////////

  /** Alpha blending: `(S * A + V * (255 - A)) / 255`. */
  function AlphaChannel(s: Channel, v: Channel, alpha: Channel): (c: Channel)
    ensures (if s <= v then s else v) <= c <= (if s <= v then v else s)
    ensures alpha == 255 ==> c == s
    ensures alpha == 0 ==> c == v
  {
    BlendBounds(s, v, alpha);
    (s * alpha + v * (255 - alpha)) / 255
  }

  /** The weighted sum lies between 255 * min(S, V) and 255 * max(S, V). */
  lemma BlendBounds(s: Channel, v: Channel, alpha: Channel)
    ensures var n := s * alpha + v * (255 - alpha);
            255 * (if s <= v then s else v) <= n <= 255 * (if s <= v then v else s)
  {
    var n := s * alpha + v * (255 - alpha);
    if s <= v {
      assert n == 255 * s + (v - s) * (255 - alpha);
      assert n == 255 * v - (v - s) * alpha;
      MulNonNegative(v - s, 255 - alpha);
      MulNonNegative(v - s, alpha);
    } else {
      assert n == 255 * v + (s - v) * alpha;
      assert n == 255 * s - (s - v) * (255 - alpha);
      MulNonNegative(s - v, 255 - alpha);
      MulNonNegative(s - v, alpha);
    }
  }

  lemma MulNonNegative(a: int, b: int)
    requires 0 <= a && 0 <= b
    ensures 0 <= a * b
  {
  }

  /** Additive blending with saturation at 255. */
  function AddChannel(s: Channel, v: Channel): (c: Channel)
    ensures c == (if s + v <= 255 then s + v else 255)
    ensures s <= c && v <= c
  {
    var sum := s + v;
    if sum > 255 then 255 else sum
  }

  /** Multiplicative blending: `S * V / 255`. */
  function MultiplyChannel(s: Channel, v: Channel): (c: Channel)
    ensures c <= s && c <= v
    ensures s == 255 ==> c == v
    ensures s == 0 ==> c == 0
  {
    MulNonNegative(s, 255 - v);
    MulNonNegative(v, 255 - s);
    s * v / 255
  }

  /** "Luminosity" blending: `(S * S + V * (255 - S)) / 255`. */
  function LuminosityChannel(s: Channel, v: Channel): (c: Channel)
    ensures (if s <= v then s else v) <= c <= (if s <= v then v else s)
    ensures s == 0 ==> c == v
    ensures s == 255 ==> c == 255
  {
    BlendBounds(s, v, s);
    (s * s + v * (255 - s)) / 255
  }

  //////////////////////////////////////////////////////////////////////////
  // Per-pixel effect of each drawing routine
  //////////////////////////////////////////////////////////////////////////

  datatype Mode = Copy | Cutout | Alpha | Additive | Multiply | Luminosity
  {
    /** The routines that call `GetViewportPixel` before writing. */
    predicate ReadsViewport()
    {
      this in {Alpha, Additive, Multiply, Luminosity}
    }
  }

  function AlphaBlend(src: Colour, dst: Colour): Colour
  {
    FromRgb(AlphaChannel(src.r, dst.r, src.a), AlphaChannel(src.g, dst.g, src.a), AlphaChannel(src.b, dst.b, src.a))
  }

  function AddBlend(src: Colour, dst: Colour): Colour
  {
    FromRgb(AddChannel(src.r, dst.r), AddChannel(src.g, dst.g), AddChannel(src.b, dst.b))
  }

  function MultiplyBlend(src: Colour, dst: Colour): Colour
  {
    FromRgb(MultiplyChannel(src.r, dst.r), MultiplyChannel(src.g, dst.g), MultiplyChannel(src.b, dst.b))
  }

  function LuminosityBlend(src: Colour, dst: Colour): Colour
  {
    FromRgb(LuminosityChannel(src.r, dst.r), LuminosityChannel(src.g, dst.g), LuminosityChannel(src.b, dst.b))
  }

  /**
   The viewport pixel after one bitmap pixel `src` has been drawn over the
   previous content `prior` (None: the viewport had no pixel there).
   */
  function Paint(mode: Mode, src: Colour, prior: Option<Colour>): Option<Colour>
    requires mode.ReadsViewport() ==> prior.Some?
  {
    match mode
    case Copy => Some(src)
    case Cutout => if src.a != 0 then Some(src) else prior
    case Alpha => Some(AlphaBlend(src, prior.value))
    case Additive => Some(AddBlend(src, prior.value))
    case Multiply => Some(MultiplyBlend(src, prior.value))
    case Luminosity => Some(LuminosityBlend(src, prior.value))
  }

  /** The viewport has a pixel under every bitmap pixel. */
  ghost predicate Underlies(v: Viewport, X: int, Y: int, bmp: Bitmap)
  {
    forall p :: Covered(X, Y, bmp, p) ==> p in v
  }

  /**
   The viewport pixel after drawing the whole bitmap: each pixel depends only
   on its own previous value and the one bitmap pixel above it.
   */
  function Composited(v: Viewport, X: int, Y: int, bmp: Bitmap, mode: Mode, p: Point): Option<Colour>
    requires mode.ReadsViewport() ==> Underlies(v, X, Y, bmp)
  {
    if Covered(X, Y, bmp, p) then
      Paint(mode, SourceAt(X, Y, bmp, p), At(v, p))
    else At(v, p)
  }

  /**
   The drawing loop shared by all six routines, in the source's visiting
   order. Its result equals the order-free description `Composited`.
   */
  method DrawWith(v: Viewport, X: int, Y: int, bmp: Bitmap, mode: Mode) returns (r: Viewport)
    requires mode.ReadsViewport() ==> Underlies(v, X, Y, bmp)
    ensures forall p :: At(r, p) == Composited(v, X, Y, bmp, mode, p)
  {
    r := v;
    var x := 0;
    while x < Width(bmp)
      invariant 0 <= x <= Width(bmp)
      invariant forall p :: At(r, p) == if X <= p.0 < X + x && Y <= p.1 < Y + bmp.height
                                        then Composited(v, X, Y, bmp, mode, p) else At(v, p)
    {
      var y := 0;
      while y < bmp.height
        invariant 0 <= y <= bmp.height
        invariant forall p :: At(r, p) == if (X <= p.0 < X + x && Y <= p.1 < Y + bmp.height) || (p.0 == X + x && Y <= p.1 < Y + y)
                                          then Composited(v, X, Y, bmp, mode, p) else At(v, p)
      {
        var q := (x + X, y + Y);
        var src := GetPixel(bmp, x, y);
        assert Covered(X, Y, bmp, q) && At(r, q) == At(v, q);
        r := Plot(r, q, src, mode);
        y := y + 1;
      }
      x := x + 1;
    }
  }

  /** One iteration of the inner loop: read (if the mode needs it) and write one viewport pixel. */
  function Plot(v: Viewport, q: Point, src: Colour, mode: Mode): (r: Viewport)
    requires mode.ReadsViewport() ==> q in v
    ensures At(r, q) == Paint(mode, src, At(v, q))
    ensures forall p :: p != q ==> At(r, p) == At(v, p)
  {
    match Paint(mode, src, At(v, q))
    case Some(c) => v[q := c]
    case None => v
  }

  //////////////////////////////////////////////////////////////////////////
  // The six drawing routines
  //////////////////////////////////////////////////////////////////////////

  /** The viewport points under the bitmap. */
  function CoveredPoints(X: int, Y: int, bmp: Bitmap): (s: set<Point>)
    ensures forall p :: p in s <==> Covered(X, Y, bmp, p)
  {
    set px, py | X <= px < X + Width(bmp) && Y <= py < Y + bmp.height :: (px, py)
  }

  /** Copies the bitmap verbatim; nothing outside it changes. */
  method DrawBitmap(v: Viewport, X: int, Y: int, bmp: Bitmap) returns (r: Viewport)
    ensures forall p :: Covered(X, Y, bmp, p) ==> p in r && r[p] == SourceAt(X, Y, bmp, p)
    ensures forall p :: !Covered(X, Y, bmp, p) ==> At(r, p) == At(v, p)
    ensures r.Keys == v.Keys + CoveredPoints(X, Y, bmp)
  {
    r := DrawWith(v, X, Y, bmp, Copy);
    forall p | Covered(X, Y, bmp, p) ensures At(r, p) == Paint(Copy, SourceAt(X, Y, bmp, p), At(v, p)) {
      assert At(r, p) == Composited(v, X, Y, bmp, Copy, p);
    }
    forall p | !Covered(X, Y, bmp, p) ensures At(r, p) == At(v, p) {
      assert At(r, p) == Composited(v, X, Y, bmp, Copy, p);
    }
  }

  /** Cutout drawing: pixels with zero alpha leave the viewport as it was, all others are copied verbatim. */
  method DrawSprite(v: Viewport, X: int, Y: int, bmp: Bitmap) returns (r: Viewport)
    ensures forall p :: Covered(X, Y, bmp, p) && SourceAt(X, Y, bmp, p).a == 0 ==> At(r, p) == At(v, p)
    ensures forall p :: Covered(X, Y, bmp, p) && SourceAt(X, Y, bmp, p).a != 0 ==> p in r && r[p] == SourceAt(X, Y, bmp, p)
    ensures forall p :: !Covered(X, Y, bmp, p) ==> At(r, p) == At(v, p)
  {
    r := DrawWith(v, X, Y, bmp, Cutout);
    forall p | Covered(X, Y, bmp, p) ensures At(r, p) == Paint(Cutout, SourceAt(X, Y, bmp, p), At(v, p)) {
      assert At(r, p) == Composited(v, X, Y, bmp, Cutout, p);
    }
    forall p | !Covered(X, Y, bmp, p) ensures At(r, p) == At(v, p) {
      assert At(r, p) == Composited(v, X, Y, bmp, Cutout, p);
    }
  }

  /** Alpha blending: every covered pixel becomes the opaque alpha blend of bitmap and viewport. */
  method DrawSpriteAlpha(v: Viewport, X: int, Y: int, bmp: Bitmap) returns (r: Viewport)
    requires Underlies(v, X, Y, bmp)
    ensures forall p :: Covered(X, Y, bmp, p) ==>
              var s := SourceAt(X, Y, bmp, p);
              p in r && r[p] == FromRgb(AlphaChannel(s.r, v[p].r, s.a), AlphaChannel(s.g, v[p].g, s.a), AlphaChannel(s.b, v[p].b, s.a))
    ensures forall p :: !Covered(X, Y, bmp, p) ==> At(r, p) == At(v, p)
    ensures r.Keys == v.Keys
  {
    r := DrawWith(v, X, Y, bmp, Alpha);
    forall p | Covered(X, Y, bmp, p) ensures At(r, p) == Paint(Alpha, SourceAt(X, Y, bmp, p), At(v, p)) {
      assert At(r, p) == Composited(v, X, Y, bmp, Alpha, p);
    }
    forall p | !Covered(X, Y, bmp, p) ensures At(r, p) == At(v, p) {
      assert At(r, p) == Composited(v, X, Y, bmp, Alpha, p);
    }
  }

  /** Additive blending with per-channel saturation. */
  method DrawSpriteAdd(v: Viewport, X: int, Y: int, bmp: Bitmap) returns (r: Viewport)
    requires Underlies(v, X, Y, bmp)
    ensures forall p :: Covered(X, Y, bmp, p) ==>
              var s := SourceAt(X, Y, bmp, p);
              p in r && r[p] == FromRgb(AddChannel(s.r, v[p].r), AddChannel(s.g, v[p].g), AddChannel(s.b, v[p].b))
    ensures forall p :: !Covered(X, Y, bmp, p) ==> At(r, p) == At(v, p)
    ensures r.Keys == v.Keys
  {
    r := DrawWith(v, X, Y, bmp, Additive);
    forall p | Covered(X, Y, bmp, p) ensures At(r, p) == Paint(Additive, SourceAt(X, Y, bmp, p), At(v, p)) {
      assert At(r, p) == Composited(v, X, Y, bmp, Additive, p);
    }
    forall p | !Covered(X, Y, bmp, p) ensures At(r, p) == At(v, p) {
      assert At(r, p) == Composited(v, X, Y, bmp, Additive, p);
    }
  }

  /** Multiplicative blending. */
  method DrawSpriteMultiply(v: Viewport, X: int, Y: int, bmp: Bitmap) returns (r: Viewport)
    requires Underlies(v, X, Y, bmp)
    ensures forall p :: Covered(X, Y, bmp, p) ==>
              var s := SourceAt(X, Y, bmp, p);
              p in r && r[p] == FromRgb(MultiplyChannel(s.r, v[p].r), MultiplyChannel(s.g, v[p].g), MultiplyChannel(s.b, v[p].b))
    ensures forall p :: !Covered(X, Y, bmp, p) ==> At(r, p) == At(v, p)
    ensures r.Keys == v.Keys
  {
    r := DrawWith(v, X, Y, bmp, Multiply);
    forall p | Covered(X, Y, bmp, p) ensures At(r, p) == Paint(Multiply, SourceAt(X, Y, bmp, p), At(v, p)) {
      assert At(r, p) == Composited(v, X, Y, bmp, Multiply, p);
    }
    forall p | !Covered(X, Y, bmp, p) ensures At(r, p) == At(v, p) {
      assert At(r, p) == Composited(v, X, Y, bmp, Multiply, p);
    }
  }

  /** "Luminosity" blending: each source channel acts as its own alpha. */
  method DrawSpriteLuminosity(v: Viewport, X: int, Y: int, bmp: Bitmap) returns (r: Viewport)
    requires Underlies(v, X, Y, bmp)
    ensures forall p :: Covered(X, Y, bmp, p) ==>
              var s := SourceAt(X, Y, bmp, p);
              p in r && r[p] == FromRgb(LuminosityChannel(s.r, v[p].r), LuminosityChannel(s.g, v[p].g), LuminosityChannel(s.b, v[p].b))
    ensures forall p :: !Covered(X, Y, bmp, p) ==> At(r, p) == At(v, p)
    ensures r.Keys == v.Keys
  {
    r := DrawWith(v, X, Y, bmp, Luminosity);
    forall p | Covered(X, Y, bmp, p) ensures At(r, p) == Paint(Luminosity, SourceAt(X, Y, bmp, p), At(v, p)) {
      assert At(r, p) == Composited(v, X, Y, bmp, Luminosity, p);
    }
    forall p | !Covered(X, Y, bmp, p) ensures At(r, p) == At(v, p) {
      assert At(r, p) == Composited(v, X, Y, bmp, Luminosity, p);
    }
  }

  //////////////////////////////////////////////////////////////////////////
  // Relations between the blend formulas
  //////////////////////////////////////////////////////////////////////////

  /** Additive blending does not depend on which operand is the sprite. */
  lemma AddSymmetric(s: Channel, v: Channel)
    ensures AddChannel(s, v) == AddChannel(v, s)
  {
  }

  /** Multiplicative blending does not depend on which operand is the sprite. */
  lemma MultiplySymmetric(s: Channel, v: Channel)
    ensures MultiplyChannel(s, v) == MultiplyChannel(v, s)
  {
  }

  /** Luminosity blending is alpha blending with the source channel as the alpha. */
  lemma LuminosityIsSelfAlpha(s: Channel, v: Channel)
    ensures LuminosityChannel(s, v) == AlphaChannel(s, v, s)
    ensures (if s <= v then s else v) <= LuminosityChannel(s, v) <= (if s <= v then v else s)
  {
  }

  /** Blending an opaque sprite overwrites the viewport exactly as copying does. */
  lemma OpaqueAlphaIsCopy(src: Colour, dst: Colour)
    requires src.a == 255
    ensures AlphaBlend(src, dst) == src
  {
  }

  /** A fully transparent sprite pixel leaves the colour channels untouched (alpha becomes opaque). */
  lemma TransparentAlphaKeepsColour(src: Colour, dst: Colour)
    requires src.a == 0
    ensures AlphaBlend(src, dst) == FromRgb(dst.r, dst.g, dst.b)
  {
  }
}
