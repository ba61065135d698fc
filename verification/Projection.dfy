/**
 Angle conversion and the perspective projection matrix
 (`ToRadians`, `ToDegrees`, `MakeProjectionMatrix`), which the labs repeat
 verbatim in several helper files. Computed over the reals; `tan` is a
 parameter.
 */
module Projection {

  import opened Geometry

  /** The labs' single-precision value of pi. */
  const PI: real := 3.14159265359

  function ToRadians(d: real): real
  {
    d * PI / 180.0
  }

  function ToDegrees(r: real): real
  {
    r * 180.0 / PI
  }

  lemma DegreesRoundTrip(d: real)
    ensures ToDegrees(ToRadians(d)) == d
  {
  }

  lemma RadiansRoundTrip(r: real)
    ensures ToRadians(ToDegrees(r)) == r
  {
  }

  lemma RadiansLandmarks()
    ensures ToRadians(0.0) == 0.0 && ToRadians(180.0) == PI && ToRadians(90.0) == PI / 2.0
  {
  }

  lemma RadiansAdditive(a: real, b: real)
    ensures ToRadians(a + b) == ToRadians(a) + ToRadians(b)
  {
  }

  /** The four camera settings: aspect ratio, horizontal field of view (radians), near and far clip distances. */
  datatype Settings = Settings(aspectRatio: real, fovX: real, nearClip: real, farClip: real)

  /** The parameters `MakeProjectionMatrix` divides by are nonzero. */
  predicate Projectable(tan: real -> real, s: Settings)
  {
    tan(s.fovX * 0.5) != 0.0 && s.farClip != s.nearClip
  }

  /**
   The projection matrix. Only five entries are nonzero: the x and y scales
   on the diagonal, the two depth terms in column 2, and the 1 that copies
   view-space z into w.
   */
  function MakeProjectionMatrix(tan: real -> real, s: Settings): (m: Matrix)
    requires Projectable(tan, s)
    ensures m.row0.y == 0.0 && m.row0.z == 0.0 && m.row0.w == 0.0
    ensures m.row1.x == 0.0 && m.row1.z == 0.0 && m.row1.w == 0.0
    ensures m.row2.x == 0.0 && m.row2.y == 0.0 && m.row2.w == 1.0
    ensures m.row3.x == 0.0 && m.row3.y == 0.0 && m.row3.w == 0.0
    ensures m.row0.x * tan(s.fovX * 0.5) == 1.0
    ensures m.row1.y == s.aspectRatio * m.row0.x
    ensures m.row2.z * (s.farClip - s.nearClip) == s.farClip
    ensures m.row3.z == -s.nearClip * m.row2.z
  {
    var tanFOVx := tan(s.fovX * 0.5);
    var scaleX := 1.0 / tanFOVx;
    var scaleY := s.aspectRatio / tanFOVx;
    var scaleZa := s.farClip / (s.farClip - s.nearClip);
    var scaleZb := -s.nearClip * scaleZa;
    Matrix(Vec4(scaleX, 0.0, 0.0, 0.0),
           Vec4(0.0, scaleY, 0.0, 0.0),
           Vec4(0.0, 0.0, scaleZa, 1.0),
           Vec4(0.0, 0.0, scaleZb, 0.0))
  }

  /** Clip-space position of a view-space point (x, y, z, 1). */
  function Project(tan: real -> real, s: Settings, x: real, y: real, z: real): (c: Vec4)
    requires Projectable(tan, s)
    ensures c.w == z
    ensures c.x == x * MakeProjectionMatrix(tan, s).row0.x && c.y == y * MakeProjectionMatrix(tan, s).row1.y
  {
    Transform(Vec4(x, y, z, 1.0), MakeProjectionMatrix(tan, s))
  }

  /** Depth after the perspective divide: clip z over clip w. */
  function Depth(tan: real -> real, s: Settings, z: real): real
    requires Projectable(tan, s) && z != 0.0
  {
    var c := Project(tan, s, 0.0, 0.0, z);
    c.z / c.w
  }

  /** The near clip plane maps to depth 0. */
  lemma NearMapsToZero(tan: real -> real, s: Settings)
    requires Projectable(tan, s) && s.nearClip != 0.0
    ensures Depth(tan, s, s.nearClip) == 0.0
  {
    var m := MakeProjectionMatrix(tan, s);
    assert Project(tan, s, 0.0, 0.0, s.nearClip).z == s.nearClip * m.row2.z + m.row3.z;
  }

  /** The far clip plane maps to depth 1. */
  lemma FarMapsToOne(tan: real -> real, s: Settings)
    requires Projectable(tan, s) && s.farClip != 0.0
    ensures Depth(tan, s, s.farClip) == 1.0
  {
    var m := MakeProjectionMatrix(tan, s);
    var za := m.row2.z;
    var n, f := s.nearClip, s.farClip;
    assert Project(tan, s, 0.0, 0.0, f).z == f * za - n * za;
    assert f * za - n * za == za * (f - n) == f;
  }

  /** Between the clip planes depth increases strictly with distance. */
  lemma DepthIncreasing(tan: real -> real, s: Settings, z1: real, z2: real)
    requires Projectable(tan, s) && 0.0 < s.nearClip < s.farClip
    requires 0.0 < z1 < z2
    ensures Depth(tan, s, z1) < Depth(tan, s, z2)
  {
    var za := MakeProjectionMatrix(tan, s).row2.z;
    var n := s.nearClip;
    assert za > 0.0;
    assert Depth(tan, s, z1) == za - n * za / z1;
    assert Depth(tan, s, z2) == za - n * za / z2;
    var a := n * za;
    assert a > 0.0;
    assert a / z2 < a / z1 by {
      var q1, q2 := a / z1, a / z2;
      assert q1 * z1 == a && q2 * z2 == a;
      assert q2 > 0.0;
      assert q2 * z1 < q2 * z2;
    }
  }

  /** Between the clip planes depth stays within [0, 1]. */
  lemma DepthWithinClipRange(tan: real -> real, s: Settings, z: real)
    requires Projectable(tan, s) && 0.0 < s.nearClip < s.farClip
    requires s.nearClip <= z <= s.farClip
    ensures 0.0 <= Depth(tan, s, z) <= 1.0
  {
    NearMapsToZero(tan, s);
    FarMapsToOne(tan, s);
    if s.nearClip < z {
      DepthIncreasing(tan, s, s.nearClip, z);
    }
    if z < s.farClip {
      DepthIncreasing(tan, s, z, s.farClip);
    }
  }

  /** The default arguments declared with `MakeProjectionMatrix` in MathHelpers.h: 4:3, 90 degrees, 0.1 to 10000. */
  const MathHelpersDefaults := Settings(4.0 / 3.0, ToRadians(90.0), 0.1, 10000.0)

  /** The default field of view declared in the Texturing lab's SceneHelpers.h, and documented with PixelLighting's `MakeProjectionMatrix`, is 60 degrees instead. */
  const TexturingDefaults := Settings(4.0 / 3.0, ToRadians(60.0), 0.1, 10000.0)

  /** With the default settings the y scale is 4/3 of the x scale and the clip range 0.1 .. 10000 maps onto depth 0 .. 1. */
  lemma DefaultProjection(tan: real -> real, s: Settings)
    requires s == MathHelpersDefaults || s == TexturingDefaults
    requires tan(s.fovX * 0.5) != 0.0
    ensures MakeProjectionMatrix(tan, s).row1.y == 4.0 / 3.0 * MakeProjectionMatrix(tan, s).row0.x
    ensures Depth(tan, s, 0.1) == 0.0 && Depth(tan, s, 10000.0) == 1.0
    ensures forall z :: 0.1 <= z <= 10000.0 ==> 0.0 <= Depth(tan, s, z) <= 1.0
  {
    NearMapsToZero(tan, s);
    FarMapsToOne(tan, s);
    forall z | 0.1 <= z <= 10000.0 ensures 0.0 <= Depth(tan, s, z) <= 1.0 {
      DepthWithinClipRange(tan, s, z);
    }
  }
}
