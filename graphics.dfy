/** Value types shared by the plugin and the widget: 2-D and 3-D vectors, axis-aligned bounds,
    the single-precision range limit and the minimum/maximum of a sequence of reals. */
module Graphics {

  /** `FLT_MAX`, the largest finite single-precision float. */
  const FLT_MAX: real := 340282346638528859811704183484516925440.0

  /** A finite single-precision value lies within [-FLT_MAX, FLT_MAX]. */
  predicate Finite(v: real) {
    -FLT_MAX <= v <= FLT_MAX
  }

  predicate AllFinite(s: seq<real>) {
    forall i :: 0 <= i < |s| ==> Finite(s[i])
  }

  datatype Vec2 = Vec2(x: real, y: real)

  predicate FinitePoint(p: Vec2) {
    Finite(p.x) && Finite(p.y)
  }

  /** A `Vector3f`: colours (r, g, b) and colour-map ranges. Its default value is all zeros. */
  datatype Vec3 = Vec3(x: real, y: real, z: real)

  const ZeroVec3: Vec3 := Vec3(0.0, 0.0, 0.0)

  /** An axis-aligned rectangle in data space. */
  datatype Bounds = Bounds(left: real, right: real, bottom: real, top: real)

  /** `Bounds::Max`: the inverted sentinel every min/max fold starts from. */
  const MaxBounds: Bounds := Bounds(FLT_MAX, -FLT_MAX, FLT_MAX, -FLT_MAX)

  /** Smallest element of a non-empty sequence. */
  function Min(s: seq<real>): (m: real)
    requires |s| > 0
    ensures m in s
    ensures forall i :: 0 <= i < |s| ==> m <= s[i]
  {
    if |s| == 1 then s[0]
    else
      var rest := Min(s[..|s| - 1]);
      if s[|s| - 1] < rest then s[|s| - 1] else rest
  }

  /** Largest element of a non-empty sequence (what `*std::max_element` reads). */
  function Max(s: seq<real>): (m: real)
    requires |s| > 0
    ensures m in s
    ensures forall i :: 0 <= i < |s| ==> s[i] <= m
  {
    if |s| == 1 then s[0]
    else
      var rest := Max(s[..|s| - 1]);
      if s[|s| - 1] > rest then s[|s| - 1] else rest
  }
}
