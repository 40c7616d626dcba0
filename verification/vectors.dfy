/** The engine's small value types (FVector, FVector2D, FLinearColor) and the
    arithmetic the glow code performs on them.

    Components are reals: single-precision rounding is not modelled. The
    operations whose results depend on a square root, on the engine's
    tolerances or on the actor's transform are not interpreted at all: they
    are the fields of an `Engine` value that every caller receives as a
    parameter, so no property proved here depends on how they behave. */
module Vectors {

  datatype Vec3 = Vec3(x: real, y: real, z: real)

  datatype Vec2 = Vec2(x: real, y: real)

  datatype LinearColor = LinearColor(r: real, g: real, b: real, a: real)

  const Zero3: Vec3 := Vec3(0.0, 0.0, 0.0)

  const Transparent: LinearColor := LinearColor(0.0, 0.0, 0.0, 0.0)

  function Add(u: Vec3, v: Vec3): Vec3 {
    Vec3(u.x + v.x, u.y + v.y, u.z + v.z)
  }

  function Sub(u: Vec3, v: Vec3): Vec3 {
    Vec3(u.x - v.x, u.y - v.y, u.z - v.z)
  }

  function Scale(s: real, v: Vec3): Vec3 {
    Vec3(s * v.x, s * v.y, s * v.z)
  }

  /** `U ^ V` on FVector. */
  function Cross(u: Vec3, v: Vec3): Vec3 {
    Vec3(u.y * v.z - u.z * v.y, u.z * v.x - u.x * v.z, u.x * v.y - u.y * v.x)
  }

  /** `U | V` on FVector. */
  function Dot(u: Vec3, v: Vec3): real {
    u.x * v.x + u.y * v.y + u.z * v.z
  }

  /** FMath::Sign: zero stays zero. */
  function Sign(x: real): (r: real)
    ensures r * x == Abs(x)
    ensures r == 0.0 <==> x == 0.0
  {
    if x > 0.0 then 1.0 else if x < 0.0 then -1.0 else 0.0
  }

  function Abs(x: real): real {
    if x < 0.0 then -x else x
  }

  /** The running sum `CenterPoint += Points[i]`, accumulated left to right. */
  function Sum(ps: seq<Vec3>): Vec3
    decreases |ps|
  {
    if |ps| == 0 then Zero3 else Add(Sum(ps[..|ps| - 1]), ps[|ps| - 1])
  }

  /** `CenterPoint /= N` after the sum. */
  function Centroid(ps: seq<Vec3>): Vec3
    requires |ps| > 0
  {
    var s := Sum(ps);
    var k := |ps| as real;
    Vec3(s.x / k, s.y / k, s.z / k)
  }

  /** `FVector2D(V)`: keeps the X and Y components. */
  function To2D(v: Vec3): Vec2 {
    Vec2(v.x, v.y)
  }

  /** `0.5f * UV + 0.5f`: maps a direction component from [-1,1] to [0,1]. */
  function Pack(uv: Vec2): (r: Vec2)
    ensures -1.0 <= uv.x <= 1.0 ==> 0.0 <= r.x <= 1.0
    ensures -1.0 <= uv.y <= 1.0 ==> 0.0 <= r.y <= 1.0
  {
    Vec2(0.5 * uv.x + 0.5, 0.5 * uv.y + 0.5)
  }

  /** What a shader does to recover the direction from a packed UV. */
  function Unpack(uv: Vec2): Vec2 {
    Vec2(2.0 * uv.x - 1.0, 2.0 * uv.y - 1.0)
  }

  lemma PackRoundTrip(uv: Vec2)
    ensures Unpack(Pack(uv)) == uv
    ensures Pack(Unpack(uv)) == uv
  {
  }

  /** The engine calls the glow code relies on but whose implementation is not
      part of this model. Curves are identified by a handle. */
  datatype Engine = Engine(
    safeNormal: Vec3 -> Vec3,                  // FVector::GetSafeNormal
    unsafeNormal: Vec3 -> Vec3,                // FVector::GetUnsafeNormal
    normalize: Vec3 -> Vec3,                   // FVector::Normalize, in place
    mappedRangeClamped: (Vec2, real) -> real,  // FMath::GetMappedRangeValueClamped(range, {0,1}, x)
    distance: (Vec3, Vec3) -> real,            // FVector::Distance
    curveValue: (nat, real) -> real,           // UCurveFloat::GetFloatValue
    toWorldVector: Vec3 -> Vec3,               // component transform: TransformVector
    toLocalVector: Vec3 -> Vec3,               // InverseTransformVector
    toLocalVectorNoScale: Vec3 -> Vec3         // InverseTransformVectorNoScale
  )
}
