/**
 Keyboard-driven transform state shared by the 3D labs' update functions.

 Held keys are a set. Each `if (KeyHeld(key)) value += delta;` of the
 source becomes one `Move`, applied in the source's order; the contracts
 then state the net effect of all the held keys at once.
 */
module Transforms {

  import opened Geometry
  import Projection

  datatype Key =
    | KeyA | KeyD | KeyE | KeyF | KeyG | KeyH | KeyI | KeyJ | KeyK | KeyL | KeyO | KeyQ
    | KeyR | KeyS | KeyT | KeyU | KeyW | KeyX | KeyY | KeyZ | Key1
    | KeyUp | KeyDown | KeyLeft | KeyRight | KeyPeriod | KeyComma

  /** +1 when only `plus` is held, -1 when only `minus` is held, 0 otherwise. */
  function Net(keys: set<Key>, plus: Key, minus: Key): real
  {
    (if plus in keys then 1.0 else 0.0) - (if minus in keys then 1.0 else 0.0)
  }

  /** `if (KeyHeld(key)) value += delta;` */
  function Nudge(value: real, held: bool, delta: real): real
  {
    if held then value + delta else value
  }

  /** `if (KeyHeld(key)) { p.x += d * dir.x; p.y += d * dir.y; p.z += d * dir.z; }` */
  function Move(p: Vec3, held: bool, dir: Vec3, d: real): Vec3
  {
    if held then p.Plus(dir.Scaled(d)) else p
  }

  /** A key pair moving forwards and backwards along one direction nets out to `Net` steps along it. */
  lemma MovePair(p: Vec3, keys: set<Key>, plus: Key, minus: Key, dir: Vec3, d: real)
    ensures Move(Move(p, plus in keys, dir, d), minus in keys, dir, -d) == p.Plus(dir.Scaled(d * Net(keys, plus, minus)))
  {
  }

  /** A key pair nudging one value up and down by `a`: nets out to `a * Net`. */
  function Turn(value: real, keys: set<Key>, plus: Key, minus: Key, a: real): (r: real)
    ensures r == value + a * Net(keys, plus, minus)
  {
    Nudge(Nudge(value, plus in keys, a), minus in keys, -a)
  }

  /** The camera's rotation keys in every lab: Down/Up about x, Right/Left about y, by `a` radians each. */
  function CameraRotation(rot: Vec3, keys: set<Key>, a: real): (r: Vec3)
    ensures r == rot.Plus(Vec3(Net(keys, KeyDown, KeyUp), Net(keys, KeyRight, KeyLeft), 0.0).Scaled(a))
  {
    Vec3(Turn(rot.x, keys, KeyDown, KeyUp, a), Turn(rot.y, keys, KeyRight, KeyLeft, a), rot.z)
  }

  /**
   Three key pairs each nudging one coordinate of `v` by `a`, as in
   `if (KeyHeld(xPlus)) v.x += a; if (KeyHeld(xMinus)) v.x -= a;` and the
   same for y and z: `v` moves by `a` times the pairs' net directions.
   */
  function AxisNudges(v: Vec3, keys: set<Key>, xPlus: Key, xMinus: Key, yPlus: Key, yMinus: Key,
                      zPlus: Key, zMinus: Key, a: real): (r: Vec3)
    ensures r == v.Plus(Vec3(Net(keys, xPlus, xMinus), Net(keys, yPlus, yMinus), Net(keys, zPlus, zMinus)).Scaled(a))
  {
    Vec3(Turn(v.x, keys, xPlus, xMinus, a), Turn(v.y, keys, yPlus, yMinus, a), Turn(v.z, keys, zPlus, zMinus, a))
  }

  /** Position, Euler rotation (radians) and per-axis scale of a model. */
  datatype Pose = Pose(position: Vec3, rotation: Vec3, scale: Vec3)

  /** A model's world matrix: Scaling * RotationZ * RotationX * RotationY * Translation. */
  function ModelWorld(lib: MatrixLib, pose: Pose): Matrix
  {
    lib.mul(lib.mul(lib.mul(lib.mul(lib.scaling(pose.scale), lib.rotationZ(pose.rotation.z)),
                            lib.rotationX(pose.rotation.x)), lib.rotationY(pose.rotation.y)),
            lib.translation(pose.position))
  }

  /** A camera's world matrix: as a model's but without a scaling term. */
  function CameraWorld(lib: MatrixLib, position: Vec3, rotation: Vec3): Matrix
  {
    lib.mul(lib.mul(lib.mul(lib.rotationZ(rotation.z), lib.rotationX(rotation.x)), lib.rotationY(rotation.y)),
            lib.translation(position))
  }

  /** A camera: position, Euler rotation, and the three matrices the renderer reads. */
  datatype Camera = Camera(position: Vec3, rotation: Vec3, world: Matrix, view: Matrix, projection: Matrix)

  /**
   The matrices every lab's `UpdateCamera` rebuilds once the camera has
   moved: the world matrix, the view matrix as its affine inverse, and the
   projection matrix for `settings`.
   */
  function PlaceCamera(lib: MatrixLib, tan: real -> real, settings: Projection.Settings, position: Vec3, rotation: Vec3): (r: Camera)
    requires Projection.Projectable(tan, settings)
    ensures r.position == position && r.rotation == rotation
    ensures r.world == CameraWorld(lib, position, rotation)
    ensures r.view == lib.inverseAffine(r.world)
    ensures r.projection == Projection.MakeProjectionMatrix(tan, settings)
  {
    var world := CameraWorld(lib, position, rotation);
    Camera(position, rotation, world, lib.inverseAffine(world), Projection.MakeProjectionMatrix(tan, settings))
  }
}
