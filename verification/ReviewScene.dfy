/**
 Per-frame update of the Review lab: the cube's rotation, scale and
 position under the keyboard, the camera's rotation and position, and the
 matrices rebuilt from them every frame.

 Keys I/K, J/L and U/O rotate the cube. X is a modifier selecting scaling
 with H/F, T/G and R/Y; otherwise Z selects movement along the world axes;
 otherwise the same keys move the cube along its own axes, read from the
 previous frame's world matrix.
 */
module ReviewScene {

  import opened Geometry
  import opened Transforms
  import Projection

  const kRotationSpeed: real := 4.0
  const kMovementSpeed: real := 10.0
  const kScaleSpeed: real := 2.0

  /** The cube's transform state and the world matrix built from it. */
  datatype Cube = Cube(pose: Pose, world: Matrix)

  /** `s *= p` when `grow` is held, then `s /= p` when `shrink` is held. */
  function Rescale(s: real, grow: bool, shrink: bool, p: real): real
    requires p != 0.0
  {
    var g := if grow then s * p else s;
    if shrink then g / p else g
  }

  /** The six local movement keys H/F, R/Y and T/G each take a step of `d` along one of three directions, in that order. */
  function Movement(p: Vec3, keys: set<Key>, xAxis: Vec3, yAxis: Vec3, zAxis: Vec3, d: real): (r: Vec3)
    ensures r == p.Plus(xAxis.Scaled(d * Net(keys, KeyH, KeyF)))
                  .Plus(yAxis.Scaled(d * Net(keys, KeyR, KeyY)))
                  .Plus(zAxis.Scaled(d * Net(keys, KeyT, KeyG)))
  {
    MovePair(p, keys, KeyH, KeyF, xAxis, d);
    var p1 := Move(Move(p, KeyH in keys, xAxis, d), KeyF in keys, xAxis, -d);
    MovePair(p1, keys, KeyR, KeyY, yAxis, d);
    var p2 := Move(Move(p1, KeyR in keys, yAxis, d), KeyY in keys, yAxis, -d);
    MovePair(p2, keys, KeyT, KeyG, zAxis, d);
    Move(Move(p2, KeyT in keys, zAxis, d), KeyG in keys, zAxis, -d)
  }

  /** The scaling keys under X: H/F on x, T/G on y, R/Y on z, by the factor `p`. */
  function CubeScale(s: Vec3, keys: set<Key>, p: real): Vec3
    requires p != 0.0
  {
    Vec3(Rescale(s.x, KeyH in keys, KeyF in keys, p),
         Rescale(s.y, KeyT in keys, KeyG in keys, p),
         Rescale(s.z, KeyR in keys, KeyY in keys, p))
  }

  /**
   The pose `UpdateCube` leaves behind. `frameTime` is the time since the
   previous frame, `world` the cube's world matrix from that frame, whose
   rows are the cube's local axes; `powf(kScaleSpeed, frameTime)` is positive.
   */
  function MoveCube(maths: Maths, keys: set<Key>, frameTime: real, pose: Pose, world: Matrix): (r: Pose)
    requires maths.pow(kScaleSpeed, frameTime) > 0.0
    ensures r.rotation == pose.rotation.Plus(
              Vec3(Net(keys, KeyK, KeyI), Net(keys, KeyL, KeyJ), Net(keys, KeyU, KeyO)).Scaled(kRotationSpeed * frameTime))
    ensures KeyX in keys ==>
              && r.position == pose.position
              && r.scale == CubeScale(pose.scale, keys, maths.pow(kScaleSpeed, frameTime))
    ensures KeyX !in keys ==> r.scale == pose.scale
    ensures KeyX !in keys && KeyZ in keys ==>
              r.position == pose.position.Plus(
                Vec3(Net(keys, KeyH, KeyF), Net(keys, KeyR, KeyY), Net(keys, KeyT, KeyG)).Scaled(kMovementSpeed * frameTime))
    ensures KeyX !in keys && KeyZ !in keys ==>
              r.position == pose.position.Plus(Axis(world.row0).Scaled(kMovementSpeed * frameTime * Net(keys, KeyH, KeyF)))
                                         .Plus(Axis(world.row1).Scaled(kMovementSpeed * frameTime * Net(keys, KeyR, KeyY)))
                                         .Plus(Axis(world.row2).Scaled(kMovementSpeed * frameTime * Net(keys, KeyT, KeyG)))
  {
    var rotation := AxisNudges(pose.rotation, keys, KeyK, KeyI, KeyL, KeyJ, KeyU, KeyO, kRotationSpeed * frameTime);
    var p := pose.position;
    if KeyX in keys then
      pose.(rotation := rotation, scale := CubeScale(pose.scale, keys, maths.pow(kScaleSpeed, frameTime)))
    else if KeyZ in keys then
      pose.(rotation := rotation, position := AxisNudges(p, keys, KeyH, KeyF, KeyR, KeyY, KeyT, KeyG, kMovementSpeed * frameTime))
    else
      pose.(rotation := rotation, position := Movement(p, keys, Axis(world.row0), Axis(world.row1), Axis(world.row2),
                                                       kMovementSpeed * frameTime))
  }

  /** `UpdateCube`: the new pose, and the world matrix rebuilt from it. */
  function UpdateCube(lib: MatrixLib, maths: Maths, keys: set<Key>, frameTime: real, cube: Cube): (r: Cube)
    requires maths.pow(kScaleSpeed, frameTime) > 0.0
    ensures r.pose == MoveCube(maths, keys, frameTime, cube.pose, cube.world)
    ensures r.world == ModelWorld(lib, r.pose)
  {
    var pose := MoveCube(maths, keys, frameTime, cube.pose, cube.world);
    Cube(pose, ModelWorld(lib, pose))
  }

  /** Growing and shrinking along one axis in the same frame cancel out. */
  lemma GrowShrinkCancel(s: real, p: real)
    requires p != 0.0
    ensures Rescale(s, true, true, p) == s
  {
  }

  /** With no key held the cube's transform stays as it was. */
  lemma NoKeysNoChange(lib: MatrixLib, maths: Maths, frameTime: real, cube: Cube)
    requires maths.pow(kScaleSpeed, frameTime) > 0.0
    ensures UpdateCube(lib, maths, {}, frameTime, cube).pose == cube.pose
  {
  }

  /** Rotation is linear in time: two frames of t1 and t2 rotate as far as one frame of t1 + t2. */
  lemma RotationAdditive(lib: MatrixLib, maths: Maths, keys: set<Key>, t1: real, t2: real, cube: Cube)
    requires maths.pow(kScaleSpeed, t1) > 0.0 && maths.pow(kScaleSpeed, t2) > 0.0 && maths.pow(kScaleSpeed, t1 + t2) > 0.0
    ensures UpdateCube(lib, maths, keys, t2, UpdateCube(lib, maths, keys, t1, cube)).pose.rotation
         == UpdateCube(lib, maths, keys, t1 + t2, cube).pose.rotation
  {
    var n := Vec3(Net(keys, KeyK, KeyI), Net(keys, KeyL, KeyJ), Net(keys, KeyU, KeyO));
    assert n.Scaled(kRotationSpeed * t1).Plus(n.Scaled(kRotationSpeed * t2)) == n.Scaled(kRotationSpeed * (t1 + t2));
  }

  /** World-axis movement (Z held, X not) is linear in time as well. */
  lemma WorldMovementAdditive(lib: MatrixLib, maths: Maths, keys: set<Key>, t1: real, t2: real, cube: Cube)
    requires KeyZ in keys && KeyX !in keys
    requires maths.pow(kScaleSpeed, t1) > 0.0 && maths.pow(kScaleSpeed, t2) > 0.0 && maths.pow(kScaleSpeed, t1 + t2) > 0.0
    ensures UpdateCube(lib, maths, keys, t2, UpdateCube(lib, maths, keys, t1, cube)).pose.position
         == UpdateCube(lib, maths, keys, t1 + t2, cube).pose.position
  {
    var n := Vec3(Net(keys, KeyH, KeyF), Net(keys, KeyR, KeyY), Net(keys, KeyT, KeyG));
    assert n.Scaled(kMovementSpeed * t1).Plus(n.Scaled(kMovementSpeed * t2)) == n.Scaled(kMovementSpeed * (t1 + t2));
  }

  /** The camera's transform state and the three matrices rebuilt from it. */
  /**
   The position and rotation `UpdateCamera` leaves behind: arrows rotate; Z
   selects world-axis movement with D/A, Q/E and W/S, otherwise those keys
   move along the rows of the previous frame's world matrix `world`.
   */
  function MoveCamera(keys: set<Key>, frameTime: real, position: Vec3, rotation: Vec3, world: Matrix): (r: (Vec3, Vec3))
    ensures r.1 == rotation.Plus(
              Vec3(Net(keys, KeyDown, KeyUp), Net(keys, KeyRight, KeyLeft), 0.0).Scaled(kRotationSpeed * frameTime))
    ensures KeyZ in keys ==>
              r.0 == position.Plus(
                Vec3(Net(keys, KeyD, KeyA), Net(keys, KeyQ, KeyE), Net(keys, KeyW, KeyS)).Scaled(kMovementSpeed * frameTime))
    ensures KeyZ !in keys ==>
              r.0 == position.Plus(Axis(world.row0).Scaled(kMovementSpeed * frameTime * Net(keys, KeyD, KeyA)))
                             .Plus(Axis(world.row1).Scaled(kMovementSpeed * frameTime * Net(keys, KeyQ, KeyE)))
                             .Plus(Axis(world.row2).Scaled(kMovementSpeed * frameTime * Net(keys, KeyW, KeyS)))
  {
    var newRotation := CameraRotation(rotation, keys, kRotationSpeed * frameTime);
    if KeyZ in keys then
      (AxisNudges(position, keys, KeyD, KeyA, KeyQ, KeyE, KeyW, KeyS, kMovementSpeed * frameTime), newRotation)
    else
      (CameraMovement(position, keys, Axis(world.row0), Axis(world.row1), Axis(world.row2), kMovementSpeed * frameTime),
       newRotation)
  }

  /**
   `UpdateCamera`: the moved camera, its world matrix, the view matrix as that
   matrix's affine inverse, and the projection matrix of
   `MakeProjectionMatrix()` with its default arguments `defaults`: 4:3, 0.1
   to 10000, and a field of view of 90 degrees as in MathHelpers.h or 60
   degrees as in the later labs' SceneHelpers.
   */
  function UpdateCamera(lib: MatrixLib, maths: Maths, defaults: Projection.Settings, keys: set<Key>, frameTime: real, camera: Camera): (r: Camera)
    requires defaults == Projection.MathHelpersDefaults || defaults == Projection.TexturingDefaults
    requires Projection.Projectable(maths.tan, defaults)
    ensures (r.position, r.rotation) == MoveCamera(keys, frameTime, camera.position, camera.rotation, camera.world)
    ensures r.world == CameraWorld(lib, r.position, r.rotation)
    ensures r.view == lib.inverseAffine(r.world)
    ensures r.projection == Projection.MakeProjectionMatrix(maths.tan, defaults)
  {
    var (position, rotation) := MoveCamera(keys, frameTime, camera.position, camera.rotation, camera.world);
    PlaceCamera(lib, maths.tan, defaults, position, rotation)
  }

  /** The camera's six local movement keys D/A, Q/E and W/S each take a step of `d` along one of three directions, in that order. */
  function CameraMovement(p: Vec3, keys: set<Key>, xAxis: Vec3, yAxis: Vec3, zAxis: Vec3, d: real): (r: Vec3)
    ensures r == p.Plus(xAxis.Scaled(d * Net(keys, KeyD, KeyA)))
                  .Plus(yAxis.Scaled(d * Net(keys, KeyQ, KeyE)))
                  .Plus(zAxis.Scaled(d * Net(keys, KeyW, KeyS)))
  {
    MovePair(p, keys, KeyD, KeyA, xAxis, d);
    var p1 := Move(Move(p, KeyD in keys, xAxis, d), KeyA in keys, xAxis, -d);
    MovePair(p1, keys, KeyQ, KeyE, yAxis, d);
    var p2 := Move(Move(p1, KeyQ in keys, yAxis, d), KeyE in keys, yAxis, -d);
    MovePair(p2, keys, KeyW, KeyS, zAxis, d);
    Move(Move(p2, KeyW in keys, zAxis, d), KeyS in keys, zAxis, -d)
  }

  datatype Scene = Scene(camera: Camera, cube: Cube, floorWorld: Matrix)

  /** `UpdateScene`: camera, then cube; the floor's world matrix is reset to the identity. */
  function UpdateScene(lib: MatrixLib, maths: Maths, defaults: Projection.Settings, keys: set<Key>, frameTime: real, scene: Scene): (r: Scene)
    requires defaults == Projection.MathHelpersDefaults || defaults == Projection.TexturingDefaults
    requires Projection.Projectable(maths.tan, defaults)
    requires maths.pow(kScaleSpeed, frameTime) > 0.0
    ensures r.floorWorld == lib.identity
    ensures r.camera == UpdateCamera(lib, maths, defaults, keys, frameTime, scene.camera)
    ensures r.cube == UpdateCube(lib, maths, keys, frameTime, scene.cube)
  {
    var camera := UpdateCamera(lib, maths, defaults, keys, frameTime, scene.camera);
    var cube := UpdateCube(lib, maths, keys, frameTime, scene.cube);
    Scene(camera, cube, lib.identity)
  }
}
