/**
 Per-frame update of the PixelLighting lab: a cube turned with I/K and J/L
 and pushed along its local z axis with Period/Comma, a point light
 orbiting the cube, and a camera rotated by the arrows and moved along its
 local x and z axes with D/A and W/S.
 */
module LightingScene {

  import opened Geometry
  import opened Transforms
  import Projection

  const kRotationSpeed: real := 3.0
  const kMovementSpeed: real := 10.0
  const kLightOrbit: real := 5.0
  const kLightOrbitSpeed: real := 0.7

  datatype Cube = Cube(pose: Pose, world: Matrix)

  /**
   The pose `UpdateCube` leaves behind: rotation about x and y only, and
   movement along row 2 (the local z axis) of the previous frame's world
   matrix `world`; scale and the z rotation never change.
   */
  function MoveCube(keys: set<Key>, frameTime: real, pose: Pose, world: Matrix): (r: Pose)
    ensures r.rotation == pose.rotation.Plus(
              Vec3(Net(keys, KeyK, KeyI), Net(keys, KeyL, KeyJ), 0.0).Scaled(kRotationSpeed * frameTime))
    ensures r.position == pose.position.Plus(
              Axis(world.row2).Scaled(kMovementSpeed * frameTime * Net(keys, KeyPeriod, KeyComma)))
    ensures r.scale == pose.scale
  {
    var rot := pose.rotation;
    var rotation := Vec3(Turn(rot.x, keys, KeyK, KeyI, kRotationSpeed * frameTime),
                         Turn(rot.y, keys, KeyL, KeyJ, kRotationSpeed * frameTime), rot.z);
    MovePair(pose.position, keys, KeyPeriod, KeyComma, Axis(world.row2), kMovementSpeed * frameTime);
    var position := Move(Move(pose.position, KeyPeriod in keys, Axis(world.row2), kMovementSpeed * frameTime),
                         KeyComma in keys, Axis(world.row2), -(kMovementSpeed * frameTime));
    pose.(rotation := rotation, position := position)
  }

  /** `UpdateCube`: the moved pose and the world matrix built from it. */
  function UpdateCube(lib: MatrixLib, keys: set<Key>, frameTime: real, cube: Cube): (r: Cube)
    ensures r.pose == MoveCube(keys, frameTime, cube.pose, cube.world)
    ensures r.world == ModelWorld(lib, r.pose)
  {
    var pose := MoveCube(keys, frameTime, cube.pose, cube.world);
    Cube(pose, ModelWorld(lib, pose))
  }

  /** The orbiting light; `angle` is `UpdateLight`'s function-static `rotate`, which starts at 0. */
  datatype Light = Light(angle: real, strength: real, position: Vec3, world: Matrix)

  const InitialLight := Light(0.0, 1.0, Zero, Matrix(Vec4(0.0, 0.0, 0.0, 0.0), Vec4(0.0, 0.0, 0.0, 0.0), Vec4(0.0, 0.0, 0.0, 0.0), Vec4(0.0, 0.0, 0.0, 0.0)))

  /**
   `UpdateLight`: the light is placed on a circle of radius `kLightOrbit`
   around the cube in the cube's horizontal plane, at the current angle,
   and only then is the angle advanced (clockwise, seen from above).
   */
  function UpdateLight(lib: MatrixLib, maths: Maths, frameTime: real, cubePosition: Vec3, light: Light): (r: Light)
    ensures r.position == Vec3(cubePosition.x + maths.cos(light.angle) * kLightOrbit,
                               cubePosition.y,
                               cubePosition.z + maths.sin(light.angle) * kLightOrbit)
    ensures r.angle == light.angle - kLightOrbitSpeed * frameTime
    ensures r.strength == light.strength
    ensures r.world == lib.mul(lib.uniformScaling(light.strength), lib.translation(r.position))
  {
    var position := cubePosition.Plus(Vec3(maths.cos(light.angle) * kLightOrbit, 0.0, maths.sin(light.angle) * kLightOrbit));
    Light(light.angle - kLightOrbitSpeed * frameTime, light.strength, position,
          lib.mul(lib.uniformScaling(light.strength), lib.translation(position)))
  }

  /** Where `cos` and `sin` agree with the unit circle, the light is exactly `kLightOrbit` from the cube. */
  lemma LightOnOrbit(lib: MatrixLib, maths: Maths, frameTime: real, cubePosition: Vec3, light: Light)
    requires maths.cos(light.angle) * maths.cos(light.angle) + maths.sin(light.angle) * maths.sin(light.angle) == 1.0
    ensures var p := UpdateLight(lib, maths, frameTime, cubePosition, light).position;
            var dx, dy, dz := p.x - cubePosition.x, p.y - cubePosition.y, p.z - cubePosition.z;
            dx * dx + dy * dy + dz * dz == kLightOrbit * kLightOrbit
  {
    var c, s := maths.cos(light.angle), maths.sin(light.angle);
    assert (c * 5.0) * (c * 5.0) + (s * 5.0) * (s * 5.0) == 25.0 * (c * c + s * s);
  }

  /** The light after `n` frames of `frameTime` each, with the cube held still. */
  function Orbit(lib: MatrixLib, maths: Maths, frameTime: real, cubePosition: Vec3, light: Light, n: nat): Light
  {
    if n == 0 then light else UpdateLight(lib, maths, frameTime, cubePosition, Orbit(lib, maths, frameTime, cubePosition, light, n - 1))
  }

  /** The orbit angle falls steadily: `n` frames turn the light by `n` times one frame's turn. */
  lemma {:induction false} OrbitAngle(lib: MatrixLib, maths: Maths, frameTime: real, cubePosition: Vec3, light: Light, n: nat)
    ensures Orbit(lib, maths, frameTime, cubePosition, light, n).angle == light.angle - (n as real) * kLightOrbitSpeed * frameTime
    ensures Orbit(lib, maths, frameTime, cubePosition, light, n).strength == light.strength
  {
    if n > 0 {
      OrbitAngle(lib, maths, frameTime, cubePosition, light, n - 1);
    }
  }

  /**
   The position and rotation `UpdateCamera` leaves behind: Down/Up and
   Right/Left rotate about x and y; D/A move along row 0 and W/S along row 2
   of the previous frame's world matrix `world`.
   */
  function MoveCamera(keys: set<Key>, frameTime: real, position: Vec3, rotation: Vec3, world: Matrix): (r: (Vec3, Vec3))
    ensures r.1 == rotation.Plus(
              Vec3(Net(keys, KeyDown, KeyUp), Net(keys, KeyRight, KeyLeft), 0.0).Scaled(kRotationSpeed * frameTime))
    ensures r.0 == position.Plus(Axis(world.row0).Scaled(kMovementSpeed * frameTime * Net(keys, KeyD, KeyA)))
                           .Plus(Axis(world.row2).Scaled(kMovementSpeed * frameTime * Net(keys, KeyW, KeyS)))
  {
    (CameraMovement(position, keys, Axis(world.row0), Axis(world.row2), kMovementSpeed * frameTime),
     CameraRotation(rotation, keys, kRotationSpeed * frameTime))
  }

  /**
   `UpdateCamera`: the moved camera, its world matrix, the view matrix as
   that matrix's affine inverse, and the projection matrix of
   `MakeProjectionMatrix()` with its default arguments (4:3, 60 degrees,
   0.1 to 10000).
   */
  function UpdateCamera(lib: MatrixLib, maths: Maths, keys: set<Key>, frameTime: real, camera: Camera): (r: Camera)
    requires Projection.Projectable(maths.tan, Projection.TexturingDefaults)
    ensures (r.position, r.rotation) == MoveCamera(keys, frameTime, camera.position, camera.rotation, camera.world)
    ensures r.world == CameraWorld(lib, r.position, r.rotation)
    ensures r.view == lib.inverseAffine(r.world)
    ensures r.projection == Projection.MakeProjectionMatrix(maths.tan, Projection.TexturingDefaults)
  {
    var (position, rotation) := MoveCamera(keys, frameTime, camera.position, camera.rotation, camera.world);
    PlaceCamera(lib, maths.tan, Projection.TexturingDefaults, position, rotation)
  }

  /** D/A step `d` along `xAxis`, then W/S along `zAxis`. */
  function CameraMovement(p: Vec3, keys: set<Key>, xAxis: Vec3, zAxis: Vec3, d: real): (r: Vec3)
    ensures r == p.Plus(xAxis.Scaled(d * Net(keys, KeyD, KeyA))).Plus(zAxis.Scaled(d * Net(keys, KeyW, KeyS)))
  {
    MovePair(p, keys, KeyD, KeyA, xAxis, d);
    var p1 := Move(Move(p, KeyD in keys, xAxis, d), KeyA in keys, xAxis, -d);
    MovePair(p1, keys, KeyW, KeyS, zAxis, d);
    Move(Move(p1, KeyW in keys, zAxis, d), KeyS in keys, zAxis, -d)
  }

  datatype Scene = Scene(camera: Camera, cube: Cube, light: Light, floorWorld: Matrix)

  /**
   `UpdateScene`: camera, cube, then light, so the light orbits the cube's
   position of this frame; the floor's world matrix is the identity.
   */
  function UpdateScene(lib: MatrixLib, maths: Maths, keys: set<Key>, frameTime: real, scene: Scene): (r: Scene)
    requires Projection.Projectable(maths.tan, Projection.TexturingDefaults)
    ensures r.camera == UpdateCamera(lib, maths, keys, frameTime, scene.camera)
    ensures r.cube == UpdateCube(lib, keys, frameTime, scene.cube)
    ensures r.light.position.y == r.cube.pose.position.y
    ensures r.light == UpdateLight(lib, maths, frameTime, r.cube.pose.position, scene.light)
    ensures r.floorWorld == lib.identity
  {
    var camera := UpdateCamera(lib, maths, keys, frameTime, scene.camera);
    var cube := UpdateCube(lib, keys, frameTime, scene.cube);
    var light := UpdateLight(lib, maths, frameTime, cube.pose.position, scene.light);
    Scene(camera, cube, light, lib.identity)
  }
}
