# Graphics labs: the verifiable core

A Dafny model of the parts of the Graphics teaching labs (Direct3D 11 and
.NET drawing exercises) that compute something a contract can pin down:

- **Sprite compositing** (`Sprites`, over `Raster`): the SpritePlotter lab's
  six bitmap routines. The viewport is a map from pixel coordinates to .NET
  colours and channels are integers 0..255. The per-channel formulas use
  integer division. One drawing loop is shared by all routines, and its
  result equals an order-free, pixel-by-pixel description.
- **Rectangle outlines** (`Rectangle`): PixelPlotter's `DrawRectangle`. It
  returns the sequence of `SetViewportPixel` calls next to the new viewport.
- **Assignment scene state machines** (`AssignmentScene`, `HueCycle`):
  - the `change` ping-pong;
  - the orbit of lights 0 and 3 with the key-1 pause toggle;
  - the hue cycle of light 2, proved to be periodic with period 1530 frames;
  - the pulsing strength of light 1, with its hysteresis flag.
- **Shader signature builder** (`Signature`): the HLSL source that
  `CreateSignatureForVertexLayout` writes for a vertex layout. The compiler
  is a parameter.
- **Texture loader dispatch** (`TextureLoad`): the case-insensitive ".dds"
  test in `LoadTexture`. The two loaders are parameters.
- **Angles and projection** (`Projection`): `ToRadians`, `ToDegrees` and
  `MakeProjectionMatrix`, over the reals with `tan` as a parameter. The
  copies in 3DMatrices and DirectXTutorial3 `MathHelpers.h`, and in the
  PixelLighting and PixelShaders `SceneHelpers.cpp`, have identical bodies
  and are modelled once.
- **Keyboard-driven transforms** (`Transforms`, `ReviewScene`,
  `LightingScene`): `UpdateCube`, `UpdateCamera`, `UpdateLight` and
  `UpdateScene` of the Review and PixelLighting labs.
  - Held keys are a set.
  - The matrix library is a record of uninterpreted function values
    (`Geometry.MatrixLib`), and `sin`, `cos`, `tan` and `pow` are a record
    `Geometry.Maths`.
  - Each contract states the net effect of all the held keys, and which
    fields stay the same.
- **Static meshes** (`Meshes`): the cube, floor and light vertex and index
  arrays of both 3D labs, checked against the vertex counts and the
  `DrawIndexed` counts.

Floats are modelled as `real`. Integer arithmetic is unbounded.

## Model

| member | source | states |
|---|---|---|
| Raster.FromRgbRoundTrip | SpritePlotter/SpritePlotter/SpriteDrawing.cpp:105 | `Color::FromArgb(r, g, b)` on a colour's own channels gives that colour back exactly when it is opaque, and different channel triples give different colours |
| Sprites.AlphaChannel | SpritePlotter/SpritePlotter/SpriteDrawing.cpp:102-104 | the alpha-blended channel lies between the smaller and the larger of sprite and viewport channel; alpha 255 gives the sprite channel, alpha 0 the viewport channel |
| Sprites.BlendBounds | SpritePlotter/SpritePlotter/SpriteDrawing.cpp:102-104 | the weighted sum before the division lies between 255·min and 255·max of the two channels |
| Sprites.AddChannel | SpritePlotter/SpritePlotter/SpriteDrawing.cpp:123-137 | the additive channel is the sum saturated at 255, and is never below either input |
| Sprites.MultiplyChannel | SpritePlotter/SpritePlotter/SpriteDrawing.cpp:154-156 | the product channel is at most either input; a 255 sprite channel returns the viewport channel, a 0 sprite channel returns 0 |
| Sprites.LuminosityChannel | SpritePlotter/SpritePlotter/SpriteDrawing.cpp:174-176 | the luminosity channel lies between the smaller and the larger of sprite and viewport channel; sprite channel 0 keeps the viewport channel and sprite channel 255 gives 255 |
| Sprites.Plot | SpritePlotter/SpritePlotter/SpriteDrawing.cpp:99-106 | one inner-loop step writes the painted colour at its own pixel and nothing else changes |
| Sprites.DrawWith | SpritePlotter/SpritePlotter/SpriteDrawing.cpp:95-109 | the column-by-column loop gives, at every pixel, the order-free result: one bitmap pixel painted over that pixel's own prior value |
| Sprites.DrawBitmap | SpritePlotter/SpritePlotter/SpriteDrawing.cpp:56-66 | every covered viewport pixel becomes the bitmap pixel above it, every other pixel is unchanged, and the viewport gains exactly the covered points |
| Sprites.DrawSprite | SpritePlotter/SpritePlotter/SpriteDrawing.cpp:70-83 | zero-alpha bitmap pixels leave the viewport as it was, all others are copied verbatim, pixels outside the bitmap are unchanged |
| Sprites.DrawSpriteAlpha | SpritePlotter/SpritePlotter/SpriteDrawing.cpp:93-111 | each covered pixel becomes the opaque per-channel alpha blend of bitmap and prior viewport pixel; nothing else changes |
| Sprites.DrawSpriteAdd | SpritePlotter/SpritePlotter/SpriteDrawing.cpp:114-143 | each covered pixel becomes the saturated per-channel sum; nothing else changes |
| Sprites.DrawSpriteMultiply | SpritePlotter/SpritePlotter/SpriteDrawing.cpp:145-162 | each covered pixel becomes the per-channel product over 255; nothing else changes |
| Sprites.DrawSpriteLuminosity | SpritePlotter/SpritePlotter/SpriteDrawing.cpp:164-183 | each covered pixel becomes the per-channel luminosity blend; nothing else changes |
| Sprites.AddSymmetric | SpritePlotter/SpritePlotter/SpriteDrawing.cpp:123-137 | additive blending is symmetric in sprite and viewport |
| Sprites.MultiplySymmetric | SpritePlotter/SpritePlotter/SpriteDrawing.cpp:154-156 | multiplicative blending is symmetric in sprite and viewport |
| Sprites.LuminosityIsSelfAlpha | SpritePlotter/SpritePlotter/SpriteDrawing.cpp:174-176 | luminosity blending is alpha blending with the sprite channel as alpha, so it stays between the two channels |
| Sprites.OpaqueAlphaIsCopy | SpritePlotter/SpritePlotter/SpriteDrawing.cpp:102-105 | blending an opaque sprite pixel yields that pixel |
| Sprites.TransparentAlphaKeepsColour | SpritePlotter/SpritePlotter/SpriteDrawing.cpp:102-105 | blending a fully transparent sprite pixel keeps the viewport's colour channels and makes it opaque |
| Rectangle.RowCalls | PixelPlotter/PixelDrawing.cpp:39-43 | the first loop makes two calls per column |
| Rectangle.ColumnCalls | PixelPlotter/PixelDrawing.cpp:45-49 | the second loop makes two calls per row |
| Rectangle.DrawRectangle | PixelPlotter/PixelDrawing.cpp:36-50 | the calls are the first loop's followed by the second's, and a pixel has the colour exactly when it was called, else keeps its prior value |
| Rectangle.RowCallsMembers | PixelPlotter/PixelDrawing.cpp:39-43 | a pixel is written by the first loop iff its column is in range and its row is Y or Y + Height - 1 |
| Rectangle.ColumnCallsMembers | PixelPlotter/PixelDrawing.cpp:45-49 | a pixel is written by the second loop iff its row is in range and its column is X or X + Width - 1 |
| Rectangle.WritesExactlyBorder | PixelPlotter/PixelDrawing.cpp:39-49 | for positive sizes the written pixels are exactly the outline of [X, X+W-1] × [Y, Y+H-1] |
| Rectangle.InteriorUntouched | PixelPlotter/PixelDrawing.cpp:39-49 | no strictly interior pixel is written |
| Rectangle.CallCount | PixelPlotter/PixelDrawing.cpp:39-49 | for non-negative sizes there are exactly 2W + 2H calls |
| Rectangle.TopLeftWrittenTwice | PixelPlotter/PixelDrawing.cpp:39-49 | the corner (X, Y) is the first call of each loop |
| Rectangle.NothingForEmptySizes | PixelPlotter/PixelDrawing.cpp:39-45 | width and height both at most 0 write nothing |
| Rectangle.ZeroHeightWritesTwoRows | PixelPlotter/PixelDrawing.cpp:39-43 | with height 0 the unguarded first loop writes rows Y and Y - 1 |
| HueCycle.Edge | Assignment/Assignment/Scene.cpp:958-990 | every state on an edge of the hue hexagon has channels in 0..255 |
| HueCycle.FirstStep | Assignment/Assignment/Scene.cpp:910-965 | the first frame from (255, 0, 0) with no deltas lands on position 0 of the cycle: the start of edge 0, which is red with green rising |
| HueCycle.StepAlong | Assignment/Assignment/Scene.cpp:958-990 | inside an edge, one frame moves one step along it |
| HueCycle.StepCorner | Assignment/Assignment/Scene.cpp:958-990 | on edges 0 to 4, the last frame of an edge reaches the next corner and turns onto the next edge |
| HueCycle.StepEdge | Assignment/Assignment/Scene.cpp:958-990 | each frame advances the cycle by one position, wrapping from the sixth edge to the first |
| HueCycle.StepStaysOnCycle | Assignment/Assignment/Scene.cpp:958-990 | from the start or from any cycle state, a frame stays on the cycle and on the hexagon |
| HueCycle.Walk | Assignment/Assignment/Scene.cpp:958-990 | frame n + 1 is t frames along edge j, where n = 1530 m + 255 j + t |
| HueCycle.UpdatesAt | Assignment/Assignment/Scene.cpp:958-990 | frame 1 + 1530 m + 255 j + t is t frames along edge j, whatever the turn m |
| HueCycle.UpdatesFromStart | Assignment/Assignment/Scene.cpp:958-990 | after n + 1 frames the colour is position n mod 1530 of the cycle |
| HueCycle.AlwaysInRange | Assignment/Assignment/Scene.cpp:910-990 | r, g and b stay in 0..255 on every frame and at most one delta is nonzero |
| HueCycle.OnHexagonAfterFirstFrame | Assignment/Assignment/Scene.cpp:958-990 | from frame 1 on, one channel is 255, one is 0, and exactly one delta is ±1 |
| HueCycle.Periodic | Assignment/Assignment/Scene.cpp:962-990 | from frame 1 on, the colour repeats every 6 × 255 = 1530 frames |
| HueCycle.Corners | Assignment/Assignment/Scene.cpp:962-990 | every 255 frames the colour reaches the next of the six corner colours, in order |
| HueCycle.LightColour | Assignment/Assignment/Scene.cpp:993 | light 2's colour components are the channels over 255, inside [0, 1] when the channels are in 0..255 |
| AssignmentScene.StepWiggle | Assignment/Assignment/Scene.cpp:928-940 | `change` ends in [0, 1]: over the top it clamps to 1 with direction -1, below 0 to 0 with direction +1, else it moves by half a frame time |
| AssignmentScene.DirectionIsUnit | Assignment/Assignment/Scene.cpp:928-940 | from the initial state, for any sequence of frame times, the direction is always +1 or -1 and `change` stays in [0, 1] |
| AssignmentScene.Bounce | Assignment/Assignment/Scene.cpp:929-940 | a frame that takes `change` over 1 clamps it and reverses the ping-pong, and a next frame of at most 2 seconds comes down by half its own time |
| AssignmentScene.StepOrbit | Assignment/Assignment/Scene.cpp:947-954 | lights 0 and 3 sit on the circle at the current angle, 10 and 1 above their targets; the angle falls only while running; key 1 toggles `go` |
| AssignmentScene.PauseResume | Assignment/Assignment/Scene.cpp:953-954 | two key-1 hits restore the running state, and a paused orbit keeps its angle |
| AssignmentScene.OrbitRadius | Assignment/Assignment/Scene.cpp:949-951 | where cos² + sin² = 1 both lights are `gLightOrbit` from their targets' vertical axes |
| AssignmentScene.StepPulse | Assignment/Assignment/Scene.cpp:1003-1021 | the strength moves by 0.1, down while the flag is clear and up while set; the flag is set below 0, cleared above 40, else kept; the scale is pow(strength, 0.7) |
| AssignmentScene.StepPulseInBand | Assignment/Assignment/Scene.cpp:1003-1021 | a frame keeps the strength inside its hysteresis band |
| AssignmentScene.PulseBounded | Assignment/Assignment/Scene.cpp:1003-1021 | from strength 40 the strength never leaves [-0.1, 40.1] |
| AssignmentScene.FadeOut | Assignment/Assignment/Scene.cpp:1003-1007 | the first 400 frames fade the strength from 40 to 0 in steps of 0.1 with the flag clear; the scale starts at pow(15, 0.7), as `InitScene` sets it at line 438, and from frame 1 on is pow(strength, 0.7) |
| AssignmentScene.StrengthGoesNegative | Assignment/Assignment/Scene.cpp:1003-1017 | frame 401 takes the strength to -0.1, passes that negative base to pow, and only then sets the flag |
| AssignmentScene.UpdateScene | Assignment/Assignment/Scene.cpp:925-1021 | each of the four state machines advances on its own state; from a reachable hue the new hue is on the cycle and light 2's colour lies in [0, 1] |
| Signature.TypeName | DirectXTutorials1/DirectXTutorial2/Shader.cpp:86-92 | a format has a type name exactly when it is one of the four float formats, and the name is one of "float4", "float3", "float2", "float" |
| Signature.IndexCharIsDigit | DirectXTutorials1/DirectXTutorial2/Shader.cpp:94-96 | indices 0..9 give their digit and larger 8-bit indices give a non-digit |
| Signature.PositionColourFragments | DirectXTutorials1/DirectXTutorial2/Shader.cpp:94-101 | the two elements of the position-and-colour layout give "float3 Position0 : Position0" and "float4 Colour0 : Colour0" |
| Signature.Parameters | DirectXTutorials1/DirectXTutorial2/Shader.cpp:84-102 | the parameter text is absent iff some element has an unsupported format |
| Signature.SignatureSource | DirectXTutorials1/DirectXTutorial2/Shader.cpp:83-103 | the source is null iff some format is unsupported, else prefix, parameters and suffix |
| Signature.Framed | DirectXTutorials1/DirectXTutorial2/Shader.cpp:83-103 | every source starts with "float4 main(" and ends with ") : SV_Position {return 0;}" |
| Signature.EmptyLayout | DirectXTutorials1/DirectXTutorial2/Shader.cpp:83-103 | an empty layout gives the prefix followed directly by the suffix |
| Signature.ParametersAppend | DirectXTutorials1/DirectXTutorial2/Shader.cpp:84-102 | the parameters of two layouts end to end are their parameter texts end to end |
| Signature.OneElement | DirectXTutorials1/DirectXTutorial2/Shader.cpp:94-101 | a single element contributes exactly its fragment |
| Signature.ParametersStep | DirectXTutorials1/DirectXTutorial2/Shader.cpp:84-102 | one more loop turn appends the next element's fragment |
| Signature.BuildSignatureSource | DirectXTutorials1/DirectXTutorial2/Shader.cpp:81-103 | the appending loop returns null at the first unsupported format and otherwise the framed concatenation |
| Signature.NoSeparatorBetweenParameters | DirectXTutorials1/DirectXTutorial2/Shader.cpp:84-102 | a two-element layout runs the first parameter's semantic straight into the second's type |
| Signature.Fragments | DirectXTutorials1/DirectXTutorial2/Shader.cpp:94-101 | each element's fragment in order, absent iff some format is unsupported |
| Signature.SeparatedSignatureSource | DirectXTutorials1/DirectXTutorial2/Shader.cpp:83-103 | the corrected source is null iff some format is unsupported |
| Signature.JoinSplits | DirectXTutorials1/DirectXTutorial2/Shader.cpp:84-102 | in the corrected list, every split between neighbouring parameters is exactly one ", " |
| Signature.SingleElementAgrees | DirectXTutorials1/DirectXTutorial2/Shader.cpp:83-103 | for at most one element the corrected source equals the source as written |
| Signature.SeparatedPositionColour | DirectXTutorials1/DirectXTutorial2/Shader.cpp:84-102 | the corrected two-element source separates the parameters with ", " |
| Signature.CreateSignatureForVertexLayout | DirectXTutorials1/DirectXTutorial2/Shader.cpp:81-110 | an unsupported format gives null; otherwise the result is the compiler's output for the unseparated source the loop builds |
| Signature.CreateSignatureForVertexLayoutCorrected | DirectXTutorials1/DirectXTutorial2/Shader.cpp:81-110 | the corrected entry point compiles the comma-separated source, and for layouts of at most one element gives the same result as the function as written |
| TextureLoad.LowerUpper | PixelLighting/Utility/SceneHelpers.cpp:89 | `tolower` leaves no capital letter, keeps exactly the non-capitals, is undone by `toupper` on capitals, and is idempotent and unaffected by a prior `toupper` |
| TextureLoad.ReverseEqualMeansLowerSuffix | PixelLighting/Utility/SceneHelpers.cpp:89 | comparing from the back for n steps is comparing the last n characters ignoring case |
| TextureLoad.DdsExtensionIsLowerSuffix | PixelLighting/Utility/SceneHelpers.cpp:87-89 | the test holds iff the name has at least four characters and its last four, lower-cased, are ".dds" |
| TextureLoad.ShortNamesAreNotDds | PixelLighting/Utility/SceneHelpers.cpp:88 | names shorter than four characters never take the DDS path |
| TextureLoad.SameIgnoringCase | PixelLighting/Utility/SceneHelpers.cpp:89 | names that agree ignoring case get the same comparison result |
| TextureLoad.CaseInvariant | PixelLighting/Utility/SceneHelpers.cpp:88-96 | lower- or upper-casing a name never changes its loader |
| TextureLoad.LoadTexture | PixelLighting/Utility/SceneHelpers.cpp:84-97 | exactly one loader is called, the DDS one iff the name ends in ".dds" ignoring case, and its success is the result |
| TextureLoad.Examples | PixelLighting/Utility/SceneHelpers.cpp:84-97 | "Texture.DDS" and "stone.dds" go to DDS; "dds" and "tiles.png" go to WIC |
| Projection.DegreesRoundTrip | 3DMatrices/3DMatrices/Utility/MathHelpers.h:17-26 | degrees to radians and back is the identity |
| Projection.RadiansRoundTrip | DirectXTutorial3/Utility/MathHelpers.h:17-26 | radians to degrees and back is the identity |
| Projection.RadiansLandmarks | 3DMatrices/3DMatrices/Utility/MathHelpers.h:17-20 | 0 degrees is 0, 180 is PI, 90 is PI/2 |
| Projection.RadiansAdditive | DirectXTutorial3/Utility/MathHelpers.h:17-20 | the conversion is additive |
| Projection.MakeProjectionMatrix | PixelLighting/Utility/SceneHelpers.cpp:136-149 | only the five named entries are nonzero, [2][3] is 1; scaleX·tan(FOVx/2) = 1, scaleY = aspect·scaleX, scaleZa·(far − near) = far, scaleZb = −near·scaleZa |
| Projection.Project | PixelShaders/Utility/SceneHelpers.cpp:22-25 | the projected w equals the view-space z, and x and y are scaled by the diagonal |
| Projection.NearMapsToZero | PixelShaders/Utility/SceneHelpers.cpp:19-20 | depth at the near plane is 0 |
| Projection.FarMapsToOne | 3DMatrices/3DMatrices/Utility/MathHelpers.h:38-39 | depth at the far plane is 1 |
| Projection.DepthIncreasing | PixelLighting/Utility/SceneHelpers.cpp:142-143 | for 0 < near < far, depth strictly increases with distance |
| Projection.DepthWithinClipRange | DirectXTutorial3/Utility/MathHelpers.h:38-39 | between the clip planes depth stays in [0, 1] |
| Projection.DefaultProjection | 3DMatrices/3DMatrices/Utility/MathHelpers.h:33 | with the default arguments (and the 60-degree Texturing variant) scaleY is 4/3 of scaleX and 0.1..10000 maps onto [0, 1] |
| Transforms.MovePair | Review/Scene.cpp:585-596 | a forward and a backward key along one direction net out to Net steps along it |
| Transforms.Turn | Review/Scene.cpp:499-506 | a key pair nudging one value nets out to the step times Net |
| Transforms.CameraRotation | Review/Scene.cpp:639-654 | Down/Up turn about x, Right/Left about y, and z is unchanged |
| Transforms.AxisNudges | Review/Scene.cpp:554-579 | three key pairs nudging x, y, z move the vector by the step times their net directions |
| ReviewScene.Movement | Review/Scene.cpp:583-621 | H/F, R/Y and T/G move along rows 0, 1 and 2 of the previous world matrix |
| ReviewScene.MoveCube | Review/Scene.cpp:499-621 | rotation always follows K/I, L/J, U/O; under X only scale changes; else under Z world-axis movement; else local movement; scale changes only under X |
| ReviewScene.UpdateCube | Review/Scene.cpp:493-627 | the world matrix is Scaling·RotZ·RotX·RotY·Translation of the updated pose |
| ReviewScene.GrowShrinkCancel | Review/Scene.cpp:527-534 | growing and shrinking one axis in the same frame cancel out |
| ReviewScene.NoKeysNoChange | Review/Scene.cpp:499-621 | with no keys held position, rotation and scale stay the same |
| ReviewScene.RotationAdditive | Review/Scene.cpp:499-522 | two frames rotate as far as one frame of their summed time |
| ReviewScene.WorldMovementAdditive | Review/Scene.cpp:554-580 | under Z, two frames move as far as one frame of their summed time |
| ReviewScene.MoveCamera | Review/Scene.cpp:639-724 | the arrows rotate; under Z D/A, Q/E, W/S move along the world axes, else along rows 0, 1, 2 of the previous camera world matrix |
| ReviewScene.CameraMovement | Review/Scene.cpp:686-724 | D/A, Q/E and W/S move along the three given rows |
| ReviewScene.UpdateCamera | Review/Scene.cpp:633-736 | the camera's world matrix is RotZ·RotX·RotY·Translation of its moved pose (no scaling), view is that matrix's affine inverse, and the projection is `MakeProjectionMatrix()`'s: 4:3, 0.1 to 10000, with the 90- or 60-degree default field of view |
| ReviewScene.UpdateScene | Review/Scene.cpp:741-750 | camera and cube are updated (the projection with the default settings) and the floor's world matrix is the identity |
| LightingScene.MoveCube | PixelLighting/Scene.cpp:578-607 | only rotation x/y and position can change: K/I, L/J turn, Period/Comma move along row 2 of the previous world matrix; scale is unchanged |
| LightingScene.UpdateCube | PixelLighting/Scene.cpp:572-614 | the world matrix is rebuilt from the moved pose |
| LightingScene.UpdateLight | PixelLighting/Scene.cpp:619-627 | the light is placed at cube + (5 cos a, 0, 5 sin a) using the angle before this frame's decrease of 0.7·frameTime; strength is kept; the world matrix is Scaling(strength)·Translation |
| LightingScene.LightOnOrbit | PixelLighting/Scene.cpp:623 | where cos² + sin² = 1 the light is 5 units from the cube |
| LightingScene.OrbitAngle | PixelLighting/Scene.cpp:622-624 | n frames turn the light by n times one frame's turn and keep its strength |
| LightingScene.MoveCamera | PixelLighting/Scene.cpp:638-679 | the arrows rotate; D/A move along row 0 and W/S along row 2 of the previous camera world matrix |
| LightingScene.CameraMovement | PixelLighting/Scene.cpp:656-679 | D/A and W/S move along the two given rows |
| LightingScene.UpdateCamera | PixelLighting/Scene.cpp:632-691 | the camera's world matrix is rebuilt from its moved pose, view is its affine inverse, and the projection is `MakeProjectionMatrix()` with the defaults 4:3, 60 degrees, 0.1 to 10000 |
| LightingScene.UpdateScene | PixelLighting/Scene.cpp:696-708 | camera, cube, then light, so the light orbits the cube's new position at the same height; the floor is the identity |
| Meshes.Vertices | Review/Scene.cpp:163-194 | a list of quads spells out four vertices per quad |
| Meshes.VertexOfQuad | Review/Scene.cpp:163-194 | vertex 4f + k is corner k of quad f, with that quad's normal |
| Meshes.QuadIndices | Review/Scene.cpp:199-207 | the quad index pattern has six entries per quad, each naming a vertex of the mesh |
| Meshes.QuadIndexEntry | Review/Scene.cpp:199-207 | entry i names corner [0,1,2,2,1,3][i mod 6] of quad i / 6 |
| Meshes.FlatTriangles | PixelLighting/Scene.cpp:174-217 | all three vertices of every indexed triangle carry the normal of one quad |
| Meshes.IndicesFollowQuadPattern | PixelLighting/Scene.cpp:209-268 | every index array of both labs is the quad pattern for its mesh |
| Meshes.ReviewIndexDataMatchesDraws | Review/Scene.cpp:163-228 | cube indices are below 24 and number 36, floor indices are below 4 and number 6, matching `DrawIndexed(36)` and `DrawIndexed(6)` at lines 474 and 435 |
| Meshes.LightingIndexDataMatchesDraws | PixelLighting/Scene.cpp:174-268 | cube, floor and light indices are below 24, 4 and 12 and number 36, 6 and 18, the counts passed to `DrawIndexed` at lines 515, 477 and 553 |
| Meshes.MeshesArePlanar | PixelLighting/Scene.cpp:174-259 | every vertex lies on its quad's plane: cube faces one unit out along the normal, floor at y = 0, light squares through the origin |

## Left out

- Direct3D device, buffer, shader, state and texture creation, and every render call. These are foreign API calls. The model stops at the values passed to them.
- `D3DCompile`, `CreateDDSTextureFromFile` and `CreateWICTextureFromFile` are parameters (`compile`, `loadDds`, `loadWic`). Shader file loading is not modelled.
- `KeyHeld` and `KeyHit` are not modelled. Input arrives as a set of held keys and a boolean for the key-1 hit.
- The FPS window title in every `UpdateScene` is float-to-string I/O and is not modelled.
- `DrawLine` uses float stepping, and `DrawPolygon`, `DrawStar` and `DrawCircle` are empty. None is modelled.
- The Assignment scene's `Control` and `FaceTarget` calls go to a model class that is not part of this model.
- Float rounding, infinities and NaN are not modelled: reals stand in for floats.
  - `sin`, `cos`, `tan` and `pow` are uninterpreted. Lemmas that need the unit circle state it as a requirement.
  - The NaN from `pow` of the negative strength at frame 401 is left to the uninterpreted `pow`. `AssignmentScene.StrengthGoesNegative` shows that this input occurs.
- The matrix library's internals are not modelled: multiplication, rotation, inverse, identity. `Geometry.Axis` reads the first three entries of a matrix row.
- The update functions of the Texturing, 3DMatrices, PixelShaders, TheCube and DirectXTutorial3 labs are not modelled. Each is an unconditional angle or position accumulator fused with constant-buffer uploads.
- The HueCycle channels are ints, not floats. They only ever hold whole numbers 0..255, which floats represent exactly.
- The `Signature.Element` model keeps only the fields the builder reads: semantic name, index and format.
- Rectangle.DrawRectangle: integer overflow of `X + i` and viewport clipping are not modelled. The viewport map simply gains any pixel written outside it.
- Sprites.DrawSpriteAlpha: requires a viewport pixel under every bitmap pixel. `GetViewportPixel` outside the viewport is not part of this model.
- Sprites.DrawSpriteAdd: requires a viewport pixel under every bitmap pixel, as for `DrawSpriteAlpha`.
- Sprites.DrawSpriteMultiply: requires a viewport pixel under every bitmap pixel, as for `DrawSpriteAlpha`.
- Sprites.DrawSpriteLuminosity: requires a viewport pixel under every bitmap pixel, as for `DrawSpriteAlpha`.
- Sprites.DrawWith: requires the same for the four blending modes.
- ReviewScene.MoveCube: requires `powf(kScaleSpeed, frameTime)` to be positive. The source divides by it, and the uninterpreted `pow` cannot guarantee it.
- ReviewScene.UpdateCube: requires the same as `ReviewScene.MoveCube`.
- ReviewScene.UpdateScene: requires the same as `ReviewScene.MoveCube`, and the same projection settings as `ReviewScene.UpdateCamera`.
- LightingScene.UpdateCamera: requires the uninterpreted `tan` to be nonzero at half the 60-degree default, as `Projection.MakeProjectionMatrix` does.
- LightingScene.UpdateScene: requires the same as `LightingScene.UpdateCamera`.
- Projection.MakeProjectionMatrix: requires tan(FOVx/2) ≠ 0 and far ≠ near. The source divides by both without a guard, which in floats gives an infinity or NaN.
- The Assignment scene's pulse scale and the Review cube's scaling factor are `pow` results left uninterpreted. Only the argument passed to `pow` is stated.
- ReviewScene.UpdateCamera: requires the projection settings to be one of the two known sets of `MakeProjectionMatrix` defaults: 90 degrees in MathHelpers.h, 60 degrees in the later labs' SceneHelpers. The Review lab's own headers are not part of this model, so which of the two it gets is left open.
- Signature.CreateSignatureForVertexLayout compiles the source as written, without separators. The corrected entry point is `Signature.CreateSignatureForVertexLayoutCorrected` (see Findings).

## Findings

| source | as written | input that shows it | evidently intended | confidence | as-written member | corrected member |
|---|---|---|---|---|---|---|
| DirectXTutorials1/DirectXTutorial2/Shader.cpp:84-102 | each element's fragment is appended with nothing between consecutive parameters | a layout of a float3 "Position" and a float4 "Colour", both index 0, gives `float4 main(float3 Position0 : Position0float4 Colour0 : Colour0) : SV_Position {return 0;}`, which is not a valid HLSL parameter list | parameters separated by ", " | medium, not executed (the lab itself only passes a one-element layout, where both agree) | Signature.NoSeparatorBetweenParameters | Signature.SeparatedSignatureSource |
