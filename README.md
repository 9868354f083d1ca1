# noise-teapot viewer core in Dafny

This project models the sequential logic inside `a9.js`, a WebGL viewer. The viewer
draws a teapot and a reference ground grid. The user orbits the camera with six keys.
The model covers these parts:

- **Grid** (`grid.dfy`): `buildGridMesh` is a method with the source's two push loops.
  It is proved equal to the functional description `GridMesh`. Lemmas give the grid's
  length: `6 * (ceil(200 / rowSpacing) + ceil(200 / columnSpacing))` numbers, which is
  2400 for the viewer's `(1, 1)`. They also place every vertex: all vertices lie on
  y = 0, row lines come first with x in `[-100, 100)` and z going from -100 to 100, and
  column lines follow with z in `[-100, 100)` and x going from -100 to 100.
- **Input** (`input.dfy`): the six `g_moving*` globals form the class `KeyState`.
  The keydown and keyup listeners are its methods `KeyDown` and `KeyUp`. The keys
  `r f a d w s` are bound to up, down, left, right, forward and backward. A bound key
  sets exactly its own flag. Every other key changes nothing.
- **Camera** (`camera.dfy`): the camera globals and `g_lastFrameMS` form the class
  `CameraState`. The scalar part of `tick` is its method `Tick(now, keys)`, proved
  against the function `Advance`. The function's contract covers these cases:
  - opposing up/down keys cancel, and so do left/right;
  - a scalar whose keys are not held does not move;
  - forward motion is clamped at distance 1 before backward motion is added;
  - a distance of at least 1 stays at least 1 when time does not run backwards.
  A lemma extends that last point to any run of frames.
- **Layout** (`layout.dfy`): the combined buffer is `mesh ++ grid ++ normals ++ grid`.
  The model covers the byte offsets of the `a_Position` and `a_Normal` attributes and
  the vertex ranges of the two `drawArrays` calls. Proved: the normal offset points at
  the first normal. When the loaded mesh has as many normal floats as position floats
  and both are whole 3-float vertices, both attributes read matching data for every
  vertex. The grid draw lies in the position region. When the mesh is whole vertices,
  the grid draw reads exactly the grid through `a_Position`, whatever the normals are.
  A builder-made grid has an even vertex count, so the line list has no unpaired vertex.
- **Shaders** (`shaders.dfy`): this covers the `Shaders` enum and the three switch
  tables on `CURRENT_SHADER`. The tables give the fragment file, the uniform that
  receives the slider value, and the slider caption.

Modelling choices:
- Grid coordinates and spacings are `int`. The only call passes `(1, 1)`, and for those
  values double arithmetic is exact.
- Camera scalars are `real`, so the model ignores double rounding. Timestamps are `int`,
  like the integer milliseconds of `Date.now()`.
- The source passes `length / 3` to `drawArrays` as a float. WebGL's integer parameters
  truncate such values, so the draw ranges use integer division.
- The key-state globals start out `undefined`, which reads as false. The constructor
  sets them to false.
- Clock readings, key strings and the flags that `tick` reads are parameters.

## Model

| member | source | states |
|---|---|---|
| `Grid.BuildGridMesh` | a9.js:399-419 | For positive spacings the two loops terminate. They return exactly `GridMesh(r, c)`, of length `6 * (ceil(200/r) + ceil(200/c))` |
| `Grid.PushLine` | a9.js:403-416 | One loop step appends the two endpoints' six numbers to the flat sequence and moves that line from the loop's pending lines to its output |
| `Grid.FlattenVertex` | a9.js:406-407 | Vertices pushed one after another give three numbers each, and vertex v of the flat sequence is the v-th vertex pushed |
| `Grid.LinesLength` | a9.js:403-416 | A loop started at t pushes two vertices for each of its `ceil((bound - t)/spacing)` steps |
| `Grid.LinesAt` | a9.js:403-416 | Endpoint e of line k of one loop is that loop's endpoint e at the loop variable's k-th value `t + k * spacing`, which lies in `[t, bound)` |
| `Grid.GridMeshLength` | a9.js:399-419 | The row loop gives `2 * rows` vertices, and the grid has `2 * (rows + columns)` vertices, `6 * (rows + columns)` numbers |
| `Grid.GridRowLine` | a9.js:403-408 | Line k below the row count has endpoint e at `(-100 + k*r, 0, -100 or 100)`, with x in `[-100, 100)` |
| `Grid.GridColumnLine` | a9.js:411-416 | Line j past the rows has endpoint e at `(-100 or 100, 0, -100 + (j - rows)*c)`, with z in `[-100, 100)` |
| `Grid.GridOnPlane` | a9.js:399-419 | Every vertex of the grid has y = 0 |
| `Grid.GridRowsShape` | a9.js:403-408 | The first `ceil(200/r)` lines are row lines: x = -100 + k*r in `[-100, 100)`, from z = -100 to z = 100 |
| `Grid.GridColumnsShape` | a9.js:411-416 | The next `ceil(200/c)` lines are column lines: z = -100 + i*c in `[-100, 100)`, from x = -100 to x = 100 |
| `Grid.UnitGridSize` | a9.js:144 | The viewer's `buildGridMesh(1, 1)` returns 2400 numbers |
| `Input.KeyBinding` | a9.js:343-361 | The key chain maps exactly the six keys `KeyFor` names to their directions. Every other key maps to none |
| `Input.KeyBindingRoundTrip` | a9.js:344-361 | Each direction's key is bound back to that direction |
| `Input.OnKey` | a9.js:343-384 | A handler sets the flag of the pressed key to the event's value and keeps the other five. An unbound key changes nothing |
| `Input.PressThenRelease` | a9.js:343-384 | Key-up after key-down equals key-up alone. A bound key that was not held is back where it started |
| `Input.DistinctKeysCommute` | a9.js:343-384 | Events on different keys commute, because the six flags are independent |
| `Input.KeyState.constructor` | a9.js:59-65 | All six flags start unset |
| `Input.KeyState.KeyDown` | a9.js:343-362 | Key-down sets exactly the matching flag to true, and no other flag changes |
| `Input.KeyState.KeyUp` | a9.js:365-384 | Key-up sets exactly the matching flag to false, and no other flag changes |
| `Camera.Advance` | a9.js:233-253 | Up+down and left+right cancel. A scalar whose keys are up is unchanged. Forward gives `max(d - 0.003*dt, 1)` before backward adds `0.003*dt`. Distance >= 1 is kept when dt >= 0 |
| `Camera.ForwardBackwardCancel` | a9.js:245-253 | With both forward and backward held, for any frame time, distance is unchanged exactly when forward motion does not reach the clamp |
| `Camera.DistanceStaysClamped` | a9.js:219-253 | Over any run of frames with a clock that does not go backwards, distance stays >= 1 whatever keys are held |
| `Camera.IdleRunIsStill` | a9.js:233-253 | Frames with no key held leave height, angle and distance unchanged |
| `Camera.CameraState.constructor` | a9.js:193-205 | Start at distance 1.5, angle 90 and height 0.2, with the timestamp set to the start time |
| `Camera.CameraState.Tick` | a9.js:219-253 | Afterwards `lastFrameMS == now`. The scalars equal `Advance(old, now - old lastFrameMS, flags)`. Distance >= 1 is kept when the clock did not go back |
| `Layout.VertexBuffer` | a9.js:148 | The buffer is four regions in order: mesh, grid, normals, grid again |
| `Layout.NormalOffsetSelectsNormals` | a9.js:158 | The `a_Normal` byte offset is float-aligned, its float index is `mesh.length + grid.length`, and from there the buffer holds the normals |
| `Layout.AttributesPairUp` | a9.js:154-160 | For each mesh vertex, `a_Position` reads its position and `a_Normal` its normal. For each grid vertex, both read that grid vertex |
| `Layout.MeshDraw` | a9.js:304 | The teapot draw is triangles from vertex 0 over `floor(mesh.length / 3)` vertices, inside the mesh region |
| `Layout.GridDraw` | a9.js:315 | The grid draw is lines starting where the teapot draw ends. It lies in the position region and covers it exactly when both lengths are whole vertices |
| `Layout.GridDrawReadsGrid` | a9.js:315 | When the mesh is whole vertices, each vertex the grid draw visits reads the matching grid vertex through `a_Position`, for any normals |
| `Layout.GridDrawIsWholeLines` | a9.js:406-415 | A builder-made grid gives the line draw an even vertex count |
| `Layout.ViewerLayout` | a9.js:144-160 | With the `(1, 1)` grid, the buffer has `2*mesh.length + 4800` floats, the normal offset is `4*mesh.length + 9600` bytes, and the grid draw is 800 vertices |
| `Shaders.FromCode` | a9.js:4-15 | The selector numbers 0 to 3 name a variant, and nothing else does. The variant has that number |
| `Shaders.CodeRoundTrip` | a9.js:4-9 | Each variant's number maps back to it |
| `Shaders.FragmentShaderFile` | a9.js:116-129 | Each variant loads a `.frag` file |
| `Shaders.ValueUniformName` | a9.js:168-181 | Each variant's slider uniform is a `u_` uniform |
| `Shaders.ValueCaption` | a9.js:319-332 | Each variant has a non-empty caption |
| `Shaders.TablesDistinguishVariants` | a9.js:116-332 | No two variants share a fragment file, a uniform name or a caption |
| `Shaders.ConfiguredShader` | a9.js:15 | The configured variant loads `noisy.frag`, feeds the slider to `u_TileSize` and captions it "Tile Size" |

## Left out

- Grid.BuildGridMesh: requires positive spacings. With a spacing of zero or less the source loop never ends, and a Dafny method must terminate. Non-integer spacings are not modelled either.
- Layout.AttributesPairUp: assumes the loader returns normal and position arrays of the same length, each made of whole 3-float vertices. The OBJ loader (`readObjFile`) is not part of this model. With fewer normal floats than position floats, the a_Normal offset would make grid vertices read the wrong region.
- Layout.ViewerLayout: likewise assumes as many normal floats as position floats, for the same reason.
- Camera.Advance: `real` arithmetic stands in for JavaScript doubles, so rounding is not modelled.
- All WebGL calls are foreign GPU API: `initVBO`, the GPU side of `setupVec3`, `getUniformLocation`, `uniform*`, `drawArrays`, `clear` and `enable`. Their failure returns are left out too. Only the offset and range arithmetic around them is modelled, plus the reading rule of a vec3 float attribute (`Layout.Fetch`).
- The `fetch`-based loading (`loadOBJFiles`, `loadGLSLFiles`) and its async ordering are I/O. `readObjFile` and `initShaders` are not part of this model.
- The matrix and trigonometry work is floating point on a matrix library outside this model. This covers the camera position (`cos`/`sin`/`normalize`), `setLookAt`, the inverse transpose, the model and projection matrices, and the world-rotation compounding by `ROTATION_SPEED * deltaTime` in `tick`.
- DOM work is left out: `main`, the slider listener, `updateValue1`'s label text with `toFixed(2)`, and the stored `g_value1`. Only the caption table is modelled.
- Platform timing is left out: `requestAnimationFrame`, `Date.now()` itself and the `Date.now() % 2000` time uniform. Clock readings are parameters.
