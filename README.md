# Wheel carousel: geometry, ring layout and scroll rotation

This project models the core of `TCanvas` in `src/scripts/webgl/TCanvas.ts`.
`TCanvas` draws a three.js "wheel carousel": two rings of rounded-corner
picture cards that turn when the user scrolls. The core has three parts:

- **The rounded-rectangle builder** (`RoundedRectangle`).
  - It starts with the 18 vertices (six triangles) of the cross-shaped body.
  - A loop of `4s` iterations then pushes one corner-fan wedge per iteration
    onto a position buffer and a uv buffer.
  - Each wedge's corner anchor follows from its quadrant. The sweep angle is
    carried from one wedge to the next.
  - The method `Geometry.RoundedRectangle` appends to two `seq<real>` buffers
    in the source's loop. It is proved equal to the specification functions
    `Geometry.Positions` and `Geometry.UVs`.
  - The modules `GeometryFacts` and `CornerFacts` prove what those buffers
    look like.
- **The ring layout** (the loop in `createObjects`).
  - Each of the N image paths gets one mesh on the top wheel and a copy on
    the bottom wheel. Mesh i sits at `(3·cos(i·2π/N), 3·sin(i·2π/N), -1)`.
  - The top wheel is then moved up by 3.85 and the bottom wheel down by 3.45.
  - A wheel (`THREE.Group`) is the class `WheelLayout.Wheel`, with fields for
    its position, its rotation about z, and its children.
  - The constructor of `WheelCarousel.Carousel` builds both wheels with the
    source's loop. It is proved to yield `WheelCarousel.Created`.
- **The scroll handler.** Each `wheel` event works as follows.
  - It sets the speed to `(deltaY / 360) / 2`.
  - It turns both wheels by minus the speed.
  - It turns each of the first N meshes of each wheel back by the speed.
  - `WheelCarousel.Carousel.OnWheel` does exactly that. It is proved equal to
    the specification function `ScrollRotation.Scroll`.
  - The proved properties of `Scroll`:
    - every picture stays upright in the scene;
    - the two wheels stay in step;
    - an event is undone by the opposite delta;
    - a delta of zero changes nothing;
    - a run of events equals one event with the summed delta.

`Math.cos` and `Math.sin` are parameters `cos, sin: real -> real` with no
interpretation. Every geometric fact proved here therefore holds for any pair
of functions. Where a fact needs a value (cos 0 = 1, sin 0 = 0 when the
unrotated wheels are translated; cos² + sin² = 1 for the ring radius), the
member asks for it in a `requires`. `Math.PI` is the constant `Scene.PI`, the
decimal literal of the double nearest to π. All arithmetic is exact
arithmetic on reals.

The card every picture is mapped onto is built with `RoundedRectangle(1, 1,
0.05, 10)`. Its position buffer has 414 floats and its uv buffer 276 floats,
so both describe the same 138 vertices: each wedge adds three vertices of three
position floats and two uv floats each. `GeometryFacts.VertexCounts` and
`GeometryFacts.CardGeometry` state this.

## Model

| member | source | states |
|---|---|---|
| `Geometry.RoundedRectangle` | src/scripts/webgl/TCanvas.ts:131-181 | the buffers the loop builds are exactly `Positions(w, h, r, s)` and `UVs(w, h, r, s)`: the loop appends wedges 0 to 4s - 1 in order onto the body arrays, and `phia` always holds the division point `Angle(i, s)` |
| `Geometry.Positions` | src/scripts/webgl/TCanvas.ts:141-173 | the position buffer has 54 + 36s floats |
| `Geometry.UVs` | src/scripts/webgl/TCanvas.ts:150-178 | the uv buffer has 36 + 24s floats |
| `Geometry.AppendWedges` | src/scripts/webgl/TCanvas.ts:162-173 | n iterations add 9n position floats |
| `Geometry.AppendWedgeUVs` | src/scripts/webgl/TCanvas.ts:162-178 | n iterations add 6n uv floats |
| `Geometry.BodyPositions` | src/scripts/webgl/TCanvas.ts:141-148 | the body array has 54 floats (18 vertices) |
| `Geometry.BodyUVs` | src/scripts/webgl/TCanvas.ts:150-157 | the body uv array has 36 floats (18 uv pairs) |
| `Geometry.Triangle` | src/scripts/webgl/TCanvas.ts:142-147 | one row of the body array is 9 floats |
| `Geometry.TexTriangle` | src/scripts/webgl/TCanvas.ts:151-156 | one row of the body uv array is 6 floats |
| `Geometry.Wedge` | src/scripts/webgl/TCanvas.ts:173 | one push adds 9 position floats |
| `Geometry.WedgeTex` | src/scripts/webgl/TCanvas.ts:178 | one push adds 6 uv floats |
| `Geometry.InsetsOf` | src/scripts/webgl/TCanvas.ts:132-139 | the values derived from (w, h, r): inner half-extents wi = w/2 - r, hi = h/2 - r, half-extents w2 = w/2, h2 = h/2, and texture insets ul = r/w, ur = (w - r)/w, vl = r/h, vh = (h - r)/h; `Geometry.InsetsMeaning` proves what they mean |
| `Geometry.InsetsMeaning` | src/scripts/webgl/TCanvas.ts:132-139 | w2 and h2 are half of w and h; wi and hi lie one radius r inside them; ul·w = r and vl·h = r; ul + ur = 1 and vl + vh = 1 |
| `Geometry.Angle` | src/scripts/webgl/TCanvas.ts:159-163 | division point k of the full turn into 4s steps, `2π·k / (4s)`: `phib` of iteration i is Angle(i + 1), and `phia` is Angle(i) |
| `Geometry.AngleRange` | src/scripts/webgl/TCanvas.ts:159-163 | the division points start at 0, end at 2π after 4s steps, and all lie in [0, 2π] |
| `Geometry.AnchorX` | src/scripts/webgl/TCanvas.ts:170 | the x of wedge i's corner anchor: wi when i < s or i >= 3s, -wi otherwise |
| `Geometry.AnchorY` | src/scripts/webgl/TCanvas.ts:171 | the y of wedge i's corner anchor: hi when i < 2s, -hi otherwise |
| `Geometry.AnchorU` | src/scripts/webgl/TCanvas.ts:175 | the u of wedge i's texture anchor: ur when i < s or i >= 3s, ul otherwise |
| `Geometry.AnchorV` | src/scripts/webgl/TCanvas.ts:176 | the v of wedge i's texture anchor: vh when i < 2s, vl otherwise |
| `Geometry.AnchorMirror` | src/scripts/webgl/TCanvas.ts:170-176 | every anchor is a corner (±wi, ±hi) of the inner rectangle, and the texture anchor lies on the same side: u is ur exactly when x is wi, v is vh exactly when y is hi |
| `Geometry.WedgePositions` | src/scripts/webgl/TCanvas.ts:162-173 | the nine floats iteration i pushes onto the positions: its anchor and the arc points at Angle(i) and Angle(i + 1) |
| `Geometry.WedgeUVs` | src/scripts/webgl/TCanvas.ts:162-178 | the six floats iteration i pushes onto the uvs: its texture anchor and the arc points at the same angles |
| `Geometry.WedgeShape` | src/scripts/webgl/TCanvas.ts:165-178 | iteration i pushes three vertices at z = 0: the anchor and two points at offset r·(cos, sin) of the wedge's start and end angles from it; and six uv floats: the uv anchor and offsets (ul·cos, vl·sin) of the same angles |
| `GeometryFacts.VertexCounts` | src/scripts/webgl/TCanvas.ts:141-178 | positions are a multiple of 3 floats and uvs a multiple of 2; both describe 18 + 12s vertices; one more arc step adds 12 vertices; s = 10 gives 414 and 276 floats, 138 vertices |
| `GeometryFacts.CardGeometry` | src/scripts/webgl/TCanvas.ts:53-54 | the card built with (1, 1, 0.05, 10) has insets wi = hi = 0.45, w2 = h2 = 0.5, ul = vl = 0.05, ur = vh = 0.95, and 138 vertices |
| `GeometryFacts.BodyPrefix` | src/scripts/webgl/TCanvas.ts:132-157 | the first 54 position floats and 36 uv floats are the body arrays built from wi, hi, w2, h2, ul, ur, vl, vh; the loop never changes them |
| `GeometryFacts.PushesKeepPrefix` | src/scripts/webgl/TCanvas.ts:162-181 | a loop that only pushes keeps every entry already in the buffer |
| `GeometryFacts.WedgeInBuffer` | src/scripts/webgl/TCanvas.ts:162-178 | wedge i occupies floats 54 + 9i to 63 + 9i of the positions and 36 + 6i to 42 + 6i of the uvs |
| `GeometryFacts.WedgeVertices` | src/scripts/webgl/TCanvas.ts:162-178 | vertices 18 + 3i, 19 + 3i and 20 + 3i are wedge i's anchor and its arc points at Angle(i) and Angle(i + 1); the uvs are the uv anchor and its offsets by `ul·cos`, `vl·sin` |
| `GeometryFacts.FlatGeometry` | src/scripts/webgl/TCanvas.ts:141-173 | every vertex of the buffer, body and fans alike, has z = 0 |
| `GeometryFacts.ProjectedGeometry` | src/scripts/webgl/TCanvas.ts:131-178 | every uv pair is its vertex's (x, y) rescaled from the w-by-h rectangle to the unit square: u = (x + w/2)/w, v = (y + h/2)/h |
| `GeometryFacts.WedgeProjected` | src/scripts/webgl/TCanvas.ts:170-178 | each wedge's uvs are its positions rescaled: the uv anchor is the anchor rescaled and the uv radius ul = r/w, vl = r/h is the radius rescaled |
| `GeometryFacts.BodyProjected` | src/scripts/webgl/TCanvas.ts:141-157 | the body uv array is the body position array rescaled |
| `CornerFacts.AnchorByQuadrant` | src/scripts/webgl/TCanvas.ts:170-176 | wedge i of quadrant q = i / s is anchored at (wi, hi), (-wi, hi), (-wi, -hi), (wi, -hi) for q = 0, 1, 2, 3, with the uv anchor at (ur, vh), (ul, vh), (ul, vl), (ur, vl) |
| `CornerFacts.AngleChain` | src/scripts/webgl/TCanvas.ts:159-180 | the sweep starts at 0 and ends at 2π; each division point is π/(2s) past the previous one; point qs is the quarter turn qπ/2 |
| `CornerFacts.AngleMonotone` | src/scripts/webgl/TCanvas.ts:163 | division points never decrease with their index, and strictly increase from a smaller index to a larger one |
| `CornerFacts.WedgeSweep` | src/scripts/webgl/TCanvas.ts:163-176 | wedge i sweeps counter-clockwise inside the quarter turn of its own quadrant |
| `CornerFacts.FanContinuity` | src/scripts/webgl/TCanvas.ts:165-180 | within a corner, the end vertex (and uv) of wedge i is the start arc vertex (and uv) of wedge i + 1, because `phia = phib` carries the angle |
| `WheelLayout.Interval` | src/scripts/webgl/TCanvas.ts:63 | `radianInterval`, the angle between neighbouring meshes: 2π / N; `WheelLayout.SlotAngles` proves that N of them make a full turn |
| `WheelLayout.SlotAngle` | src/scripts/webgl/TCanvas.ts:73-81 | the angle `radianInterval * i` at which mesh i is placed; `WheelLayout.SlotAngles` and `WheelLayout.SlotsDistinct` prove the slots start at 0, are one interval apart, lie in [0, 2π) and strictly increase |
| `WheelLayout.SlotMesh` | src/scripts/webgl/TCanvas.ts:71-83 | the mesh created and placed for path i: showing image i, at `SlotPosition`, unrotated; the bottom wheel's clone placed at the same point is the same value |
| `WheelLayout.LayoutMeshes` | src/scripts/webgl/TCanvas.ts:61-87 | each wheel gets one mesh per path; mesh i shows path i, sits at (cos(i·2π/N)·3, sin(i·2π/N)·3, -1) and is unrotated |
| `WheelLayout.SlotPosition` | src/scripts/webgl/TCanvas.ts:63-76 | mesh i of n sits at (cos·3, sin·3, -1) of its slot angle: one unit behind the wheel, at distance 3·√(cos² + sin²) from its axis |
| `WheelLayout.Layout` | src/scripts/webgl/TCanvas.ts:63-87 | the children the layout loop gives either wheel: one unrotated slot mesh per path, in path order; `WheelLayout.LayoutMeshes` reads it mesh by mesh |
| `WheelLayout.SlotAngles` | src/scripts/webgl/TCanvas.ts:63-76 | slot 0 is at angle 0; each next slot is one interval 2π/N further; all slots lie in [0, 2π); N intervals make a full turn |
| `WheelLayout.SlotsDistinct` | src/scripts/webgl/TCanvas.ts:63-76 | distinct meshes have distinct, increasing slot angles |
| `WheelLayout.SlotOnRing` | src/scripts/webgl/TCanvas.ts:62-76 | given cos² + sin² = 1 at its angle, every mesh lies on the ring of radius 3, one unit behind the wheel |
| `WheelLayout.SixteenSlots` | src/scripts/webgl/TCanvas.ts:8-29 | the carousel loads sixteen images, one every π/8 |
| `WheelLayout.Wheel.constructor` | src/scripts/webgl/TCanvas.ts:48-49 | a new group is at the origin, unrotated and empty |
| `WheelLayout.Wheel.Add` | src/scripts/webgl/TCanvas.ts:85-86 | `add` appends the mesh as the last child and moves nothing |
| `WheelLayout.Wheel.TranslateY` | src/scripts/webgl/TCanvas.ts:89-90 | `translateY(d)` moves the group by d along its own y axis (-sin angle, cos angle, 0) and changes nothing else |
| `WheelLayout.Wheel.RotateZ` | src/scripts/webgl/TCanvas.ts:102-103 | `rotateZ(d)` adds d to the group's rotation about z and changes nothing else |
| `WheelLayout.Wheel.RotateChildZ` | src/scripts/webgl/TCanvas.ts:107-108 | `children[i].rotateZ(d)` adds d to mesh i's own rotation and changes nothing else |
| `WheelCarousel.Carousel.constructor` | src/scripts/webgl/TCanvas.ts:47-93 | with cos 0 = 1 and sin 0 = 0, both wheels hold the layout of the paths; the top wheel is at (0, 3.85, 0) and the bottom wheel at (0, -3.45, 0), both unrotated; the speed starts at 0 |
| `WheelCarousel.Carousel.OnWheel` | src/scripts/webgl/TCanvas.ts:96-110 | the new speed is deltaY / 720 and both wheels become `Scroll(old, deltaY)`: each wheel turned by minus the speed and each of its meshes turned by the speed, with nothing else changed |
| `WheelCarousel.CreatedShape` | src/scripts/webgl/TCanvas.ts:61-90 | right after construction every picture is upright; the two wheels are in step (same rotation, same meshes); the top wheel is 7.3 above the bottom one; each wheel has N meshes |
| `WheelCarousel.ScrolledShape` | src/scripts/webgl/TCanvas.ts:61-110 | after any run of scroll events every picture is still upright, the wheels are in step and in place, and the state equals one event with the summed delta |
| `WheelCarousel.Created` | src/scripts/webgl/TCanvas.ts:61-90 | both wheels right after `createObjects`: the same layout, unrotated, the top wheel at (0, 3.85, 0) and the bottom wheel at (0, -3.45, 0) |
| `WheelCarousel.ShownCarousel` | src/scripts/webgl/TCanvas.ts:8-87 | the carousel built from the sixteen image paths: both wheels hold 16 meshes, the same on each, mesh i showing image i at angle i·π/8 on the ring of radius 3, one unit behind, unrotated |
| `ScrollRotation.Speed` | src/scripts/webgl/TCanvas.ts:99 | the speed is deltaY / 720 |
| `ScrollRotation.SpeedLinear` | src/scripts/webgl/TCanvas.ts:99 | the speed is linear in the delta: sums map to sums, opposites to opposites, 0 to 0 |
| `WheelLayout.Spin` | src/scripts/webgl/TCanvas.ts:107-108 | a mesh's `rotateZ(d)`: its own rotation raised by d, its image and position kept; `ScrollRotation.SpunKeepsScene` is its partner |
| `ScrollRotation.SpinAll` | src/scripts/webgl/TCanvas.ts:106-109 | the child loop: every mesh of the wheel, in order, turned by d about its own z axis; `ScrollRotation.SpunKeepsScene` states what it keeps |
| `ScrollRotation.Spun` | src/scripts/webgl/TCanvas.ts:102-109 | one wheel after an event of speed d: rotation lowered by d, each mesh's own rotation raised by d; `ScrollRotation.SpunKeepsScene` states what it keeps |
| `ScrollRotation.Scroll` | src/scripts/webgl/TCanvas.ts:99-109 | both wheels after one `wheel` event: each one `Spun` by the event's speed |
| `ScrollRotation.SpunKeepsScene` | src/scripts/webgl/TCanvas.ts:102-109 | one event lowers the wheel's rotation by the speed and raises every mesh's own rotation by it; the translation, the meshes' images and positions, and each mesh's scene rotation stay as they were |
| `ScrollRotation.SpunUpright` | src/scripts/webgl/TCanvas.ts:102-109 | an upright wheel stays upright |
| `ScrollRotation.SpunCompose` | src/scripts/webgl/TCanvas.ts:102-109 | two wheel updates compose into one with the summed speed |
| `ScrollRotation.SpunZero` | src/scripts/webgl/TCanvas.ts:102-109 | a wheel update of speed 0 changes nothing |
| `ScrollRotation.ScrollInverse` | src/scripts/webgl/TCanvas.ts:99-109 | an event with deltaY followed by one with -deltaY restores every wheel and mesh angle |
| `ScrollRotation.ScrollZero` | src/scripts/webgl/TCanvas.ts:99-109 | an event with deltaY = 0 changes nothing |
| `ScrollRotation.ScrollCompose` | src/scripts/webgl/TCanvas.ts:99-109 | two events compose into one whose delta is the sum of theirs |
| `ScrollRotation.ScrollAll` | src/scripts/webgl/TCanvas.ts:96-110 | the state after a run of `wheel` events with the given deltas, handled in order, each one a `Scroll`; `ScrollRotation.ScrollAllTotal` and `ScrollRotation.ScrollAllKeeps` are its partners |
| `ScrollRotation.ScrollAllTotal` | src/scripts/webgl/TCanvas.ts:96-110 | any run of events leaves both wheels where one event with the summed delta would |
| `ScrollRotation.ScrollAllKeeps` | src/scripts/webgl/TCanvas.ts:96-110 | any run of events keeps upright wheels upright, wheels in step in step, and every wheel's translation unchanged |

## Left out

- Floating point. Positions, angles and rotations are exact reals. Double
  rounding in JavaScript arithmetic is not modelled, and neither is the
  `Float32Array` conversion of the buffers (`src/scripts/webgl/TCanvas.ts:183-187`).
  Neither is the wrap-around of repeated rotations in three.js' quaternion
  representation: the model's angles accumulate without bound.
- The values of `Math.cos` and `Math.sin`. They are uninterpreted parameters.
  So the model does not prove where an orbiting picture is in the scene after
  a scroll, which needs the angle-addition formulas. It does prove the local
  slot of every mesh and the rotation of every wheel.
- `BufferGeometry` and `setAttribute` (`src/scripts/webgl/TCanvas.ts:183-187`).
  The model's result is the two buffers.
- `Geometry.RoundedRectangle` requires w ≠ 0 and h ≠ 0. The source divides by
  both; with 0 it would compute infinities and NaN, which reals cannot
  represent.
- `WheelCarousel.Carousel.constructor`: for N = 0 the source's
  `radianInterval` is `Infinity`. The loop never uses it, so the model uses 0
  there.
- Textures and materials: `createTexture`, sharing the geometry, `clone`
  (beyond copying the position) and `console.log`
  (`src/scripts/webgl/TCanvas.ts:54-78`). A mesh records only the image path
  it shows. `src/scripts/webgl/utils/createTexture.ts` is not part of this
  model.
- Scene plumbing: `init`, `animate`, `dispose`, `controls.update`,
  `gl.setup/render`, `loadAssets(...).then()`, `wheelCarousel.add` and
  `gl.scene.add` (`src/scripts/webgl/TCanvas.ts:32-44, 112-126`). These are
  rendering, frame scheduling and asynchronous loading.
  `src/scripts/entry.ts` is not part of this model.
- Registering the document-level `wheel` listener. `OnWheel` is the
  listener's body. The closure's captured variables are the fields of
  `Carousel`.
- Hovering and ray casting: `TCanvas.ts` has none.
- Aliasing between meshes. Each mesh is a value inside its wheel's `children`
  sequence. The source makes the bottom mesh a `clone`, so no mesh object is
  shared between the wheels.
