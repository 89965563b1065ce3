# Grass field: instance layout and blade shaders

This project models the core of a WebGL grass-field demo.

- `createGrass` fills a per-instance offset buffer. One (u, v) pair goes to each blade of a `rows` by `columns` grid.
- The grass vertex shader places, bends and lifts every vertex of every blade.
- The grass fragment shader colours the blade and fades it into the distance fog.

The model has five modules:

- `GrassLayout` (`grass_layout.dfy`) is the buffer fill. It is an imperative method over an `array<real>`. It is proved equal to a reference function `Offsets`, and lemmas about `Offsets` state the layout properties.
- `Glsl` (`glsl.dfy`) holds the vector types and the functions of section 8.3 of the OpenGL ES Shading Language 1.00 specification that the shaders use: `mix`, `smoothstep` and `fract`, plus `vec2 * float`. It also holds `clamp`, which neither shader calls: it enters through the definition of `smoothstep` used at src/main.js:181.
- `BladeVertex` (`blade_vertex.dfy`) is the vertex shader's arithmetic as pure functions. There are lemmas about the root, the tip, the taper, the wind and the layout.
- `BladeFragment` (`blade_fragment.dfy`) is the fragment shader's arithmetic as pure functions, with lemmas about fog and colour.
- `RealFacts` (`real_facts.dfy`) holds small facts of real arithmetic that the proofs use.

Every value is an exact real. The noise texture, `sin` and `cos` are parameters whose values are not modelled:

- the noise texture is a function of the texture coordinate;
- `sin` and `cos` are the two fields of a `Trig` value.

Where a property needs `cos(0) = 1` or a texture with values in [0, 1], it takes that as a hypothesis.

Three consequences of the code are worth stating plainly:

- **A root vertex is not at its grid position.** The per-instance jitter `shuffle` and `rand * 0.2` (src/main.js:136, 138, 155) are not scaled by `h`, so a root vertex is displaced by them even when every noise amplitude is 0. `RootUnbent` and `QuietRoot` state where the root is. `RootStillInWind` states what does hold: the root does not move over time.
- **An empty grid is accepted.** Zero rows or zero columns give an empty buffer; nothing fails. The loop at src/main.js:49-53 then runs zero times. `Offsets` and `CreateOffsets` model that.
- **No fragment is ever fully clear of fog.** The fragment shader's `dist` is a length, so it is never negative, and its fog is at least 2/27 (`FogFloor`). `vPos` has w component 1 under an affine model-view matrix, so `dist` is in fact at least 1 and the fog at least 13/125 (`FogFloorAffine`).

## Model

| member | source | states |
|---|---|---|
| GrassLayout.Offsets | src/main.js:47-53 | the filled buffer has exactly rows * columns * 2 slots, and is empty when either dimension is zero |
| GrassLayout.CreateOffsets | src/main.js:47-53 | the loop leaves the fresh buffer equal to the reference layout `Offsets`; the ghost log shows that every slot is written exactly once, in ascending order |
| GrassLayout.FillRow | src/main.js:50-52 | one pass of the inner loop writes row i's pairs right after the rows before it, keeping everything already written in place and leaving every slot after row i as it was |
| GrassLayout.SetPair | src/main.js:51 | `offset.set([a, b], at)` writes a at slot at and b at slot at + 1 and leaves every other slot as it was |
| GrassLayout.CellIndexInRange | src/main.js:51 | the slot index (i * columns + ii) of every cell lies inside the buffer |
| GrassLayout.CellIndexInjective | src/main.js:51 | distinct cells get distinct row-major indices, so no write overwrites another cell |
| GrassLayout.CellIndexOnto | src/main.js:49-51 | every index below rows * columns is the row-major index of exactly the cell (c / columns, c % columns) |
| GrassLayout.OffsetAtCell | src/main.js:51 | the two slots of cell (i, ii) hold i / rows and ii / columns |
| GrassLayout.OffsetsInUnitInterval | src/main.js:51 | every stored component lies in [0, 1) |
| GrassLayout.OffsetPairsDistinct | src/main.js:49-52 | no two cells share an offset pair |
| GrassLayout.TwoByTwoLayout | src/main.js:49-52 | a 2-by-2 grid lays out (0,0), (0,0.5), (0.5,0), (0.5,0.5) in that order |
| Glsl.Mix | src/main.js:151 | mix is x at weight 0 and y at weight 1, and for a weight in [0, 1] it lies between x and y |
| Glsl.Mix3 | src/main.js:183-196 | vec3 mix is the first colour at weight 0 and the second at weight 1 |
| Glsl.MixMonotone | src/main.js:151 | a larger weight moves mix monotonically from x toward y |
| Glsl.MixCommutes | src/main.js:183-195 | blending two blends by the same weights does not depend on the order of the blends |
| Glsl.Clamp | src/main.js:181 | clamp lies in [lo, hi], is the identity inside it, and is lo below it and hi above it |
| Glsl.Smoothstep | src/main.js:181 | smoothstep lies in [0, 1], is 0 at or below edge0 and 1 at or above edge1 |
| Glsl.SmoothstepMonotone | src/main.js:181 | smoothstep is non-decreasing in x |
| Glsl.Fract | src/main.js:124 | fract lies in [0, 1) and differs from its argument by a whole number |
| Glsl.FractPeriodic | src/main.js:124 | fract has period one |
| Glsl.Fract2 | src/main.js:124 | vec2 fract lands in the unit square |
| Glsl.Fract2Tiles | src/main.js:124 | two coordinates whose scaled difference is a whole vector have the same fract |
| BladeVertex.GrassUniforms | src/main.js:67-85 | the uniforms createGrass sets give a positive blade height (size * hr) and a positive major noise amplitude, so the shader's divisions are defined; moved starts at (0, 0) |
| BladeVertex.SampleNoise | src/main.js:123-125 | a sample at scale 0 is the texel at the origin times amplitude; with a texture in [0, 1] and amplitude at least 0 the sample lies in [0, amplitude] |
| BladeVertex.SampleNoiseTiles | src/main.js:123-125 | moving the coordinate by whole periods 1 / scale does not change the sample |
| BladeVertex.HeightFraction | src/main.js:131 | h is 0 at the bottom of the blade (y = -height/2) and 1 at the top; for a positive height it lies in [0, 1] exactly when y lies within the blade |
| BladeVertex.Shuffle | src/main.js:138 | with a texture in [0, 1] the jitter lies in [-2, 2] |
| BladeVertex.CurvedAdjust | src/main.js:143 | the wind bend is 0 at h = 0 when cos(0) = 1, and lies between 0 and windNoise * windStrength when cos lies in [-1, 1] |
| BladeVertex.HeightPinch | src/main.js:151 | the taper is 1 at the root, 0.01 at the tip and within [0.01, 1] between |
| BladeVertex.HeightPinchNonIncreasing | src/main.js:151-152 | a higher vertex is never wider |
| BladeVertex.GridPosition | src/main.js:148 | an offset component in [0, 1) maps into [-area/2, area/2) |
| BladeVertex.CentredBounds | src/main.js:148 | (t - 0.5) * a lies in [-a/2, a/2) for t in [0, 1) and a positive extent a |
| BladeVertex.LayoutInsideArea | src/main.js:148 | every offset pair that createGrass writes lands inside the field's area |
| BladeVertex.ScaledY | src/main.js:158 | the height scaling is 0 at the root and adds the vertex height plus both height noises at the tip |
| BladeVertex.Rand | src/main.js:136 | rand is sin(offset.x * 100000), so it lies in [-1, 1] when sin does |
| BladeVertex.PlaneNoise | src/main.js:133-137 | the plane noise is sampled at offset + moved and lies in [0, planeNoiseAmplitude] for a unit texture; with moved at (0, 0) it is the sample at the offset itself |
| BladeVertex.MinorHeightNoise | src/main.js:139 | the fine height noise lies in [0, minorHeightNoiseAmplitude] for a unit texture |
| BladeVertex.MajorHeightNoise | src/main.js:140 | the coarse height noise lies in [0, majorHeightNoiseAmplitude] for a unit texture |
| BladeVertex.WindNoise | src/main.js:141 | the wind sample, read at offset + time * 0.5 with amplitude 1, lies in [0, 1] for a unit texture, and at wind scale 0 it is the texel at the origin |
| BladeVertex.HeightDiff | src/main.js:167 | hDiff = majorHeightNoise / majorHeightNoiseAmplitude lies in [0, 1] for a unit texture and a positive amplitude |
| BladeVertex.BladePosition | src/main.js:133-164 | x and z receive the same shuffle and the same wind bend and differ only by the grid and tapered local coordinates and by rand * 0.2; its other properties are the lemmas RootHeight, RootUnbent, RootStillInWind, QuietRoot, CrossSectionTaper and TipHeight |
| BladeVertex.VertexMain | src/main.js:127-168 | the shader's outputs: the displaced position `BladePosition`, h as `HeightFraction` and hDiff as `HeightDiff`; h lies in [0, 1] exactly for vertices within the blade, and an hDiff in [0, 1] for a texture in [0, 1] |
| BladeVertex.HeightDiffIsTexel | src/main.js:167 | hDiff is the raw texel under the major height noise, because the amplitude cancels |
| BladeVertex.RootHeight | src/main.js:158-162 | a root vertex sits at its mesh height lifted only by the plane noise |
| BladeVertex.RootUnbent | src/main.js:143-155 | with cos(0) = 1 a root vertex is not bent by the wind; horizontally it is at grid position plus shuffle (and minus rand * 0.2 in x) |
| BladeVertex.RootStillInWind | src/main.js:141-155 | with cos(0) = 1 a root vertex stays put whatever the time, wind scale and wind strength |
| BladeVertex.QuietRoot | src/main.js:136-164 | with the plane, minor and major amplitudes at 0, a root vertex is its mesh vertex moved to its grid position and jittered by shuffle and rand * 0.2 |
| BladeVertex.CrossSectionTaper | src/main.js:151-155 | two vertices of one blade at the same height share y, and their horizontal distance is scaled by heightPinch(h) |
| BladeVertex.TipHeight | src/main.js:158-162 | at the tip, y is twice the vertex height plus both height noises plus the plane noise |
| BladeFragment.Rgb255 | src/main.js:184-191 | a channel given in 0..255 becomes an intensity in [0, 1] |
| BladeFragment.DryWeight | src/main.js:195 | the dry weight hDiff * 1.5 is 0 at hDiff = 0 and 1 at hDiff = 2/3, lies in [0, 1] exactly for hDiff in [0, 2/3], and reaches 1.5 for hDiff in [0, 1] |
| BladeFragment.GradientEnds | src/main.js:184-191 | the four colour constants `LushRoot`, `LushTip`, `DryRoot` and `DryTip` are valid colours, and both gradients brighten from root to tip in every channel |
| BladeFragment.Fog | src/main.js:181 | the fog lies in [0, 1], is 0 up to distance -5 and 1 from distance 25 |
| BladeFragment.BaseColour | src/main.js:183-195 | the colour before fog is the lush gradient at hDiff = 0 and the dry gradient at dry weight 1; at the root and at the tip it blends the two gradients' end colours |
| BladeFragment.FragmentMain | src/main.js:179-198 | the fragment is fully opaque, pure white from distance 25, and the unfogged colour up to distance -5 |
| BladeFragment.FogMonotone | src/main.js:181 | fog never thins with distance |
| BladeFragment.FogFloor | src/main.js:180-181 | at any distance of at least 0, which every length is, the fog is at least 2/27 |
| BladeFragment.FogFloorAffine | src/main.js:166-181 | with vPos's w component at 1, dist is at least 1 and the fog at least 13/125 |
| BladeFragment.FogTowardWhite | src/main.js:196 | fog moves each channel from its unfogged value toward 1 and never past it |
| BladeFragment.BaseColourBlendsRootToTip | src/main.js:183-195 | the colour at height h is the h-blend of the colours at the root and at the tip |
| BladeFragment.BaseColourInUnitCube | src/main.js:183-195 | within the blade and with a dry weight in [0, 1], every channel of the colour is a valid intensity |
| BladeFragment.TipGreenOverflows | src/main.js:195 | hDiff * 1.5 reaches 1.5, so the blend extrapolates: at the tip with hDiff = 1 the green channel is 287/255, above full intensity |

## Left out

- Float32 storage and GPU floating point: the buffer and every shader value are exact reals. Rounding of i / rows and the like is not modelled.
- The ogl library plumbing: the renderer, camera, `Box` geometry, `Program`, `Mesh`, orbit control and the texture upload. The vertex attributes `position` and `offset` and the uniforms are inputs to the model.
- `texture2D`, `sin` and `cos`: their values are opaque parameters. The wrap mode of the texture is taken as the `fract` the shader already applies.
- The matrix transforms: `vPos = modelViewMatrix * vec4(pos, 1.0)`, `gl_Position` and `length(vPos)`. The fragment model takes the distance as an input. The pass-through varying `vUv = uv` (src/main.js:128) is not modelled either; the fragment shader never reads it.
- The `blow` value and the `wind` uniform: the shader computes and declares them but never uses them.
- The clamping of `gl_FragColor` into [0, 1] by the GPU.
- `createParticles`, the floor (`createFloor`), and the render loop with its per-frame `time` update (src/main.js:343-354): they are not part of this model. `time` is an input of the vertex model, and `moved` keeps the (0, 0) set at src/main.js:68.
- BladeVertex.HeightFraction: requires a height other than 0, because GLSL leaves division by zero unspecified. createGrass always passes 0.2 (`GrassUniforms`).
- BladeVertex.VertexMain: requires majorHeightNoiseAmplitude other than 0, for the same reason. createGrass passes 2.
- GrassLayout.CreateOffsets: the per-cell statement (cell (i, ii) holds (i / rows, ii / columns)) is not an `ensures` of the method. It follows from the method's `ensures` (the buffer equals `Offsets`) by `OffsetAtCell`.
