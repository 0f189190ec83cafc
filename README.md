# River editor and surface laboratory: a Dafny model

This project models the interactive core of a small OpenGL curve editor. It
covers two parts.

The first is the **river editor** (`RiverEditor`):

- a river shaped as a Bezier curve, whose control points `Init` lays out evenly on the y axis;
- points picked with the mouse on the plane z = 0, dragged and released;
- keyboard-edited parameters: river width, texture tiling and animation speed;
- a buffer of splash particles, regenerated from `rand()` whenever the animation speed changes.

The second is the **surface laboratory** (`Laborator2`). It has four control points of a
cubic Bezier curve on the ground plane y = 0. The arrow keys nudge the first point. The
mouse picks the first or second point on y = 0 and drags it.

All quantities are exact `real`s, and exponents are `nat`s.

The files are:

- `vectors.dfy` (`Vectors`): the glm vector types and operations. It also holds
  `Within`, the squared-distance form of `glm::length(a - b) < threshold`, with lemmas
  proving it is the same test as the length comparison.
- `curve_math.dfy` (`CurveMath`) covers the Bezier mathematics:
  - powers and binomial coefficients;
  - the recurrence `C(m, i) = C(m, i-1) * (m-i+1)/i` that `GetBezierPoint` uses;
  - Pascal's rule for the Bernstein weights, and the binomial theorem;
  - the Bernstein weights summing to one;
  - the curve passing through its end points, and reproducing a constant polygon.
- `particles.dfy` (`Particles`): `RandFloat`, the particle count, and the ranges a splash particle is drawn from.
- `river_editor.dfy` (`RiverEditor`): the z = 0 intersection, the control-point layout, the "last hit wins" search, and the class `RiverEditor`. The class holds the editor's fields and the methods `Init`, `DefaultParameters`, `UpdateVFX`, `GetBezierPoint` and the input handlers.
- `laborator2.dfy` (`Laborator2`): the y = 0 intersection, the two-point pick, and the class `Laborator2` with its handlers.

The camera's `glm::unProject` is an input. Each picking method receives the unprojected near and far points (Laborator2's drag receives the single unprojected cursor point).

`rand()` is a supplied generator `rng: nat -> nat` with values in `[0, randMax]`. A call counter `randCalls` fixes which values each particle consumes: four per particle, in the order position x, position y, speed x, speed y.

The model takes the following facts about the code as they are:

- the code never clamps the animation speed, the river width or the tiling factor;
- changing the river width does not regenerate the particles; only a change of animation speed does;
- the only particle render call (`Source/RiverEditor/RiverEditor.cpp` line 149) is commented out, so no particle is emitted along the curve and the particle buffer is only filled, never drawn.

## Model

| member | source | states |
|---|---|---|
| Vectors.WithinIsLengthTest | Source/RiverEditor/RiverEditor.cpp:387 | the squared-distance test `Within` holds exactly when the length of `a - b` is below the threshold |
| Vectors.CloserIsLengthTest | Source/Laboratoare/Laborator2/Laborator2.cpp:257 | one length is below another exactly when its squared distance is below the other's |
| CurveMath.BinomialStep | Source/RiverEditor/RiverEditor.cpp:324-325 | `i * C(m, i) == (m - i + 1) * C(m, i - 1)` for `1 <= i <= m`, by induction on Pascal's rule |
| CurveMath.BinomialStepReal | Source/RiverEditor/RiverEditor.cpp:324-325 | multiplying `C(m, i - 1)` by `(m - i + 1) / i` gives `C(m, i)` |
| CurveMath.CoefficientStep | Source/RiverEditor/RiverEditor.cpp:321-325 | the update `c *= (n - i) / i` turns `C(n - 1, i - 1)` into `C(n - 1, i)` |
| CurveMath.WeightPascal | Source/RiverEditor/RiverEditor.cpp:326 | Bernstein weight `i` of degree `m` is `a` times weight `i` plus `b` times weight `i - 1` of degree `m - 1` |
| CurveMath.RowPascal | Source/RiverEditor/RiverEditor.cpp:326 | the row of degree-`m` weights is built from the degree-`m - 1` row by Pascal's rule |
| CurveMath.PascalNextSum | Source/RiverEditor/RiverEditor.cpp:326 | one Pascal step multiplies the sum of a row by `a + b` |
| CurveMath.BinomialTheorem | Source/RiverEditor/RiverEditor.cpp:326 | the weights `C(m, i) a^(m-i) b^i` sum to `(a + b)^m` |
| CurveMath.PartitionOfUnity | Source/RiverEditor/RiverEditor.cpp:326 | the Bernstein weights at any `t` sum to 1 |
| CurveMath.BezierStartsAtFirstPoint | Source/RiverEditor/RiverEditor.cpp:318-329 | the curve at `t = 0` is the first control point (with `0^0 = 1` as `pow` gives) |
| CurveMath.BezierEndsAtLastPoint | Source/RiverEditor/RiverEditor.cpp:318-329 | the curve at `t = 1` is the last control point |
| CurveMath.BezierOfConstantPoints | Source/RiverEditor/RiverEditor.cpp:318-329 | when every control point is `p`, the curve is `p` for every `t` |
| CurveMath.BezierLoopStep | Source/RiverEditor/RiverEditor.cpp:326 | adding `c * (1-t)^(n-1-i) * t^i * P_i`, with `c = C(n - 1, i)`, extends the Bernstein sum by term `i` |
| Particles.RandFloat | Source/RiverEditor/RiverEditor.cpp:8-11 | the result is `min + (max - min) * r / RAND_MAX`, between `min` and `max` in either order, `min` at `r = 0` and `max` at `r = RAND_MAX` |
| Particles.Interpolate | Source/RiverEditor/RiverEditor.cpp:10 | an interpolation parameter in [0, 1] keeps the value between the two ends, and parameter 1 gives the second end, in either order |
| Particles.ParticleCount | Source/RiverEditor/RiverEditor.cpp:158 | the count is the floor of `10 * abs(animationSpeed)` |
| Particles.SplashParticle | Source/RiverEditor/RiverEditor.cpp:164-177 | every particle lies in the splash ranges: position x in [-0.5, 0.5], y in [0, 1], z = 0, w = 1; speed x in [-0.125, 0.125], y in [0, 0.25], z = w = 0; the lowest draws give the lower ends and the highest draws the upper ends of both the position and the speed ranges |
| RiverEditor.IntersectZPlane | Source/RiverEditor/RiverEditor.cpp:310-315 | the pick point has z = 0 and lies on the line through the near and far points (the cross product is zero); requires a ray not parallel to the plane |
| RiverEditor.ZPlaneHitUnique | Source/RiverEditor/RiverEditor.cpp:313-315 | the pick point is the only point of the ray's line on z = 0 |
| RiverEditor.SlotSpacing | Source/RiverEditor/RiverEditor.cpp:48-51 | neighbouring slots are `height / count` apart |
| RiverEditor.SlotsIncreasing | Source/RiverEditor/RiverEditor.cpp:48-51 | with positive height, later slots are strictly higher |
| RiverEditor.SlotInside | Source/RiverEditor/RiverEditor.cpp:48-51 | every slot lies strictly inside (-height/2, height/2) |
| RiverEditor.SlotsSymmetric | Source/RiverEditor/RiverEditor.cpp:48-51 | slot `count - 1 - i` is the mirror image of slot `i` |
| RiverEditor.LayoutSpacing | Source/RiverEditor/RiverEditor.cpp:48-52 | consecutive laid-out points are `height / count` apart |
| RiverEditor.LayoutSymmetric | Source/RiverEditor/RiverEditor.cpp:48-52 | the laid-out points are symmetric about y = 0 |
| RiverEditor.LayoutInside | Source/RiverEditor/RiverEditor.cpp:48-52 | the laid-out points lie strictly inside the column |
| RiverEditor.LayoutIncreasing | Source/RiverEditor/RiverEditor.cpp:48-52 | the laid-out points are strictly increasing in y |
| RiverEditor.LayoutControlPoints | Source/RiverEditor/RiverEditor.cpp:47-52 | the loop pushes exactly `count` points, each with x = z = 0 and y in the middle of its slot; they are evenly spaced, symmetric, inside the column and strictly increasing |
| RiverEditor.LastHit | Source/RiverEditor/RiverEditor.cpp:385-391 | with no point in reach the previous selection stays; otherwise the result is the largest index in reach |
| RiverEditor.RiverEditor.Init | Source/RiverEditor/RiverEditor.cpp:35-52 | the defaults hold, there are four laid-out control points with no selection, the generator and `RAND_MAX` given to it are kept, and one particle, `SplashDraw(0)`, drawn from that generator's first four `rand()` values (line 128) |
| RiverEditor.RiverEditor.DefaultParameters | Source/RiverEditor/RiverEditor.cpp:13-33 | every parameter takes its default and the selection is cleared, and no other field changes |
| RiverEditor.RiverEditor.Rand | Source/RiverEditor/RiverEditor.cpp:10 | a call of `rand()` returns the next value of the generator, within [0, RAND_MAX] |
| RiverEditor.RiverEditor.DrawParticle | Source/RiverEditor/RiverEditor.cpp:166-174 | one particle is made from the next four `rand()` values, in source order |
| RiverEditor.RiverEditor.UpdateVFX | Source/RiverEditor/RiverEditor.cpp:156-180 | a new buffer holds `floor(10 * abs(animationSpeed))` particles; particle `i` is drawn from the `rand()` values `4i .. 4i + 3` after the call, and all lie in the splash ranges |
| RiverEditor.RiverEditor.GetBezierPoint | Source/RiverEditor/RiverEditor.cpp:318-329 | the loop computes the Bernstein-form Bezier point, with `c` equal to `C(n - 1, i)` at index `i`; it gives the first point at t = 0, the last at t = 1, and `p` for an all-`p` polygon |
| RiverEditor.RiverEditor.OnInputUpdate | Source/RiverEditor/RiverEditor.cpp:331-352 | T/R change the river width and P/O the tiling by `smoothness * deltaTime`, unclamped; opposite keys cancel |
| RiverEditor.RiverEditor.OnKeyPress | Source/RiverEditor/RiverEditor.cpp:354-367 | keypad +/- step the animation speed by `smoothness`, unclamped, and the particles are regenerated after each step; the counter of `rand()` calls advances by four per particle of each regeneration, and the final buffer's particle `i` is drawn from the four `rand()` values starting at `randCalls - 4 * Length + 4i` |
| RiverEditor.RiverEditor.OnMouseMove | Source/RiverEditor/RiverEditor.cpp:369-377 | with a selection, only the selected point changes, to the pick point; with none, nothing changes |
| RiverEditor.RiverEditor.OnMouseBtnPress | Source/RiverEditor/RiverEditor.cpp:379-393 | a left press sets the selection to the last point within the click threshold, or keeps it; the selection stays -1 or a valid index |
| RiverEditor.RiverEditor.OnMouseBtnRelease | Source/RiverEditor/RiverEditor.cpp:395-402 | a left release clears the selection, and no control point changes |
| Laborator2.IntersectYPlane | Source/Laboratoare/Laborator2/Laborator2.cpp:239-246 | the pick point has y = 0 and lies on the ray's line; requires a ray not parallel to the ground |
| Laborator2.YPlaneHitUnique | Source/Laboratoare/Laborator2/Laborator2.cpp:241-246 | the pick point is the only point of the ray's line on y = 0 |
| Laborator2.PressPick | Source/Laboratoare/Laborator2/Laborator2.cpp:248-261 | the result is p1, p2 or the old selection; with no hit the old selection stays; p2 wins when hit and strictly closer than p1, or when p1 is not hit; otherwise a hit p1 wins, including on ties |
| Laborator2.PressPickMatchesLengths | Source/Laboratoare/Laborator2/Laborator2.cpp:248-261 | the squared-distance pick equals the source's comparisons of lengths against 0.1 and the running `min` (10 at the start) |
| Laborator2.Laborator2.Init | Source/Laboratoare/Laborator2/Laborator2.cpp:42-52 | 10 generated points, 5 instances, translation 8, the four initial control points, and no selection |
| Laborator2.Laborator2.OnInputUpdate | Source/Laboratoare/Laborator2/Laborator2.cpp:191-202 | only p1 moves, by 0.05 along x for left/right and along z for up/down; its y is unchanged and opposite keys cancel |
| Laborator2.Laborator2.OnMouseMove | Source/Laboratoare/Laborator2/Laborator2.cpp:216-226 | the selected point becomes `(m.x, 0, -m.z)` and the other points are unchanged |
| Laborator2.Laborator2.OnMouseBtnPress | Source/Laboratoare/Laborator2/Laborator2.cpp:228-268 | a left press sets the selection to `PressPick` of the ground pick point, so it never selects p3 or p4 |
| Laborator2.Laborator2.OnMouseBtnRelease | Source/Laboratoare/Laborator2/Laborator2.cpp:270-277 | a left release clears the selection |

## Left out

- Rendering and GL state are not modelled: meshes, shaders, textures, uniforms, instanced drawing and frame callbacks. They are foreign library calls.
- `glm::unProject`, the camera and the window resolution are not modelled. The unprojected points are inputs of the picking methods.
- `rand()` is a supplied generator, not the C library's. `RAND_MAX` is any positive bound.
- Floating-point rounding is not modelled: the arithmetic is over exact reals. For example, `0.05f` and `0.1f` are the reals 0.05 and 0.1, and `pow` is an exact power with `0^0 = 1`.
- The particle count uses `abs` on the float speed. The truncating conversion to `unsigned int` is its floor.
- `ParticleEffect::Generate`, `SetInitial` and the GPU buffer upload are not modelled. The model's particle buffer is a fresh array holding what the loop writes. `ParticleEffect.h` and `Particle.h` are not part of this model.
- `Utils.h` is not modelled. Its `RandFloat` is the same as the one modelled, and `RandInsideUnitCircle` needs float trigonometry.
- Laborator2's `max_rotate` (`glm::radians(360)`, i.e. 2π) is not modelled, because it is not an exact real.
- The debug printing of Laborator2, its empty handlers, and its bogus line mesh are not modelled.
- The mouse button is a boolean parameter: whether the left-button bit is set. Held keys are boolean parameters too.
- RiverEditor.IntersectZPlane and Laborator2.IntersectYPlane require a ray not parallel to the plane. The source divides without a guard, and a parallel ray would give a non-finite float.
- Particles.RandFloat: when `max == min`, the source divides by zero and gets an infinite quotient. The model returns `min`, which is what `r / inf` gives.
- Laborator2's `selected` pointer is an optional `PointId` naming p1 or p2, because a press can only ever point it at one of those two.
