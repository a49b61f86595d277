# Coordinate visualizer: a Dafny model of its geometry kernel

The visualizer shows one point in 2D (Cartesian and polar) and one in 3D
(Cartesian, cylindrical and spherical). The user moves a point by dragging
it on a canvas or by typing coordinates. The two points can be chained, so
that the 3D point stands over the 2D one. This project models the
arithmetic underneath:

- the angle normaliser and the six coordinate conversions;
- the camera projection of the 3D view and the samplers that build the
  cylinder and sphere wireframes;
- the preset camera table;
- the view-mode buttons;
- the application's point handlers and the readouts derived from the points;
- the 2D canvas's world/pixel maps, drag gesture, zoom and size controls;
- the 3D canvas's camera gestures and clamps, point drag, overlay measures
  and the index arithmetic of the wireframe edge loops.

Modules follow the program's files:

| module | file |
|---|---|
| `JsMath` | JavaScript numerics: the `Math` functions, the truncating `%`, `Math.round`, `Math.max`/`Math.min` |
| `Geometry` | `src/types/geometry.ts` |
| `Coordinates` | `src/utils/coordinates.ts` |
| `Projection` | `src/utils/projection.ts` |
| `Controls` | `src/components/Controls.tsx` |
| `App` | `src/App.tsx` |
| `Canvas2D` | `src/components/Canvas2D.tsx` |
| `Canvas3D` | `src/components/Canvas3D.tsx` |

Numbers are exact reals, except the 2D canvas's scale and size, which are
`int`. The scale starts at 50 and the size at 600 (src/App.tsx:25-26), and both
change only through a slider's `parseInt` and the ±5/±50 buttons with their
integer clamps, so neither can ever hold a fraction. `Math.PI`, `sin`, `cos`, `sqrt`, `atan2` and `acos` are not
computed. They are the fields of a `JsMath.Math` record that every member takes as a
parameter. Each property states through law predicates exactly what it assumes of them:

- `Lawful`: 3 < PI < 4, square roots are non-negative, sqrt 0 = 0, cos 0 = 1,
  sin 0 = 0, and atan2(0, 0) = 0 as section 21.3.2.8 of ECMA-262 defines it.
- `SqrtLaw`: the square of a root is its argument.
- `PeriodicLaw`: sin and cos have period 2·PI.
- `Atan2Law`: the polar identity of atan2.
- `AcosLaw`: cos(acos c) = c and sin(acos c) = sqrt(1 − c²) on [−1, 1].
- `PythagoreanLaw`: sin² + cos² = 1.

JavaScript's `%` is the truncated remainder of section 6.1.6.1.6 of ECMA-262, whose
result takes the sign of the dividend. It is written out as `JsMath.Rem`.

The three division hazards of the code are preconditions:

- the perspective divide by `distance + z2`;
- the sampler's division by `segments`;
- the 2D canvas's division by `scale` in `Canvas2D.FromCanvas` and
  `Canvas2D.MouseMove`. The zoom buttons keep the scale in [10, 120]
  (`Canvas2D.ZoomStaysInRange`), so it is never 0 there.

A press on a point whose projection is undefined is modelled as a miss. In
JavaScript the distance there is an infinity or NaN, and `< 15` is false for both.

The sampling loops and the edge loops are methods with loops. Their contracts give each
array slot's contents by index, the layout the drawing code relies on. The drawing loops
of the 3D canvas are modelled as the lists of index pairs they connect. The wrappers
`Canvas3D.CylinderOverlay` and `Canvas3D.SphereOverlay` feed them the sampler's output
for the point, exactly as the canvas does.

The angle domain '-180-180' is [−PI, PI], closed at both ends. The code shifts only
values strictly below −PI, so −PI itself is kept (`Coordinates.SignedDomainKeepsBothEnds`).
A half-open reading (−PI, PI] of that domain does not match the code, and the model
follows the code.

The 3D canvas's size buttons and slider (src/components/Canvas3D.tsx lines 456, 469 and
475) are the same arithmetic as the 2D canvas's. They are modelled once, by
`Canvas2D.SizeDown`, `Canvas2D.SizeUp` and `Canvas2D.SnapSize`.

## Model

| member | source | states |
|---|---|---|
| JsMath.Rem | src/utils/coordinates.ts:7 | the truncated remainder by a positive divisor: it takes the dividend's sign, stays below the divisor in size, is the dividend itself when that is already smaller, and differs from it by whole divisors |
| JsMath.Round | src/components/Canvas2D.tsx:250 | `Math.round` returns an integer within half a unit of its argument, halves rounding up |
| JsMath.Max | src/components/Canvas3D.tsx:418 | `Math.max`, as the pitch, distance and size clamps use it: the result is one of the two arguments and at least both |
| JsMath.Min | src/components/Canvas3D.tsx:418 | `Math.min`, as the pitch, distance and size clamps use it: the result is one of the two arguments and at most both |
| JsMath.Abs | src/components/Canvas3D.tsx:114 | `Math.abs`, the cylinder overlay's height: the result is non-negative and is the argument or its negation |
| Geometry.PerspectivePresets | src/types/geometry.ts:50-59 | every preset's distance lies in [5, 30], so it is positive; every preset's pitch lies in [−PI/2, PI/2]; both are the ranges the 3D view's controls keep |
| Geometry.MirroredPresets | src/types/geometry.ts:54-57 | Top and Bottom differ only in the sign of the pitch; Left and Right differ only in the sign of the yaw |
| Coordinates.NormalizeTheta | src/utils/coordinates.ts:5-21 | the result lies in the chosen domain, [0, 2·PI) or [−PI, PI], and differs from the input by whole turns |
| Coordinates.NormalizeFixesExactlyInRange | src/utils/coordinates.ts:5-21 | an angle is returned unchanged if and only if it already lies in the domain |
| Coordinates.NormalizeIdempotent | src/utils/coordinates.ts:5-21 | normalising a normalised angle changes nothing, for either domain |
| Coordinates.ZeroTo360Canonical | src/utils/coordinates.ts:6-11 | in [0, 2·PI) the result is the one angle of the input's direction: any in-domain angle coterminal with the input equals it |
| Coordinates.SignedDomainKeepsBothEnds | src/utils/coordinates.ts:12-19 | −PI and PI are each their own normal form in the signed domain, although they name the same direction |
| Coordinates.CartesianToPolar | src/utils/coordinates.ts:23-28 | the radius is non-negative; the angle lies in the domain and names the direction atan2 gives |
| Coordinates.PolarOfOrigin | src/utils/coordinates.ts:23-28 | the origin has radius 0 and angle 0 |
| Coordinates.PolarToCartesian | src/utils/coordinates.ts:30-35 | radius 0 gives the origin whatever the angle; angle 0 puts the point on the x axis at distance r |
| Coordinates.PolarRoundTrip | src/utils/coordinates.ts:23-35 | converting a point to polar coordinates and back returns the same point, for either domain |
| Coordinates.CartesianToCylindrical | src/utils/coordinates.ts:37-42 | the radius is non-negative, the angle lies in the domain and names the atan2 direction, and the field `y` carries the height z unchanged |
| Coordinates.CylindricalOfAxis | src/utils/coordinates.ts:37-42 | a point on the vertical axis has radius 0 and angle 0, and keeps its height |
| Coordinates.CylindricalToCartesian | src/utils/coordinates.ts:44-50 | the field `y` goes back to z unchanged; radius 0 gives x = y = 0 |
| Coordinates.CylindricalRoundTrip | src/utils/coordinates.ts:37-50 | converting a point to cylindrical coordinates and back returns the same point |
| Coordinates.CylindricalExtendsPolar | src/utils/coordinates.ts:37-42 | the radius and angle of a 3D point are the polar coordinates of its shadow (x, y) |
| Coordinates.CartesianToSpherical | src/utils/coordinates.ts:52-58 | rho is non-negative, theta lies in the domain and names the atan2 direction, and phi is 0 wherever rho is 0 |
| Coordinates.SphericalOfOrigin | src/utils/coordinates.ts:52-58 | the origin maps to rho = theta = phi = 0 |
| Coordinates.SphericalToCartesian | src/utils/coordinates.ts:60-66 | rho 0 gives the origin; phi 0 puts the point on the vertical axis at height rho |
| Coordinates.SphericalSharesAzimuth | src/utils/coordinates.ts:52-58 | the spherical theta of a point equals its cylindrical theta |
| Coordinates.SphericalRoundTrip | src/utils/coordinates.ts:52-66 | converting a point to spherical coordinates and back returns the same point |
| Coordinates.BackFromSpherical | src/utils/coordinates.ts:60-66 | any triple built as the forward conversion builds one, with any angle coterminal with atan2, converts back to the point |
| Projection.Rotate | src/utils/projection.ts:9-24 | the origin stays at the origin; with both angles 0 the scene point (x, y, z) is seen as (x, z, y), with z up and y into the screen |
| Projection.RotationKeepsLength | src/utils/projection.ts:20-24 | the two rotations are rigid: the camera-space point is as far from the origin as the scene point |
| Projection.Project | src/utils/projection.ts:3-32 | under its one precondition, distance + depth ≠ 0, the projection is defined, and the origin lands on the screen centre |
| Projection.OriginProjectsToCentre | src/utils/projection.ts:16-31 | for every camera at a non-zero distance the origin's projection is defined and is (width/2, height/2) |
| Projection.ProjectFrontView | src/utils/projection.ts:16-31 | with both angles 0 and s = d/(d + y), the screen point is (width/2 + x·s·50, height/2 − z·s·50) |
| Projection.ProjectsToCentreExactlyOnAxis | src/utils/projection.ts:26-31 | a point lands on the screen centre if and only if it lies on the camera's line of sight |
| Projection.GenerateCylinderPoints | src/utils/projection.ts:34-52 | exactly 2·(segments+1) points; point 2i is rim sample i at the top and point 2i+1 the same (x, y) at zOffset; radius 0 puts every point on the axis |
| Projection.GenerateSpherePoints | src/utils/projection.ts:54-77 | exactly (segments+1)² points; index i·(segments+1)+j holds latitude step i and longitude step j; one row shares one height; radius 0 gives only the origin |
| Projection.SphereRowLevel | src/utils/projection.ts:60-71 | the samples of one latitude step all have the same z |
| Controls.FromFlags | src/components/Controls.tsx:49-53 | the mode shows exactly the requested views, and falls back to the 2D view when neither is requested |
| Controls.Toggle2D | src/components/Controls.tsx:44-55 | the 2D button never changes whether the 3D view shows; it flips the 2D view when the 3D view shows, and otherwise stays on 2D |
| Controls.Toggle3D | src/components/Controls.tsx:66-76 | from a mode showing 2D the 3D button flips the 3D view and keeps 2D; from 3D alone it falls back to 2D |
| Controls.ToggleTables | src/components/Controls.tsx:44-76 | the 2D button maps both→3d, 3d→both and 2d→2d; the 3D button maps 2d→both, both→2d and 3d→2d |
| Controls.Toggle2DTwice | src/components/Controls.tsx:44-55 | pressing the 2D button twice restores every mode |
| Controls.Toggle3DTwice | src/components/Controls.tsx:66-76 | pressing the 3D button twice restores the mode if and only if it was not 3D alone |
| App.InitialState | src/App.tsx:16-24 | start-up has the 2D point (2, 3) and the 3D point (2, 2, 1), unchained, angles in [0, 2·PI) |
| App.HandlePoint2DChange | src/App.tsx:107-110 | the 2D point becomes the new one; when chained the 3D point takes its x and y and keeps z, otherwise it is untouched |
| App.HandlePoint3DChange | src/App.tsx:112-115 | the 3D point becomes the new one; when chained the 2D point becomes its (x, y), otherwise it is untouched |
| App.HandlePolarChange | src/App.tsx:78-86 | the 2D point becomes the converted coordinates; the 3D point keeps its z either way; when chained it follows in x and y, otherwise it is untouched; chaining and the angle domain stay |
| App.HandleCylindricalChange | src/App.tsx:88-95 | the 3D point becomes the converted coordinates, its z the typed height; when chained the 2D point follows, otherwise it is untouched; chaining and the angle domain stay |
| App.HandleSphericalChange | src/App.tsx:97-104 | the 3D point becomes the converted coordinates; when chained the 2D point follows, otherwise it is untouched; chaining and the angle domain stay |
| App.HandleResetPoint | src/App.tsx:117-121 | both points go to (1, 1[, 1]) whatever the chaining, so they end up synced |
| App.SetChainPoints | src/App.tsx:149 | switching chaining on or off moves neither point |
| App.SetThetaRange | src/App.tsx:161 | choosing the angle domain moves neither point |
| App.ChainedStaysSynced | src/App.tsx:78-121 | once chained and synced, the points stay synced through any sequence of events that does not switch chaining off |
| App.UnchainedViewsIndependent | src/App.tsx:78-115 | with chaining off, edits in one view never move the other view's point |
| App.Derive | src/App.tsx:36-43 | the readouts recomputed after every change have non-negative radii, angles in the chosen domain, and the cylindrical height equal to z |
| App.DisplayedDescribesPoints | src/App.tsx:36-43 | each readout converts back to the point it was derived from |
| App.SyncedReadoutsAgree | src/App.tsx:36-43 | for synced points the polar readout equals the ground part of the cylindrical readout |
| App.PolarEditKept | src/App.tsx:78-86 | after a polar edit the recomputed readout may differ from what was typed but names the same point |
| Canvas2D.ToCanvas | src/components/Canvas2D.tsx:27-30 | the world origin maps to the canvas centre |
| Canvas2D.FromCanvas | src/components/Canvas2D.tsx:32-35 | the canvas centre maps to the world origin |
| Canvas2D.CanvasRoundTrips | src/components/Canvas2D.tsx:27-35 | for a non-zero scale the two maps are inverse in both orders |
| Canvas2D.CanvasFlipsY | src/components/Canvas2D.tsx:27-30 | for a positive scale, higher in the world is higher on screen, a smaller canvas y, and x keeps its order |
| Canvas2D.Grabs | src/components/Canvas2D.tsx:191-198 | a press grabs the point when its pixel distance to the point's canvas position is below 15; a press right on that position always grabs |
| Canvas2D.GrabsIsDisc | src/components/Canvas2D.tsx:193-198 | the grab test is the disc dx² + dy² < 15², and a press right on the point grabs it |
| Canvas2D.MouseDown | src/components/Canvas2D.tsx:186-201 | a press within 15 px starts a drag; any other press changes nothing |
| Canvas2D.MouseMove | src/components/Canvas2D.tsx:203-214 | a move reports a point if and only if a drag is on, and that point is drawn exactly under the mouse; only the dragging branch needs a non-zero scale, since an idle move returns before any division |
| Canvas2D.MouseUp | src/components/Canvas2D.tsx:216-218 | release ends the drag |
| Canvas2D.ZoomOut | src/components/Canvas2D.tsx:268 | the scale drops by 5 but not below 10 |
| Canvas2D.ZoomIn | src/components/Canvas2D.tsx:286 | the scale rises by 5 but not above 120 |
| Canvas2D.ZoomStaysInRange | src/components/Canvas2D.tsx:268-286 | both zoom buttons keep a scale in [10, 120] there, and away from the ends each undoes the other |
| Canvas2D.SizeDown | src/components/Canvas2D.tsx:237 | the size drops by 50 but not below 300 |
| Canvas2D.SizeUp | src/components/Canvas2D.tsx:256 | the size rises by 50 but not above 1200 |
| Canvas2D.SizeStaysInRange | src/components/Canvas2D.tsx:237-256 | both size buttons keep a size in [300, 1200] there, and away from the ends each undoes the other |
| Canvas2D.SnapSize | src/components/Canvas2D.tsx:249-251 | the snapped size is a multiple of 50 within 25 of the slider value |
| Canvas2D.SnapSizeProperties | src/components/Canvas2D.tsx:249-251 | snapping keeps multiples of 50 as they are, and keeps a value in [300, 1200] inside that range |
| Canvas3D.ApplyPreset | src/components/Canvas3D.tsx:45-52 | the camera the preset effect sets lies in the camera's resting range; Free gives the start-up camera, Front looks straight ahead |
| Canvas3D.ChoosePreset | src/components/Canvas3D.tsx:45-52 | choosing a different preset replaces the whole camera, distance included, by the preset's; choosing the preset already in force changes nothing, because the effect runs only when the preset changes |
| Canvas3D.ChoosePresetIdempotent | src/components/Canvas3D.tsx:45-52 | choosing a preset twice is choosing it once, and a choice leaves either the old camera or the preset's |
| Canvas3D.ApplyCamera | src/components/Canvas3D.tsx:45-52 | wheel turns, orbits, the distance buttons and the parent's distance never change the preset in force |
| Canvas3D.ReselectKeepsGestures | src/components/Canvas3D.tsx:45-52 | after any gesture, choosing the preset in force again keeps the camera the gesture left |
| Canvas3D.InitialCameraOk | src/components/Canvas3D.tsx:37-52 | the start-up camera lies in the resting range, and the preset effect's first run, with the start-up preset Free, leaves it unchanged |
| Canvas3D.Wheel | src/components/Canvas3D.tsx:430-438 | the wheel keeps the distance in [5, 30], moves it by deltaY/100 where that fits, and leaves the angles alone |
| Canvas3D.WheelMonotone | src/components/Canvas3D.tsx:433 | scrolling further never moves the camera the other way |
| Canvas3D.DistanceDown | src/components/Canvas3D.tsx:488 | the distance drops by 1 but not below 5; the angles stay |
| Canvas3D.DistanceUp | src/components/Canvas3D.tsx:511 | the distance rises by 1 but not above 30; the angles stay |
| Canvas3D.DistanceButtonsInverse | src/components/Canvas3D.tsx:486-514 | within [5, 30] and away from the ends the two buttons undo each other |
| Canvas3D.SetDistance | src/components/Canvas3D.tsx:366-370 | the parent's distance is taken as given, unclamped, and a missing one leaves the camera alone |
| Canvas3D.Orbit | src/components/Canvas3D.tsx:411-419 | the pitch moves by −dy/100 where that stays within [−PI/2, PI/2], and otherwise stops at the limit it would pass; the yaw moves by dx/100 without a clamp; the distance stays |
| Canvas3D.CameraStaysOk | src/components/Canvas3D.tsx:430-514 | through any sequence of presets, wheel turns, orbits, button presses and in-range distances, the camera stays in its resting range |
| Canvas3D.Grabs | src/components/Canvas3D.tsx:373-392 | no press grabs a point whose projection is undefined |
| Canvas3D.GrabsIsDisc | src/components/Canvas3D.tsx:381-386 | the grab test is the disc of radius 15 around the projection, which a press on the projection always hits |
| Canvas3D.DragTarget | src/components/Canvas3D.tsx:402-410 | a drag keeps y, and a drag to the centre puts x and z at 0 |
| Canvas3D.DragFollowsMouseFromFront | src/components/Canvas3D.tsx:402-410 | seen from the front, a dragged point with y = 0 is projected exactly under the mouse |
| Canvas3D.MouseDown | src/components/Canvas3D.tsx:373-392 | a press on the point starts a drag; any other press starts a rotation from the press position |
| Canvas3D.MouseMove | src/components/Canvas3D.tsx:394-423 | a move reports the drag target if and only if a drag is on; while rotating in the free view it orbits the camera by the travel since the last position and records the new position; otherwise camera and gestures stay as they were; the distance never changes and the camera stays in its resting range |
| Canvas3D.MouseUp | src/components/Canvas3D.tsx:425-428 | release ends both gestures |
| Canvas3D.OrbitTravelAdds | src/components/Canvas3D.tsx:411-421 | away from the pitch limits, two moves of one rotation turn the camera as far as one move to the second position |
| Canvas3D.OverlayMeasures | src/components/Canvas3D.tsx:112-118 | the overlay's radii and height are non-negative, the height is ±z, and theta lies in [0, 2·PI) and names the point's direction |
| Canvas3D.OverlayAgreesWithReadouts | src/components/Canvas3D.tsx:112-118 | the overlay shows the readouts' radii and phi; its theta is the '0-360' readout's, and for any other domain it differs from the readout only by whole turns |
| Canvas3D.CylinderBand | src/components/Canvas3D.tsx:122-123 | the overlay starts at min(z, 0) with a non-negative height and ends at max(z, 0), so it spans both the ground and the point |
| Canvas3D.CylinderEdges | src/components/Canvas3D.tsx:128-147 | the loop makes one rung per even index while two points remain ahead, each rung joining i–i+2, i+1–i+3 and i–i+1; for an even count every index is in bounds |
| Canvas3D.CylinderOverlay | src/components/Canvas3D.tsx:121-147 | the 66-point overlay has 32 rungs; top edges run at max(z, 0), bottom edges at min(z, 0), and side edges stand vertical |
| Canvas3D.GridEdgeStride | src/components/Canvas3D.tsx:159-179 | ring edges join neighbouring indices and meridian edges indices a row apart |
| Canvas3D.GridStep | src/components/Canvas3D.tsx:158-170 | one inner loop draws only edges whose both ends are in bounds, and on a full grid it draws every edge in order |
| Canvas3D.SphereEdges | src/components/Canvas3D.tsx:157-187 | every edge drawn is in bounds and spans one stride; on a full grid the guards never skip, giving (n+1)·n edges in loop order |
| Canvas3D.SphereOverlay | src/components/Canvas3D.tsx:151-188 | for the 17×17 sphere every guard passes: ring edges join two samples of one latitude and meridian edges join a sample to the next latitude's sample of the same longitude |

## Left out

- Drawing, DOM events, `devicePixelRatio`, React state and effect plumbing. The handlers are modelled as functions from the old state to the new; drawing loops are modelled only through the index pairs they connect.
- The localStorage load and save of axis names and the chaining flag (src/App.tsx:45-76): this is browser storage I/O.
- The Electron main process and the build configuration: these are I/O and tooling with no logic.
- The presentation components: the coordinate display, the input fields, the axis-name and angle-domain settings, and the formula card. The formula card's printed formulas put y vertical, which contradicts the converters; the model follows the converters.
- Floating-point rounding, NaN and Infinity: all numbers are exact reals. The one place an infinity decides behaviour, a press on an unprojectable point, is modelled as the miss it produces.
- The transcendental functions are parameters constrained by laws, not computed. `JsMath.Exact` bundles the laws the round trips need. `PythagoreanLaw` is kept apart and needed only for `Projection.RotationKeepsLength`.
- JsMath.Rem: only a positive divisor is modelled; the code only ever divides by 2·PI.
- Coordinates.CartesianToSpherical: phi is not shown to lie in [0, PI], because that needs the range of `acos`, which no law states.
- Canvas3D.SetDistance: the distance slider's `parseInt` is not modelled separately. The slider's range limits its value to whole numbers in [5, 30], and it is covered by the in-range distances of `Canvas3D.CameraStaysOk`.
- Canvas3D.CameraStaysOk: the distance the parent passes in is assumed to lie in [5, 30]. This holds because the parent holds only its initial 10 and the distances this canvas reported, but the parent is not modelled across components.
- Canvas3D.DragTarget: the drag ignores the camera. Only the front view (`Canvas3D.DragFollowsMouseFromFront`) is shown to keep the point under the mouse, since from other cameras the point does not follow the mouse.
- Canvas3D.CylinderEdges: an odd point count, which the sampler never produces, would index one past the end; the contract states bounds for even counts only.
- The view mode, shape preset, perspective preset, 2D scale, canvas size and camera distance held by the application are plain setter state. They are modelled where they are used (`Controls`, `Canvas2D`, `Canvas3D`), not as fields of `App.AppState`.
