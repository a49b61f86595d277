/** The 3D canvas: its camera and the gestures that move it, the drag of
    the point, the measures behind the cylinder and sphere overlays, and
    the index arithmetic that turns the sampled overlay points into the
    wireframe's edges. */
module Canvas3D {
  import opened JsMath
  import opened Geometry
  import opened Coordinates
  import opened Projection
  import Canvas2D

  const MinDistance: real := 5.0
  const MaxDistance: real := 30.0

  /** The camera on start-up, before any preset is applied. */
  const InitialCamera: Camera3D := Camera3D(0.5, 0.8, 10.0)

  /** The camera's resting range: pitch within a quarter turn either way,
      distance within the limits of the distance controls. */
  ghost predicate CameraOk(m: Math, c: Camera3D) {
    && -m.pi / 2.0 <= c.angleX <= m.pi / 2.0
    && MinDistance <= c.distance <= MaxDistance
  }

  /** The camera the preset effect sets: the preset's angles and its
      distance. The effect runs on start-up and whenever the chosen preset
      changes; `ChoosePreset` says when. */
  function ApplyPreset(m: Math, p: PerspectivePreset): (r: Camera3D)
    ensures Lawful(m) ==> CameraOk(m, r)
    ensures p == Free ==> r == InitialCamera
    ensures p == Front ==> r.angleX == 0.0 && r.angleY == 0.0
  {
    PerspectivePresets(m, p).camera
  }

  /** The mouse wheel moves the camera by a hundredth of the wheel delta,
      clamped to [5, 30]; the angles stay. */
  function Wheel(c: Camera3D, deltaY: real): (r: Camera3D)
    ensures MinDistance <= r.distance <= MaxDistance
    ensures r.angleX == c.angleX && r.angleY == c.angleY
    ensures MinDistance <= c.distance + deltaY * 0.01 <= MaxDistance ==> r.distance == c.distance + deltaY * 0.01
  {
    c.(distance := Max(MinDistance, Min(MaxDistance, c.distance + deltaY * 0.01)))
  }

  /** Scrolling further in one direction never moves the camera the other
      way. */
  lemma WheelMonotone(c: Camera3D, deltaY: real, deltaY': real)
    requires deltaY <= deltaY'
    ensures Wheel(c, deltaY).distance <= Wheel(c, deltaY').distance
  {
  }

  /** The '-' distance button: one unit closer, not below 5. */
  function DistanceDown(c: Camera3D): (r: Camera3D)
    ensures MinDistance <= r.distance && c.distance - 1.0 <= r.distance
    ensures r.distance == MinDistance || r.distance == c.distance - 1.0
    ensures MinDistance <= c.distance - 1.0 ==> r.distance == c.distance - 1.0
    ensures r.angleX == c.angleX && r.angleY == c.angleY
  {
    c.(distance := Max(MinDistance, c.distance - 1.0))
  }

  /** The '+' distance button: one unit further, not above 30. */
  function DistanceUp(c: Camera3D): (r: Camera3D)
    ensures r.distance <= MaxDistance && r.distance <= c.distance + 1.0
    ensures r.distance == MaxDistance || r.distance == c.distance + 1.0
    ensures c.distance + 1.0 <= MaxDistance ==> r.distance == c.distance + 1.0
    ensures r.angleX == c.angleX && r.angleY == c.angleY
  {
    c.(distance := Min(MaxDistance, c.distance + 1.0))
  }

  /** Away from the limits the two buttons undo each other. */
  lemma DistanceButtonsInverse(c: Camera3D)
    ensures MinDistance + 1.0 <= c.distance <= MaxDistance ==> DistanceUp(DistanceDown(c)) == c
    ensures MinDistance <= c.distance <= MaxDistance - 1.0 ==> DistanceDown(DistanceUp(c)) == c
  {
  }

  /** The distance slider and the parent's distance both set the distance
      as given, without a clamp; a parent that passes no number leaves the
      camera alone. */
  function SetDistance(c: Camera3D, d: Option<real>): (r: Camera3D)
    ensures r.angleX == c.angleX && r.angleY == c.angleY
    ensures d.None? ==> r == c
    ensures d.Some? ==> r.distance == d.value
  {
    match d
    case None => c
    case Some(v) => c.(distance := v)
  }

  /** Dragging the empty canvas by (dx, dy) pixels yaws the camera by a
      hundredth of dx and pitches it against dy, the pitch clamped to a
      quarter turn either way. */
  function Orbit(m: Math, c: Camera3D, dx: real, dy: real): (r: Camera3D)
    ensures -m.pi / 2.0 <= r.angleX
    ensures 0.0 < m.pi ==> r.angleX <= m.pi / 2.0
    ensures r.angleY == c.angleY + dx * 0.01 && r.distance == c.distance
    ensures -m.pi / 2.0 <= c.angleX - dy * 0.01 <= m.pi / 2.0 ==> r.angleX == c.angleX - dy * 0.01
    ensures c.angleX - dy * 0.01 < -m.pi / 2.0 ==> r.angleX == -m.pi / 2.0
    ensures 0.0 < m.pi && m.pi / 2.0 < c.angleX - dy * 0.01 ==> r.angleX == m.pi / 2.0
  {
    c.(angleY := c.angleY + dx * 0.01,
       angleX := Max(-m.pi / 2.0, Min(m.pi / 2.0, c.angleX - dy * 0.01)))
  }

  /** The camera together with the perspective preset it was last set
      from. The preset is the parent's state; the canvas reacts only when
      it changes. */
  datatype Viewer = Viewer(camera: Camera3D, preset: PerspectivePreset)

  /** The viewer on start-up: the preset is Free, whose camera is the
      start-up camera, so the effect's first run leaves it as it is. */
  const InitialViewer: Viewer := Viewer(InitialCamera, Free)

  /** Choosing a preset in the controls. A different preset replaces the
      whole camera, distance included, by the preset's; choosing the
      current preset again changes no state, so the effect does not run
      and the camera keeps any orbit, zoom or distance change since. */
  function ChoosePreset(m: Math, v: Viewer, p: PerspectivePreset): (r: Viewer)
    ensures r.preset == p
    ensures p == v.preset ==> r == v
    ensures p != v.preset ==> r.camera == PerspectivePresets(m, p).camera
  {
    if p == v.preset then v else Viewer(ApplyPreset(m, p), p)
  }

  /** Choosing the same preset twice is choosing it once, and after a
      choice the camera is the preset's unless the preset was already the
      current one. */
  lemma ChoosePresetIdempotent(m: Math, v: Viewer, p: PerspectivePreset)
    ensures ChoosePreset(m, ChoosePreset(m, v, p), p) == ChoosePreset(m, v, p)
    ensures ChoosePreset(m, v, p).camera == v.camera || ChoosePreset(m, v, p).camera == ApplyPreset(m, p)
  {
  }

  /** Everything that sets the camera. */
  datatype CameraEvent =
    | PresetChosen(preset: PerspectivePreset)
    | WheelTurned(deltaY: real)
    | Orbited(dx: real, dy: real)
    | CloserPressed
    | FurtherPressed
    | DistanceGiven(distance: Option<real>)

  /** One camera event; only a preset choice touches the preset. */
  function ApplyCamera(m: Math, v: Viewer, e: CameraEvent): (r: Viewer)
    ensures !e.PresetChosen? ==> r.preset == v.preset
  {
    var c := v.camera;
    match e
    case PresetChosen(p) => ChoosePreset(m, v, p)
    case WheelTurned(d) => v.(camera := Wheel(c, d))
    case Orbited(dx, dy) => v.(camera := Orbit(m, c, dx, dy))
    case CloserPressed => v.(camera := DistanceDown(c))
    case FurtherPressed => v.(camera := DistanceUp(c))
    case DistanceGiven(d) => v.(camera := SetDistance(c, d))
  }

  /** Re-choosing the preset in force keeps whatever the gestures did to
      the camera since it was chosen. */
  lemma ReselectKeepsGestures(m: Math, v: Viewer, e: CameraEvent)
    requires !e.PresetChosen?
    ensures ApplyCamera(m, ApplyCamera(m, v, e), PresetChosen(v.preset)) == ApplyCamera(m, v, e)
  {
  }

  /** The values the unclamped setters can receive: the slider's range is
      [5, 30], and the parent only holds distances this canvas reported. */
  predicate InReach(e: CameraEvent) {
    e.DistanceGiven? && e.distance.Some? ==> MinDistance <= e.distance.value <= MaxDistance
  }

  /** From the start-up camera, every sequence of camera events keeps the
      pitch within a quarter turn and the distance within [5, 30]. */
  lemma {:induction false} CameraStaysOk(m: Math, v: Viewer, events: seq<CameraEvent>)
    requires Lawful(m) && CameraOk(m, v.camera)
    requires forall k :: 0 <= k < |events| ==> InReach(events[k])
    ensures CameraOk(m, ApplyCameraAll(m, v, events).camera)
    decreases |events|
  {
    if |events| > 0 {
      assert InReach(events[0]);
      CameraStaysOk(m, ApplyCamera(m, v, events[0]), events[1..]);
    }
  }

  function ApplyCameraAll(m: Math, v: Viewer, events: seq<CameraEvent>): Viewer
    decreases |events|
  {
    if |events| == 0 then v else ApplyCameraAll(m, ApplyCamera(m, v, events[0]), events[1..])
  }

  lemma InitialCameraOk(m: Math)
    requires Lawful(m)
    ensures CameraOk(m, InitialCamera)
    ensures ApplyPreset(m, InitialViewer.preset) == InitialViewer.camera
  {
  }

  /** Whether a press at `mouse` grabs the projected point. A point at depth
      -distance has no projection (the divide yields an infinity or NaN),
      and no press grabs it. */
  function Grabs(m: Math, mouse: Point2D, point: Point3D, c: Camera3D, width: real, height: real): (hit: bool)
    ensures c.distance + Rotate(m, point, c).z2 == 0.0 ==> !hit
  {
    if c.distance + Rotate(m, point, c).z2 == 0.0 then false
    else
      var q := Project(m, point, c, width, height);
      m.sqrt(SumSquares(mouse.x - q.x, mouse.y - q.y)) < Canvas2D.GrabRadius
  }

  /** With an exact square root the test is the disc of radius 15 around
      the projection, which a press on the projection itself always hits. */
  lemma GrabsIsDisc(m: Math, mouse: Point2D, point: Point3D, c: Camera3D, width: real, height: real)
    requires Lawful(m) && SqrtLaw(m)
    requires c.distance + Rotate(m, point, c).z2 != 0.0
    ensures var q := Project(m, point, c, width, height);
      Grabs(m, mouse, point, c, width, height)
        == (SumSquares(mouse.x - q.x, mouse.y - q.y) < Sq(Canvas2D.GrabRadius))
    ensures Grabs(m, Project(m, point, c, width, height), point, c, width, height)
  {
    var q := Project(m, point, c, width, height);
    var v := SumSquares(mouse.x - q.x, mouse.y - q.y);
    Canvas2D.RootBelow(m.sqrt(v), v, Canvas2D.GrabRadius);
    SumSquaresZero(0.0, 0.0);
  }

  /** Where a drag puts the point: the mouse offset from the centre, at 50
      pixels per unit, becomes x and z; y is kept. The camera is not
      consulted. */
  function DragTarget(mouse: Point2D, point: Point3D, width: real, height: real): (r: Point3D)
    ensures r.y == point.y
    ensures mouse == Point2D(width / 2.0, height / 2.0) ==> r.x == 0.0 && r.z == 0.0
  {
    Point3D((mouse.x - width / 2.0) / PixelsPerUnit, point.y, -(mouse.y - height / 2.0) / PixelsPerUnit)
  }

  /** Seen from the front, a point on the screen plane (y = 0) follows the
      mouse exactly: it is projected back under the cursor. */
  lemma DragFollowsMouseFromFront(m: Math, mouse: Point2D, point: Point3D, d: real, width: real, height: real)
    requires Lawful(m) && point.y == 0.0 && d != 0.0
    ensures Project(m, DragTarget(mouse, point, width, height), Camera3D(0.0, 0.0, d), width, height) == mouse
  {
    var t := DragTarget(mouse, point, width, height);
    ProjectFrontView(m, t, d, width, height);
    assert d / (d + t.y) == 1.0;
  }

  /** The 3D canvas's gesture flags as the component keeps them: dragging
      the point, rotating the view, and the last mouse position. */
  datatype Gestures = Gestures(dragging: bool, rotating: bool, last: Point2D)

  /** A press on the point starts a drag; anywhere else it starts a
      rotation from the press position. */
  function MouseDown(m: Math, s: Gestures, mouse: Point2D, point: Point3D, c: Camera3D, width: real, height: real): (r: Gestures)
    ensures Grabs(m, mouse, point, c, width, height) ==> r == s.(dragging := true)
    ensures !Grabs(m, mouse, point, c, width, height) ==> r == s.(rotating := true, last := mouse)
  {
    if Grabs(m, mouse, point, c, width, height) then s.(dragging := true)
    else s.(rotating := true, last := mouse)
  }

  /** What a mouse move does: a new point, a new camera, or nothing. */
  datatype Move = Move(gestures: Gestures, camera: Camera3D, point: Option<Point3D>)

  /** A drag moves the point; otherwise a rotation in the free view orbits
      the camera by the mouse's travel since the last position. */
  function MouseMove(m: Math, s: Gestures, c: Camera3D, preset: PerspectivePreset,
                     mouse: Point2D, point: Point3D, width: real, height: real): (r: Move)
    ensures r.point.Some? <==> s.dragging
    ensures r.point.Some? ==> r.point.value == DragTarget(mouse, point, width, height)
    ensures r.camera != c ==> !s.dragging && s.rotating && preset == Free
    ensures r.camera.distance == c.distance
    ensures CameraOk(m, c) ==> CameraOk(m, r.camera)
    ensures r.gestures.dragging == s.dragging && r.gestures.rotating == s.rotating
    ensures !s.dragging && s.rotating && preset == Free ==>
      r.camera == Orbit(m, c, mouse.x - s.last.x, mouse.y - s.last.y) && r.gestures == s.(last := mouse)
    ensures !s.dragging && !(s.rotating && preset == Free) ==> r.camera == c && r.gestures == s
  {
    if s.dragging then
      Move(s, c, Some(DragTarget(mouse, point, width, height)))
    else if s.rotating && preset == Free then
      var r := Orbit(m, c, mouse.x - s.last.x, mouse.y - s.last.y);
      Move(s.(last := mouse), r, None)
    else
      Move(s, c, None)
  }

  /** Release, or leaving the canvas, ends both gestures. */
  function MouseUp(s: Gestures): (r: Gestures)
    ensures !r.dragging && !r.rotating && r.last == s.last
  {
    s.(dragging := false, rotating := false)
  }

  /** Two moves of one rotation orbit the camera as far as a single move
      to the second position would, as long as the pitch does not reach
      its limit. */
  lemma OrbitTravelAdds(m: Math, s: Gestures, c: Camera3D, a: Point2D, b: Point2D, point: Point3D, width: real, height: real)
    requires !s.dragging && s.rotating
    requires var pitch := c.angleX - (a.y - s.last.y) * 0.01;
      -m.pi / 2.0 <= pitch <= m.pi / 2.0
      && -m.pi / 2.0 <= pitch - (b.y - a.y) * 0.01 <= m.pi / 2.0
    requires -m.pi / 2.0 <= c.angleX - (b.y - s.last.y) * 0.01 <= m.pi / 2.0
    ensures var first := MouseMove(m, s, c, Free, a, point, width, height);
      MouseMove(m, first.gestures, first.camera, Free, b, point, width, height).camera
        == MouseMove(m, s, c, Free, b, point, width, height).camera
  {
  }

  /** The numbers behind the overlays, each computed afresh from the
      point: the cylinder's radius and height, the sphere's radius, and
      the angles, theta always in [0, 2*PI). */
  datatype Measures = Measures(cylinderRadius: real, cylinderHeight: real, sphereRadius: real, theta: real, phi: real)

  /** The sphere overlay's radius: the point's distance from the origin. */
  function SphereRadius(m: Math, p: Point3D): real {
    m.sqrt(SumSquares(p.x, p.y) + Sq(p.z))
  }

  function OverlayMeasures(m: Math, p: Point3D): (r: Measures)
    requires Lawful(m)
    ensures 0.0 <= r.cylinderRadius && 0.0 <= r.cylinderHeight && 0.0 <= r.sphereRadius
    ensures 0.0 <= r.theta < Tau(m) && Coterminal(r.theta, m.atan2(p.y, p.x), m)
    ensures r.cylinderHeight == p.z || r.cylinderHeight == -p.z
  {
    var sphereRadius := SphereRadius(m, p);
    Measures(
      m.sqrt(SumSquares(p.x, p.y)),
      Abs(p.z),
      sphereRadius,
      NormalizeTheta(m, m.atan2(p.y, p.x), ZeroTo360),
      if sphereRadius > 0.0 then m.acos(p.z / sphereRadius) else 0.0)
  }

  /** The overlays draw the same radii and angles the readouts show for
      the domain [0, 2*PI), whatever domain the readouts use: there only
      theta may differ, and then by whole turns. */
  lemma OverlayAgreesWithReadouts(m: Math, p: Point3D, range: ThetaRange)
    requires Lawful(m)
    ensures var o := OverlayMeasures(m, p);
      var s := CartesianToSpherical(m, p, ZeroTo360);
      o.cylinderRadius == CartesianToCylindrical(m, p, range).r
      && o.sphereRadius == s.rho && o.theta == s.theta && o.phi == s.phi
      && o.cylinderHeight == Abs(CartesianToCylindrical(m, p, range).y)
      && Coterminal(o.theta, CartesianToSpherical(m, p, range).theta, m)
  {
    var o := OverlayMeasures(m, p);
    var s := CartesianToSpherical(m, p, ZeroTo360);
    assert o.sphereRadius == s.rho && o.theta == s.theta;
    var t := CartesianToSpherical(m, p, range).theta;
    CongruentSymmetric(t, m.atan2(p.y, p.x), Tau(m));
    CongruentTransitive(o.theta, m.atan2(p.y, p.x), t, Tau(m));
  }

  /** The cylinder overlay's vertical extent: from the lower of 0 and z up
      to the higher, so that it always spans the ground and the point. */
  datatype Band = Band(zStart: real, height: real)

  function CylinderBand(z: real): (b: Band)
    ensures 0.0 <= b.height
    ensures b.zStart == Min(z, 0.0) && b.zStart + b.height == Max(z, 0.0)
  {
    if z >= 0.0 then Band(0.0, z) else Band(z, -z)
  }

  /** An edge of the wireframe, by the indices of its two points. */
  datatype Edge = Edge(from: int, to: int)

  /** Whether both ends of an edge index into an array of `count` points. */
  predicate Drawn(e: Edge, count: int) {
    0 <= e.from < count && 0 <= e.to < count
  }

  /** The three edges drawn at cylinder sample i: along the top rim, along
      the bottom rim, and the side line between the pair. */
  datatype Rung = Rung(top: Edge, bottom: Edge, side: Edge)

  function RungAt(i: int): Rung {
    Rung(Edge(i, i + 2), Edge(i + 1, i + 3), Edge(i, i + 1))
  }

  /** The edge loop over the cylinder's `count` points, stepping two at a
      time while two points remain ahead. For an even count, which is all
      the sampler produces, every edge stays within the array. */
  method CylinderEdges(count: nat) returns (rungs: seq<Rung>)
    ensures |rungs| == if count < 2 then 0 else (count - 1) / 2
    ensures forall t :: 0 <= t < |rungs| ==> rungs[t] == RungAt(2 * t)
    ensures count % 2 == 0 ==> forall t :: 0 <= t < |rungs| ==>
      Drawn(rungs[t].top, count) && Drawn(rungs[t].bottom, count) && Drawn(rungs[t].side, count)
  {
    rungs := [];
    var i := 0;
    while i < count - 2
      invariant i == 2 * |rungs|
      invariant i == 0 || i <= count - 1
      invariant forall t :: 0 <= t < |rungs| ==> rungs[t] == RungAt(2 * t)
      invariant count % 2 == 0 ==> forall t :: 0 <= t < |rungs| ==>
        Drawn(rungs[t].top, count) && Drawn(rungs[t].bottom, count) && Drawn(rungs[t].side, count)
    {
      assert count % 2 == 0 ==> i + 3 < count;
      rungs := rungs + [RungAt(i)];
      i := i + 2;
    }
  }

  /** Segments of the cylinder overlay. */
  const CylinderSegments: nat := 32

  /** The cylinder overlay for a point: 32 rungs whose top edges run along
      the rim at the band's top, whose bottom edges run along the rim at
      its bottom, and whose side edges stand vertical. */
  method CylinderOverlay(m: Math, p: Point3D) returns (pts: seq<Point3D>, rungs: seq<Rung>)
    ensures |pts| == 2 * (CylinderSegments + 1) && |rungs| == CylinderSegments
    ensures forall t :: 0 <= t < |rungs| ==>
      && Drawn(rungs[t].top, |pts|) && Drawn(rungs[t].bottom, |pts|) && Drawn(rungs[t].side, |pts|)
      && pts[rungs[t].top.from].z == Max(p.z, 0.0) && pts[rungs[t].top.to].z == Max(p.z, 0.0)
      && pts[rungs[t].bottom.from].z == Min(p.z, 0.0) && pts[rungs[t].bottom.to].z == Min(p.z, 0.0)
      && pts[rungs[t].side.from].x == pts[rungs[t].side.to].x
      && pts[rungs[t].side.from].y == pts[rungs[t].side.to].y
  {
    var band := CylinderBand(p.z);
    pts := GenerateCylinderPoints(m, m.sqrt(SumSquares(p.x, p.y)), band.height, CylinderSegments, band.zStart);
    rungs := CylinderEdges(|pts|);
    RungsOnRims(pts, rungs, Max(p.z, 0.0), Min(p.z, 0.0));
  }

  /** Over points laid out as top and bottom of each rim angle side by
      side, every rung runs its top edge along the top rim, its bottom edge
      along the bottom rim, and its side edge vertically. */
  lemma RungsOnRims(pts: seq<Point3D>, rungs: seq<Rung>, top: real, bottom: real)
    requires |pts| % 2 == 0
    requires forall k :: 0 <= k < |pts| && k % 2 == 0 ==>
      pts[k].x == pts[k + 1].x && pts[k].y == pts[k + 1].y
      && pts[k].z == top && pts[k + 1].z == bottom
    requires forall t :: 0 <= t < |rungs| ==> rungs[t] == RungAt(2 * t)
    requires forall t :: 0 <= t < |rungs| ==>
      Drawn(rungs[t].top, |pts|) && Drawn(rungs[t].bottom, |pts|) && Drawn(rungs[t].side, |pts|)
    ensures forall t :: 0 <= t < |rungs| ==>
      && Drawn(rungs[t].top, |pts|) && Drawn(rungs[t].bottom, |pts|) && Drawn(rungs[t].side, |pts|)
      && pts[rungs[t].top.from].z == top && pts[rungs[t].top.to].z == top
      && pts[rungs[t].bottom.from].z == bottom && pts[rungs[t].bottom.to].z == bottom
      && pts[rungs[t].side.from].x == pts[rungs[t].side.to].x
      && pts[rungs[t].side.from].y == pts[rungs[t].side.to].y
  {
    forall t | 0 <= t < |rungs|
      ensures 2 * t + 3 < |pts|
      ensures pts[2 * t].z == top && pts[2 * t + 2].z == top
      ensures pts[2 * t + 1].z == bottom && pts[2 * t + 3].z == bottom
      ensures pts[2 * t].x == pts[2 * t + 1].x && pts[2 * t].y == pts[2 * t + 1].y
    {
      assert rungs[t] == RungAt(2 * t) && Drawn(rungs[t].bottom, |pts|);
      assert (2 * t) % 2 == 0 && (2 * t + 2) % 2 == 0;
    }
  }

  /** Which way the sphere's edge loops run: along the rings of equal
      latitude, or along the meridians of equal longitude. */
  datatype Direction = AlongRings | AlongMeridians

  /** The edge a sphere loop tries at outer step a and inner step b: within
      ring a from longitude b to b + 1, or within meridian a from latitude
      b to b + 1. */
  function GridEdge(dir: Direction, a: int, b: int, segments: nat): Edge {
    match dir
    case AlongRings => Edge(RowMajor(a, b, segments), RowMajor(a, b + 1, segments))
    case AlongMeridians => Edge(RowMajor(b, a, segments), RowMajor(b + 1, a, segments))
  }

  /** How far apart in the array the two ends of an edge lie. */
  function Stride(dir: Direction, segments: nat): int {
    match dir
    case AlongRings => 1
    case AlongMeridians => segments + 1
  }

  lemma GridEdgeStride(dir: Direction, a: int, b: int, segments: nat)
    ensures GridEdge(dir, a, b, segments).to == GridEdge(dir, a, b, segments).from + Stride(dir, segments)
  {
    assert (b + 1) * (segments + 1) == b * (segments + 1) + (segments + 1);
  }

  /** Position of the edge tried at outer step a, inner step b, when every
      try is drawn: each outer step draws `segments` edges. */
  function Slot(a: int, b: int, segments: nat): (k: int)
    ensures 0 <= a && 0 <= b ==> 0 <= k
    ensures 0 <= a <= segments && 0 <= b < segments ==> k < (segments + 1) * segments
  {
    assert 0 <= a ==> 0 <= a * segments;
    assert a <= segments ==>
      (segments + 1) * segments - a * segments == (segments + 1 - a) * segments
      && segments <= (segments + 1 - a) * segments;
    a * segments + b
  }

  /** A later outer step comes after every edge of an earlier one. */
  lemma SlotsAhead(a: int, b: int, i: int, segments: nat)
    requires a < i && b < segments
    ensures Slot(a, b, segments) < Slot(i, 0, segments)
  {
    var d := i - a - 1;
    assert 0 <= d * segments;
    assert i * segments == a * segments + d * segments + segments;
  }

  /** The first `steps` outer steps of a loop over a full grid, and nothing
      more, are in place. */
  ghost predicate StepsFilled(edges: seq<Edge>, dir: Direction, segments: nat, steps: nat) {
    && |edges| == Slot(steps, 0, segments)
    && forall a, b :: 0 <= a < steps && 0 <= b < segments ==>
      Slot(a, b, segments) < |edges| && edges[Slot(a, b, segments)] == GridEdge(dir, a, b, segments)
  }

  /** Every edge of the list is in bounds and spans the direction's stride. */
  ghost predicate AllDrawn(edges: seq<Edge>, count: nat, dir: Direction, segments: nat) {
    forall k :: 0 <= k < |edges| ==>
      Drawn(edges[k], count) && edges[k].to == edges[k].from + Stride(dir, segments)
  }

  /** The inner loop at outer step a: the edges whose two ends both fall
      within the array, in order of the inner step. */
  method GridStep(count: nat, dir: Direction, segments: nat, a: int) returns (step: seq<Edge>)
    requires 0 <= a
    ensures AllDrawn(step, count, dir, segments)
    ensures count == (segments + 1) * (segments + 1) && a <= segments ==>
      |step| == segments && forall b :: 0 <= b < segments ==> step[b] == GridEdge(dir, a, b, segments)
  {
    step := [];
    var j := 0;
    while j < segments
      invariant 0 <= j <= segments
      invariant AllDrawn(step, count, dir, segments)
      invariant count == (segments + 1) * (segments + 1) && a <= segments ==>
        |step| == j && forall b :: 0 <= b < j ==> step[b] == GridEdge(dir, a, b, segments)
    {
      var e := GridEdge(dir, a, j, segments);
      GridEdgeStride(dir, a, j, segments);
      if e.from < count && e.to < count {
        step := step + [e];
      }
      j := j + 1;
    }
  }

  /** Appending outer step i after the first i steps fills i + 1 steps. */
  lemma AppendStep(edges: seq<Edge>, step: seq<Edge>, dir: Direction, segments: nat, i: nat)
    requires StepsFilled(edges, dir, segments, i)
    requires |step| == segments
    requires forall b :: 0 <= b < segments ==> step[b] == GridEdge(dir, i, b, segments)
    ensures StepsFilled(edges + step, dir, segments, i + 1)
  {
    assert Slot(i + 1, 0, segments) == Slot(i, 0, segments) + segments by {
      assert (i + 1) * segments == i * segments + segments;
    }
    forall a, b | 0 <= a < i + 1 && 0 <= b < segments
      ensures Slot(a, b, segments) < |edges + step|
      ensures (edges + step)[Slot(a, b, segments)] == GridEdge(dir, a, b, segments)
    {
      if a < i {
        SlotsAhead(a, b, i, segments);
      } else {
        assert Slot(a, b, segments) == |edges| + b;
      }
    }
  }

  /** The two nested loops of the sphere overlay in one direction: every
      edge drawn is in bounds and joins neighbours; over a full grid every
      try is drawn, in loop order. */
  method SphereEdges(count: nat, dir: Direction, segments: nat) returns (edges: seq<Edge>)
    ensures AllDrawn(edges, count, dir, segments)
    ensures count == (segments + 1) * (segments + 1) ==>
      |edges| == (segments + 1) * segments
      && forall a, b :: 0 <= a <= segments && 0 <= b < segments ==>
        edges[Slot(a, b, segments)] == GridEdge(dir, a, b, segments)
  {
    edges := [];
    var i := 0;
    while i <= segments
      invariant 0 <= i <= segments + 1
      invariant AllDrawn(edges, count, dir, segments)
      invariant count == (segments + 1) * (segments + 1) ==> StepsFilled(edges, dir, segments, i)
    {
      var step := GridStep(count, dir, segments, i);
      if count == (segments + 1) * (segments + 1) {
        AppendStep(edges, step, dir, segments, i);
      }
      edges := edges + step;
      i := i + 1;
    }
  }

  /** Segments of the sphere overlay. */
  const SphereSegments: nat := 16

  /** The sphere overlay for a point: ring edges join points of one
      latitude, meridian edges join a point to the next latitude's point
      of the same longitude. */
  method SphereOverlay(m: Math, p: Point3D) returns (pts: seq<Point3D>, rings: seq<Edge>, meridians: seq<Edge>)
    ensures |pts| == (SphereSegments + 1) * (SphereSegments + 1)
    ensures AllDrawn(rings, |pts|, AlongRings, SphereSegments)
    ensures AllDrawn(meridians, |pts|, AlongMeridians, SphereSegments)
    ensures |rings| == |meridians| == (SphereSegments + 1) * SphereSegments
    ensures forall i, j :: 0 <= i <= SphereSegments && 0 <= j < SphereSegments ==>
      var e := rings[Slot(i, j, SphereSegments)];
      && pts[e.from] == SphereSample(m, SphereRadius(m, p), SphereSegments, i, j)
      && pts[e.to] == SphereSample(m, SphereRadius(m, p), SphereSegments, i, j + 1)
      && pts[e.from].z == pts[e.to].z
    ensures forall i, j :: 0 <= i < SphereSegments && 0 <= j <= SphereSegments ==>
      var e := meridians[Slot(j, i, SphereSegments)];
      && pts[e.from] == SphereSample(m, SphereRadius(m, p), SphereSegments, i, j)
      && pts[e.to] == SphereSample(m, SphereRadius(m, p), SphereSegments, i + 1, j)
  {
    pts := GenerateSpherePoints(m, SphereRadius(m, p), SphereSegments);
    rings := SphereEdges(|pts|, AlongRings, SphereSegments);
    meridians := SphereEdges(|pts|, AlongMeridians, SphereSegments);
  }
}
