/** The application's point state: the 2D point, the 3D point, whether the
    two are chained, and the angle domain. Every edit handler replaces a
    point; when chaining is on it also carries the shared x and y over to
    the other point. The coordinates shown to the user are derived from
    the points after every change. */
module App {
  import opened JsMath
  import opened Geometry
  import opened Coordinates

  datatype AppState = AppState(point2D: Point2D, point3D: Point3D, chain: bool, thetaRange: ThetaRange)

  /** The state on start-up: (2, 3) in 2D, (2, 2, 1) in 3D, not chained,
      angles in [0, 2*PI). */
  function InitialState(): (s: AppState)
    ensures !s.chain && s.thetaRange == ZeroTo360
    ensures s.point2D == Point2D(2.0, 3.0) && s.point3D == Point3D(2.0, 2.0, 1.0)
  {
    AppState(Point2D(2.0, 3.0), Point3D(2.0, 2.0, 1.0), false, ZeroTo360)
  }

  /** The 3D point stands over the 2D point: they share x and y. */
  predicate Synced(s: AppState) {
    s.point3D.x == s.point2D.x && s.point3D.y == s.point2D.y
  }

  /** A new 2D point, from a drag on the 2D canvas or a polar edit. When
      chained, the 3D point takes its x and y and keeps its own z. */
  function HandlePoint2DChange(s: AppState, p2: Point2D): (r: AppState)
    ensures r.point2D == p2 && r.chain == s.chain && r.thetaRange == s.thetaRange
    ensures r.point3D.z == s.point3D.z
    ensures s.chain ==> Synced(r)
    ensures !s.chain ==> r.point3D == s.point3D
  {
    var point3D := if s.chain then s.point3D.(x := p2.x, y := p2.y) else s.point3D;
    s.(point2D := p2, point3D := point3D)
  }

  /** A new 3D point, from a drag on the 3D canvas or a cylindrical or
      spherical edit. When chained, the 2D point becomes its (x, y). */
  function HandlePoint3DChange(s: AppState, p3: Point3D): (r: AppState)
    ensures r.point3D == p3 && r.chain == s.chain && r.thetaRange == s.thetaRange
    ensures s.chain ==> Synced(r)
    ensures !s.chain ==> r.point2D == s.point2D
  {
    var point2D := if s.chain then Point2D(p3.x, p3.y) else s.point2D;
    s.(point2D := point2D, point3D := p3)
  }

  function HandlePolarChange(m: Math, s: AppState, coords: PolarCoords): (r: AppState)
    ensures r.point2D == PolarToCartesian(m, coords)
    ensures r.chain == s.chain && r.thetaRange == s.thetaRange
    ensures r.point3D.z == s.point3D.z
    ensures s.chain ==> Synced(r)
    ensures !s.chain ==> r.point3D == s.point3D
  {
    HandlePoint2DChange(s, PolarToCartesian(m, coords))
  }

  function HandleCylindricalChange(m: Math, s: AppState, coords: CylindricalCoords): (r: AppState)
    ensures r.point3D == CylindricalToCartesian(m, coords) && r.point3D.z == coords.y
    ensures r.chain == s.chain && r.thetaRange == s.thetaRange
    ensures s.chain ==> Synced(r)
    ensures !s.chain ==> r.point2D == s.point2D
  {
    HandlePoint3DChange(s, CylindricalToCartesian(m, coords))
  }

  function HandleSphericalChange(m: Math, s: AppState, coords: SphericalCoords): (r: AppState)
    ensures r.point3D == SphericalToCartesian(m, coords)
    ensures r.chain == s.chain && r.thetaRange == s.thetaRange
    ensures s.chain ==> Synced(r)
    ensures !s.chain ==> r.point2D == s.point2D
  {
    HandlePoint3DChange(s, SphericalToCartesian(m, coords))
  }

  /** Reset puts both points at (1, 1[, 1]) whether or not they are
      chained, which leaves them synced either way. */
  function HandleResetPoint(s: AppState): (r: AppState)
    ensures r.point2D == Point2D(1.0, 1.0) && r.point3D == Point3D(1.0, 1.0, 1.0)
    ensures Synced(r) && r.chain == s.chain && r.thetaRange == s.thetaRange
  {
    s.(point2D := Point2D(1.0, 1.0), point3D := Point3D(1.0, 1.0, 1.0))
  }

  /** The chain checkbox only flips the flag: it does not pull the points
      together. */
  function SetChainPoints(s: AppState, chain: bool): (r: AppState)
    ensures r.chain == chain && r.point2D == s.point2D && r.point3D == s.point3D
    ensures r.thetaRange == s.thetaRange
  {
    s.(chain := chain)
  }

  function SetThetaRange(s: AppState, range: ThetaRange): (r: AppState)
    ensures r.thetaRange == range && r.point2D == s.point2D && r.point3D == s.point3D
    ensures r.chain == s.chain
  {
    s.(thetaRange := range)
  }

  /** Every state change the user can make. */
  datatype Event =
    | Point2DChange(p2: Point2D)
    | Point3DChange(p3: Point3D)
    | PolarChange(polar: PolarCoords)
    | CylindricalChange(cylindrical: CylindricalCoords)
    | SphericalChange(spherical: SphericalCoords)
    | ResetPoint
    | ChainPointsChange(chain: bool)
    | ThetaRangeChange(range: ThetaRange)

  function Step(m: Math, s: AppState, e: Event): AppState {
    match e
    case Point2DChange(p2) => HandlePoint2DChange(s, p2)
    case Point3DChange(p3) => HandlePoint3DChange(s, p3)
    case PolarChange(c) => HandlePolarChange(m, s, c)
    case CylindricalChange(c) => HandleCylindricalChange(m, s, c)
    case SphericalChange(c) => HandleSphericalChange(m, s, c)
    case ResetPoint => HandleResetPoint(s)
    case ChainPointsChange(b) => SetChainPoints(s, b)
    case ThetaRangeChange(t) => SetThetaRange(s, t)
  }

  /** Applies the events in order. */
  function Run(m: Math, s: AppState, events: seq<Event>): AppState
    decreases |events|
  {
    if |events| == 0 then s else Run(m, Step(m, s, events[0]), events[1..])
  }

  /** Once the points are chained and synced they stay synced, whatever the
      user does, until chaining is switched off. */
  lemma {:induction false} ChainedStaysSynced(m: Math, s: AppState, events: seq<Event>)
    requires s.chain && Synced(s)
    requires forall k :: 0 <= k < |events| ==> events[k] != ChainPointsChange(false)
    ensures Synced(Run(m, s, events))
    decreases |events|
  {
    if |events| > 0 {
      var next := Step(m, s, events[0]);
      assert next.chain;
      ChainedStaysSynced(m, next, events[1..]);
    }
  }

  /** With chaining off, the edits of one view never move the other view's
      point. */
  lemma UnchainedViewsIndependent(m: Math, s: AppState, e: Event)
    requires !s.chain
    ensures e.Point2DChange? || e.PolarChange? ==> Step(m, s, e).point3D == s.point3D
    ensures e.Point3DChange? || e.CylindricalChange? || e.SphericalChange? ==>
      Step(m, s, e).point2D == s.point2D
  {
  }

  /** The coordinates on display. */
  datatype Displayed = Displayed(polar: PolarCoords, cylindrical: CylindricalCoords, spherical: SphericalCoords)

  /** Recomputed from the points and the angle domain after every change:
      polar from the 2D point, cylindrical and spherical from the 3D one. */
  function Derive(m: Math, s: AppState): (d: Displayed)
    requires Lawful(m)
    ensures 0.0 <= d.polar.r && 0.0 <= d.cylindrical.r && 0.0 <= d.spherical.rho
    ensures InRange(d.polar.theta, s.thetaRange, m)
    ensures InRange(d.cylindrical.theta, s.thetaRange, m)
    ensures InRange(d.spherical.theta, s.thetaRange, m)
    ensures d.cylindrical.y == s.point3D.z
  {
    Displayed(
      CartesianToPolar(m, s.point2D, s.thetaRange),
      CartesianToCylindrical(m, s.point3D, s.thetaRange),
      CartesianToSpherical(m, s.point3D, s.thetaRange))
  }

  /** Each displayed triple names its point exactly. */
  lemma DisplayedDescribesPoints(m: Math, s: AppState)
    requires Exact(m)
    ensures PolarToCartesian(m, Derive(m, s).polar) == s.point2D
    ensures CylindricalToCartesian(m, Derive(m, s).cylindrical) == s.point3D
    ensures SphericalToCartesian(m, Derive(m, s).spherical) == s.point3D
  {
    PolarRoundTrip(m, s.point2D, s.thetaRange);
    CylindricalRoundTrip(m, s.point3D, s.thetaRange);
    SphericalRoundTrip(m, s.point3D, s.thetaRange);
  }

  /** When the points are synced, the 2D polar readout and the ground part
      of the 3D cylindrical readout are the same numbers. */
  lemma SyncedReadoutsAgree(m: Math, s: AppState)
    requires Lawful(m) && Synced(s)
    ensures Derive(m, s).polar == PolarCoords(Derive(m, s).cylindrical.r, Derive(m, s).cylindrical.theta)
  {
    CylindricalExtendsPolar(m, s.point3D, s.thetaRange);
    assert Point2D(s.point3D.x, s.point3D.y) == s.point2D;
  }

  /** A polar edit is never lost: the readout recomputed afterwards may
      differ from what was typed (a negative radius, an angle outside the
      domain), but it names the same point. */
  lemma PolarEditKept(m: Math, s: AppState, coords: PolarCoords)
    requires Exact(m)
    ensures PolarToCartesian(m, Derive(m, HandlePolarChange(m, s, coords)).polar)
      == PolarToCartesian(m, coords)
  {
    DisplayedDescribesPoints(m, HandlePolarChange(m, s, coords));
  }
}
