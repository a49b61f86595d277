/** The angle normaliser and the six conversions between Cartesian points
    and polar, cylindrical and spherical coordinates (z vertical). */
module Coordinates {
  import opened JsMath
  import opened Geometry

  /** The user's angle domain: '0-360' is [0, 2*PI), '-180-180' is [-PI, PI]. */
  datatype ThetaRange = ZeroTo360 | Minus180To180

  ghost predicate InRange(t: real, range: ThetaRange, m: Math) {
    match range
    case ZeroTo360 => 0.0 <= t < Tau(m)
    case Minus180To180 => -m.pi <= t <= m.pi
  }

  /** Two angles name the same direction: they differ by whole turns. */
  ghost predicate Coterminal(a: real, b: real, m: Math) {
    Congruent(a, b, Tau(m))
  }

  /** Reduces an angle into the chosen domain by JavaScript's truncating
      remainder and one correcting turn. The result names the same
      direction as the input. In the signed domain only values strictly
      below -PI are shifted, so -PI itself is kept. */
  function NormalizeTheta(m: Math, theta: real, range: ThetaRange): (r: real)
    requires 0.0 < m.pi
    ensures InRange(r, range, m)
    ensures Coterminal(r, theta, m)
  {
    var n := Rem(theta, Tau(m));
    CongruentStep(n, theta, Tau(m));
    match range
    case ZeroTo360 =>
      if n < 0.0 then n + Tau(m) else n
    case Minus180To180 =>
      if n > m.pi then n - Tau(m)
      else if n < -m.pi then n + Tau(m)
      else n
  }

  /** An angle is left alone exactly when it already lies in the domain. */
  lemma NormalizeFixesExactlyInRange(m: Math, theta: real, range: ThetaRange)
    requires 0.0 < m.pi
    ensures NormalizeTheta(m, theta, range) == theta <==> InRange(theta, range, m)
  {
  }

  /** Normalising twice is normalising once. */
  lemma NormalizeIdempotent(m: Math, theta: real, range: ThetaRange)
    requires 0.0 < m.pi
    ensures var r := NormalizeTheta(m, theta, range); NormalizeTheta(m, r, range) == r
  {
    NormalizeFixesExactlyInRange(m, NormalizeTheta(m, theta, range), range);
  }

  /** In [0, 2*PI) there is only one angle per direction, so the '0-360'
      result is THE representative of the input's direction. */
  lemma ZeroTo360Canonical(m: Math, theta: real, a: real)
    requires 0.0 < m.pi
    requires InRange(a, ZeroTo360, m) && Coterminal(a, theta, m)
    ensures NormalizeTheta(m, theta, ZeroTo360) == a
  {
    var r := NormalizeTheta(m, theta, ZeroTo360);
    CongruentSymmetric(a, theta, Tau(m));
    CongruentTransitive(r, theta, a, Tau(m));
    SameTurnWithinOneTurn(r, a, Tau(m));
  }

  /** The '-180-180' domain is closed at both ends: -PI and PI name the same
      direction and each is its own normal form. */
  lemma SignedDomainKeepsBothEnds(m: Math)
    requires 0.0 < m.pi
    ensures NormalizeTheta(m, -m.pi, Minus180To180) == -m.pi
    ensures NormalizeTheta(m, m.pi, Minus180To180) == m.pi
    ensures Coterminal(-m.pi, m.pi, m)
  {
    assert -m.pi == Shift(m.pi, -1, Tau(m));
  }

  /** Two angles in one turn's span that name the same direction are equal. */
  lemma SameTurnWithinOneTurn(a: real, b: real, d: real)
    requires 0.0 < d && 0.0 <= a < d && 0.0 <= b < d && Congruent(a, b, d)
    ensures a == b
  {
    var k :| a == Shift(b, k, d);
    var q: real := k as real;
    assert q * d == a - b;
    WithinOnePeriod(q, d, a - b);
  }


  function CartesianToPolar(m: Math, p: Point2D, range: ThetaRange): (c: PolarCoords)
    requires Lawful(m)
    ensures 0.0 <= c.r
    ensures InRange(c.theta, range, m)
    ensures Coterminal(c.theta, m.atan2(p.y, p.x), m)
  {
    PolarCoords(m.sqrt(SumSquares(p.x, p.y)), NormalizeTheta(m, m.atan2(p.y, p.x), range))
  }

  /** The origin has radius 0 and, since atan2(0, 0) is 0, angle 0. */
  lemma PolarOfOrigin(m: Math, range: ThetaRange)
    requires Lawful(m)
    ensures CartesianToPolar(m, Point2D(0.0, 0.0), range) == PolarCoords(0.0, 0.0)
  {
    SumSquaresZero(0.0, 0.0);
    NormalizeFixesExactlyInRange(m, 0.0, range);
  }

  /** No normalisation on the way back: any angle and any radius is accepted. */
  function PolarToCartesian(m: Math, c: PolarCoords): (p: Point2D)
    ensures c.r == 0.0 ==> p == Point2D(0.0, 0.0)
    ensures Lawful(m) && c.theta == 0.0 ==> p == Point2D(c.r, 0.0)
  {
    Point2D(c.r * m.cos(c.theta), c.r * m.sin(c.theta))
  }

  /** Polar coordinates describe the point exactly: converting there and
      back returns the original point, the origin included. */
  lemma PolarRoundTrip(m: Math, p: Point2D, range: ThetaRange)
    requires Lawful(m) && PeriodicLaw(m) && Atan2Law(m)
    ensures PolarToCartesian(m, CartesianToPolar(m, p, range)) == p
  {
    var c := CartesianToPolar(m, p, range);
    BackAlongDirection(m, p.x, p.y, c.r, c.theta);
  }

  /** Walking the ground radius of (x, y) along any angle that names the
      direction of (x, y) reaches (x, y). */
  lemma BackAlongDirection(m: Math, x: real, y: real, r: real, theta: real)
    requires PeriodicLaw(m) && Atan2Law(m)
    requires r == m.sqrt(SumSquares(x, y)) && Coterminal(theta, m.atan2(y, x), m)
    ensures r * m.cos(theta) == x && r * m.sin(theta) == y
  {
    SameDirectionSameTrig(m, theta, m.atan2(y, x));
  }

  /** The height passes through unchanged into the field named `y`. */
  function CartesianToCylindrical(m: Math, p: Point3D, range: ThetaRange): (c: CylindricalCoords)
    requires Lawful(m)
    ensures 0.0 <= c.r
    ensures InRange(c.theta, range, m)
    ensures Coterminal(c.theta, m.atan2(p.y, p.x), m)
    ensures c.y == p.z
  {
    CylindricalCoords(
      m.sqrt(SumSquares(p.x, p.y)),
      NormalizeTheta(m, m.atan2(p.y, p.x), range),
      p.z)
  }

  /** A point on the vertical axis has radius 0 and angle 0. */
  lemma CylindricalOfAxis(m: Math, z: real, range: ThetaRange)
    requires Lawful(m)
    ensures CartesianToCylindrical(m, Point3D(0.0, 0.0, z), range) == CylindricalCoords(0.0, 0.0, z)
  {
    SumSquaresZero(0.0, 0.0);
    NormalizeFixesExactlyInRange(m, 0.0, range);
  }

  /** The field `y` goes back to the height z. */
  function CylindricalToCartesian(m: Math, c: CylindricalCoords): (p: Point3D)
    ensures p.z == c.y
    ensures c.r == 0.0 ==> p == Point3D(0.0, 0.0, c.y)
    ensures Lawful(m) && c.theta == 0.0 ==> p == Point3D(c.r, 0.0, c.y)
  {
    Point3D(c.r * m.cos(c.theta), c.r * m.sin(c.theta), c.y)
  }

  /** Cylindrical coordinates describe the point exactly. */
  lemma CylindricalRoundTrip(m: Math, p: Point3D, range: ThetaRange)
    requires Lawful(m) && PeriodicLaw(m) && Atan2Law(m)
    ensures CylindricalToCartesian(m, CartesianToCylindrical(m, p, range)) == p
  {
    var c := CartesianToCylindrical(m, p, range);
    BackAlongDirection(m, p.x, p.y, c.r, c.theta);
  }

  /** The ground-plane part of the cylindrical coordinates is the polar
      coordinates of the point's shadow (x, y). */
  lemma CylindricalExtendsPolar(m: Math, p: Point3D, range: ThetaRange)
    requires Lawful(m)
    ensures var c := CartesianToCylindrical(m, p, range);
      PolarCoords(c.r, c.theta) == CartesianToPolar(m, Point2D(p.x, p.y), range)
  {
  }

  /** phi is forced to 0 where rho is 0 instead of dividing by zero. */
  function CartesianToSpherical(m: Math, p: Point3D, range: ThetaRange): (c: SphericalCoords)
    requires Lawful(m)
    ensures 0.0 <= c.rho
    ensures InRange(c.theta, range, m)
    ensures Coterminal(c.theta, m.atan2(p.y, p.x), m)
    ensures c.rho == 0.0 ==> c.phi == 0.0
  {
    var rho := m.sqrt(SumSquares(p.x, p.y) + Sq(p.z));
    var theta := NormalizeTheta(m, m.atan2(p.y, p.x), range);
    var phi := if rho > 0.0 then m.acos(p.z / rho) else 0.0;
    SphericalCoords(rho, theta, phi)
  }

  /** The origin maps to all zeros. */
  lemma SphericalOfOrigin(m: Math, range: ThetaRange)
    requires Lawful(m)
    ensures CartesianToSpherical(m, Point3D(0.0, 0.0, 0.0), range) == SphericalCoords(0.0, 0.0, 0.0)
  {
    SumSquaresZero(0.0, 0.0);
    PositiveSquare(0.0);
    NormalizeFixesExactlyInRange(m, 0.0, range);
  }

  function SphericalToCartesian(m: Math, c: SphericalCoords): (p: Point3D)
    ensures c.rho == 0.0 ==> p == Point3D(0.0, 0.0, 0.0)
    ensures Lawful(m) && c.phi == 0.0 ==> p == Point3D(0.0, 0.0, c.rho)
  {
    Point3D(
      c.rho * m.sin(c.phi) * m.cos(c.theta),
      c.rho * m.sin(c.phi) * m.sin(c.theta),
      c.rho * m.cos(c.phi))
  }

  /** Spherical and cylindrical coordinates of one point share the azimuth. */
  lemma SphericalSharesAzimuth(m: Math, p: Point3D, range: ThetaRange)
    requires Lawful(m)
    ensures CartesianToSpherical(m, p, range).theta == CartesianToCylindrical(m, p, range).theta
  {
  }

  /** Spherical coordinates describe the point exactly, when sqrt, acos,
      sin, cos and atan2 obey their laws. */
  lemma SphericalRoundTrip(m: Math, p: Point3D, range: ThetaRange)
    requires Exact(m)
    ensures SphericalToCartesian(m, CartesianToSpherical(m, p, range)) == p
  {
    var c := CartesianToSpherical(m, p, range);
    assert c.rho == m.sqrt(SumSquares(p.x, p.y) + Sq(p.z));
    assert c.phi == if 0.0 < c.rho then m.acos(p.z / c.rho) else 0.0;
    BackFromSpherical(m, p, c);
  }

  /** The inverse direction of the spherical round trip, for any triple
      built the way CartesianToSpherical builds one, whatever angle in the
      direction of (x, y) it carries. */
  lemma BackFromSpherical(m: Math, p: Point3D, c: SphericalCoords)
    requires Exact(m)
    requires c.rho == m.sqrt(SumSquares(p.x, p.y) + Sq(p.z))
    requires Coterminal(c.theta, m.atan2(p.y, p.x), m)
    requires c.phi == if 0.0 < c.rho then m.acos(p.z / c.rho) else 0.0
    ensures SphericalToCartesian(m, c) == p
  {
    var g := SumSquares(p.x, p.y);
    RootOfSumSquared(m, g, p.z, c.rho);
    if c.rho == 0.0 {
      PositiveSquare(c.rho);
      OriginFromZeroRadius(p.x, p.y, p.z);
    } else {
      TiltParts(m, p.z, c.rho, g);
      BackFromTilt(m, p, c, m.sqrt(g));
    }
  }

  /** The case rho > 0 of BackFromSpherical: once phi splits rho into the
      height and the ground radius r, theta turns r onto (x, y). */
  lemma BackFromTilt(m: Math, p: Point3D, c: SphericalCoords, r: real)
    requires PeriodicLaw(m) && Atan2Law(m)
    requires r == m.sqrt(SumSquares(p.x, p.y)) && Coterminal(c.theta, m.atan2(p.y, p.x), m)
    requires c.rho * m.cos(c.phi) == p.z && c.rho * m.sin(c.phi) == r
    ensures SphericalToCartesian(m, c) == p
  {
    BackAlongDirection(m, p.x, p.y, r, c.theta);
    FromTiltAndGround(m, c, p, r);
  }

  /** The spherical radius is the root of g + z^2, whose square gives it
      back. */
  lemma RootOfSumSquared(m: Math, g: real, z: real, rho: real)
    requires Lawful(m) && SqrtLaw(m) && 0.0 <= g && rho == m.sqrt(g + Sq(z))
    ensures 0.0 <= rho && Sq(rho) == g + Sq(z)
  {
    PositiveSquare(z);
  }

  /** Only the origin has a zero spherical radius. */
  lemma OriginFromZeroRadius(x: real, y: real, z: real)
    requires SumSquares(x, y) + Sq(z) == 0.0
    ensures x == 0.0 && y == 0.0 && z == 0.0
  {
    PositiveSquare(z);
    SumSquaresZero(x, y);
  }

  /** A spherical triple whose tilt splits rho into the height z and a
      ground radius r, and whose azimuth takes r to (x, y), lands on the
      point (x, y, z). */
  lemma FromTiltAndGround(m: Math, c: SphericalCoords, p: Point3D, r: real)
    requires c.rho * m.cos(c.phi) == p.z && c.rho * m.sin(c.phi) == r
    requires r * m.cos(c.theta) == p.x && r * m.sin(c.theta) == p.y
    ensures SphericalToCartesian(m, c) == p
  {
  }

  /** With rho^2 = g + z^2 and phi = acos(z / rho), the vertical part
      rho * cos(phi) is z and the ground part rho * sin(phi) is sqrt(g). */
  lemma TiltParts(m: Math, z: real, rho: real, g: real)
    requires Lawful(m) && SqrtLaw(m) && AcosLaw(m)
    requires 0.0 < rho && 0.0 <= g && Sq(rho) == g + Sq(z)
    ensures rho * m.cos(m.acos(z / rho)) == z
    ensures rho * m.sin(m.acos(z / rho)) == m.sqrt(g)
  {
    assert -1.0 <= z / rho <= 1.0 by {
      UnitRatio(z, rho, g);
    }
    TiltHeight(m, z, rho);
    TiltGround(m, z, rho, g);
  }

  /** rho * cos(acos(z / rho)) = z, when z / rho is a cosine. */
  lemma TiltHeight(m: Math, z: real, rho: real)
    requires AcosLaw(m) && 0.0 < rho && -1.0 <= z / rho <= 1.0
    ensures rho * m.cos(m.acos(z / rho)) == z
  {
    QuotientTimes(z, rho);
  }

  /** rho * sin(acos(z / rho)) = sqrt(g), when rho^2 = g + z^2. */
  lemma TiltGround(m: Math, z: real, rho: real, g: real)
    requires Lawful(m) && SqrtLaw(m) && AcosLaw(m)
    requires 0.0 < rho && 0.0 <= g && Sq(rho) == g + Sq(z)
    ensures rho * m.sin(m.acos(z / rho)) == m.sqrt(g)
  {
    var cosPhi := z / rho;
    UnitRatio(z, rho, g);
    var w := 1.0 - Sq(cosPhi);
    var s := m.sin(m.acos(cosPhi));
    assert s == m.sqrt(w);
    assert Sq(s) == w && 0.0 <= s;
    ScaledRoot(rho, s, w, m.sqrt(g), g);
  }


  /** Angles that name the same direction have the same sine and cosine. */
  lemma SameDirectionSameTrig(m: Math, a: real, b: real)
    requires PeriodicLaw(m) && Coterminal(a, b, m)
    ensures m.sin(a) == m.sin(b) && m.cos(a) == m.cos(b)
  {
    var k :| a == Shift(b, k, Tau(m));
  }
}
