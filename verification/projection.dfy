/** The 3D view's camera: a rotation of the scene by pitch and yaw, a
    perspective divide and the map to screen pixels, and the two samplers
    that produce the wireframe points of the cylinder and sphere overlays. */
module Projection {
  import opened JsMath
  import opened Geometry

  /** Screen pixels per world unit in the 3D view. */
  const PixelsPerUnit: real := 50.0

  /** A point in camera space: `x2` across the screen, `y1` up the screen,
      `z2` away from the viewer. */
  datatype ViewPoint = ViewPoint(x2: real, y1: real, z2: real)

  /** The scene's z axis is drawn vertical and its y axis is depth, so the
      point is read as (x, z, y); it is then pitched by angleX about the
      horizontal axis and yawed by angleY about the vertical one. */
  function Rotate(m: Math, p: Point3D, cam: Camera3D): (v: ViewPoint)
    ensures p == Point3D(0.0, 0.0, 0.0) ==> v == ViewPoint(0.0, 0.0, 0.0)
    ensures Lawful(m) && cam.angleX == 0.0 && cam.angleY == 0.0 ==> v == ViewPoint(p.x, p.z, p.y)
  {
    var cosX := m.cos(cam.angleX);
    var sinX := m.sin(cam.angleX);
    var cosY := m.cos(cam.angleY);
    var sinY := m.sin(cam.angleY);
    var x := p.x;
    var y := p.z;
    var z := p.y;
    var y1 := y * cosX - z * sinX;
    var z1 := y * sinX + z * cosX;
    var x2 := x * cosY + z1 * sinY;
    var z2 := -x * sinY + z1 * cosY;
    ViewPoint(x2, y1, z2)
  }

  /** The rotations are rigid: when sin^2 + cos^2 = 1 the camera-space point
      lies as far from the origin as the scene point. */
  lemma RotationKeepsLength(m: Math, p: Point3D, cam: Camera3D)
    requires PythagoreanLaw(m)
    ensures var v := Rotate(m, p, cam);
      Sq(v.x2) + Sq(v.y1) + Sq(v.z2) == Sq(p.x) + Sq(p.y) + Sq(p.z)
  {
    var cosX, sinX := m.cos(cam.angleX), m.sin(cam.angleX);
    var cosY, sinY := m.cos(cam.angleY), m.sin(cam.angleY);
    var z1 := p.z * sinX + p.y * cosX;
    var v := Rotate(m, p, cam);
    RotateParts(m, p, cam);
    PlaneRotation(p.z, p.y, cosX, sinX, v.y1, z1);
    PlaneRotation(z1, p.x, cosY, sinY, v.z2, v.x2);
  }

  /** The camera-space coordinates, with z1 = z sin(angleX) + y cos(angleX)
      the depth after the pitch. */
  lemma RotateParts(m: Math, p: Point3D, cam: Camera3D)
    ensures var v := Rotate(m, p, cam);
      var cosX, sinX := m.cos(cam.angleX), m.sin(cam.angleX);
      var cosY, sinY := m.cos(cam.angleY), m.sin(cam.angleY);
      var z1 := p.z * sinX + p.y * cosX;
      v.y1 == p.z * cosX - p.y * sinX && v.z2 == z1 * cosY - p.x * sinY && v.x2 == z1 * sinY + p.x * cosY
  {
  }

  /** Turning (a, b) by an angle with cosine c and sine s, to (u, w), keeps
      a^2 + b^2. */
  lemma PlaneRotation(a: real, b: real, c: real, s: real, u: real, w: real)
    requires Sq(c) + Sq(s) == 1.0
    requires u == a * c - b * s && w == a * s + b * c
    ensures Sq(u) + Sq(w) == Sq(a) + Sq(b)
  {
    assert Sq(u) == a * a * (c * c) - 2.0 * (a * b * c * s) + b * b * (s * s);
    assert Sq(w) == a * a * (s * s) + 2.0 * (a * b * c * s) + b * b * (c * c);
    assert a * a * (c * c) + a * a * (s * s) == a * a * (c * c + s * s);
    assert b * b * (c * c) + b * b * (s * s) == b * b * (c * c + s * s);
  }

  /** The perspective factor distance / (distance + depth). */
  function Perspective(cam: Camera3D, v: ViewPoint): real
    requires cam.distance + v.z2 != 0.0
  {
    cam.distance / (cam.distance + v.z2)
  }

  /** Projects a scene point to screen pixels, the screen's y axis pointing
      down. The only hazard is a point at depth -distance, where the
      perspective divide has no value; the caller must avoid it. */
  function Project(m: Math, p: Point3D, cam: Camera3D, width: real, height: real): (s: Point2D)
    requires cam.distance + Rotate(m, p, cam).z2 != 0.0
    ensures p == Point3D(0.0, 0.0, 0.0) ==> s == Point2D(width / 2.0, height / 2.0)
  {
    var v := Rotate(m, p, cam);
    var scale := Perspective(cam, v);
    Point2D(width / 2.0 + v.x2 * scale * PixelsPerUnit, height / 2.0 - v.y1 * scale * PixelsPerUnit)
  }

  /** The origin stays at the origin under any rotation, so for any camera
      at a non-zero distance its projection is defined and is the screen
      centre. */
  lemma OriginProjectsToCentre(m: Math, cam: Camera3D, width: real, height: real)
    requires cam.distance != 0.0
    ensures cam.distance + Rotate(m, Point3D(0.0, 0.0, 0.0), cam).z2 != 0.0
    ensures Project(m, Point3D(0.0, 0.0, 0.0), cam, width, height) == Point2D(width / 2.0, height / 2.0)
  {
  }

  /** Looking straight ahead (both angles 0) the scene's x runs across the
      screen, its z up the screen and its y into it: only y enters the
      perspective factor. */
  lemma ProjectFrontView(m: Math, p: Point3D, d: real, width: real, height: real)
    requires Lawful(m) && d + p.y != 0.0
    ensures var f := d / (d + p.y);
      Project(m, p, Camera3D(0.0, 0.0, d), width, height)
        == Point2D(width / 2.0 + p.x * f * PixelsPerUnit, height / 2.0 - p.z * f * PixelsPerUnit)
  {
    assert Rotate(m, p, Camera3D(0.0, 0.0, d)) == ViewPoint(p.x, p.z, p.y);
  }

  /** With a non-zero distance, a point lands on the screen centre exactly
      when it lies on the camera's line of sight. */
  lemma ProjectsToCentreExactlyOnAxis(m: Math, p: Point3D, cam: Camera3D, width: real, height: real)
    requires cam.distance != 0.0 && cam.distance + Rotate(m, p, cam).z2 != 0.0
    ensures var v := Rotate(m, p, cam);
      var centred := Project(m, p, cam, width, height) == Point2D(width / 2.0, height / 2.0);
      centred <==> v.x2 == 0.0 && v.y1 == 0.0
  {
    var v := Rotate(m, p, cam);
    var f := Perspective(cam, v);
    assert f * (cam.distance + v.z2) == cam.distance;
    assert f != 0.0;
    ProductZero(v.x2, f * PixelsPerUnit);
    ProductZero(v.y1, f * PixelsPerUnit);
    assert v.x2 * f * PixelsPerUnit == v.x2 * (f * PixelsPerUnit);
    assert v.y1 * f * PixelsPerUnit == v.y1 * (f * PixelsPerUnit);
  }

  /** A product with a non-zero factor vanishes only with the other one. */
  lemma ProductZero(a: real, b: real)
    requires b != 0.0
    ensures a * b == 0.0 <==> a == 0.0
  {
    if a * b == 0.0 {
      assert a == (a * b) / b;
    }
  }

  /** The angle of rim sample i of n: i/n of a full turn. */
  function RimAngle(m: Math, i: int, segments: nat): real
    requires 0 < segments
  {
    (i as real / segments as real) * m.pi * 2.0
  }

  /** Rim sample i of the cylinder, on the top circle (z = zOffset + height)
      or on the bottom one (z = zOffset). */
  function CylinderSample(m: Math, radius: real, height: real, segments: nat, zOffset: real, i: int, top: bool): Point3D
    requires 0 < segments
  {
    var angle := RimAngle(m, i, segments);
    Point3D(m.cos(angle) * radius, m.sin(angle) * radius, if top then zOffset + height else zOffset)
  }

  /** Samples the cylinder's two rims at segments + 1 angles from 0 to a
      full turn, top and bottom point of each angle side by side. */
  method GenerateCylinderPoints(m: Math, radius: real, height: real, segments: nat, zOffset: real)
    returns (pts: seq<Point3D>)
    requires 0 < segments
    ensures |pts| == 2 * (segments + 1)
    ensures forall k :: 0 <= k < |pts| ==>
      pts[k] == CylinderSample(m, radius, height, segments, zOffset, k / 2, k % 2 == 0)
    ensures forall k :: 0 <= k < |pts| && k % 2 == 0 ==>
      pts[k].x == pts[k + 1].x && pts[k].y == pts[k + 1].y
      && pts[k].z == zOffset + height && pts[k + 1].z == zOffset
    ensures radius == 0.0 ==> forall k :: 0 <= k < |pts| ==> pts[k].x == 0.0 && pts[k].y == 0.0
  {
    pts := [];
    var i := 0;
    while i <= segments
      invariant 0 <= i <= segments + 1
      invariant |pts| == 2 * i
      invariant forall k :: 0 <= k < |pts| ==>
        pts[k] == CylinderSample(m, radius, height, segments, zOffset, k / 2, k % 2 == 0)
    {
      var angle := RimAngle(m, i, segments);
      var x := m.cos(angle) * radius;
      var y := m.sin(angle) * radius;
      Halves(i);
      assert Point3D(x, y, zOffset + height) == CylinderSample(m, radius, height, segments, zOffset, i, true);
      assert Point3D(x, y, zOffset) == CylinderSample(m, radius, height, segments, zOffset, i, false);
      pts := pts + [Point3D(x, y, zOffset + height), Point3D(x, y, zOffset)];
      i := i + 1;
    }
    CylinderPairs(m, radius, height, segments, zOffset, pts);
  }

  /** In an array of the cylinder's samples, laid out top and bottom point
      of each angle side by side, each pair stands on one vertical line
      from the top rim to the bottom rim, and a zero radius puts every
      point on the axis. */
  lemma CylinderPairs(m: Math, radius: real, height: real, segments: nat, zOffset: real, pts: seq<Point3D>)
    requires 0 < segments && |pts| == 2 * (segments + 1)
    requires forall k :: 0 <= k < |pts| ==>
      pts[k] == CylinderSample(m, radius, height, segments, zOffset, k / 2, k % 2 == 0)
    ensures forall k :: 0 <= k < |pts| && k % 2 == 0 ==>
      pts[k].x == pts[k + 1].x && pts[k].y == pts[k + 1].y
      && pts[k].z == zOffset + height && pts[k + 1].z == zOffset
    ensures radius == 0.0 ==> forall k :: 0 <= k < |pts| ==> pts[k].x == 0.0 && pts[k].y == 0.0
  {
    forall k | 0 <= k < |pts| && k % 2 == 0
      ensures pts[k].x == pts[k + 1].x && pts[k].y == pts[k + 1].y
      ensures pts[k].z == zOffset + height && pts[k + 1].z == zOffset
    {
      Halves(k / 2);
      assert pts[k] == CylinderSample(m, radius, height, segments, zOffset, k / 2, true);
      assert pts[k + 1] == CylinderSample(m, radius, height, segments, zOffset, k / 2, false);
    }
    if radius == 0.0 {
      forall k | 0 <= k < |pts|
        ensures pts[k].x == 0.0 && pts[k].y == 0.0
      {
        CylinderSampleOfNoRadius(m, height, segments, zOffset, k / 2, k % 2 == 0);
      }
    }
  }

  /** With radius 0 every rim sample lies on the vertical axis. */
  lemma CylinderSampleOfNoRadius(m: Math, height: real, segments: nat, zOffset: real, i: int, top: bool)
    requires 0 < segments
    ensures CylinderSample(m, 0.0, height, segments, zOffset, i, top).x == 0.0
    ensures CylinderSample(m, 0.0, height, segments, zOffset, i, top).y == 0.0
  {
  }

  /** Index 2i holds the top point and 2i + 1 the bottom point of angle i. */
  lemma Halves(i: int)
    requires 0 <= i
    ensures (2 * i) / 2 == i && (2 * i) % 2 == 0
    ensures (2 * i + 1) / 2 == i && (2 * i + 1) % 2 == 1
  {
  }

  /** Flat index of latitude step i and longitude step j in the sphere's
      row-major point array, rows of segments + 1 points. */
  function RowMajor(i: int, j: int, segments: nat): (k: int)
    ensures 0 <= i && 0 <= j ==> 0 <= k
    ensures 0 <= i <= segments && 0 <= j <= segments ==> k < (segments + 1) * (segments + 1)
  {
    var w := segments + 1;
    assert 0 <= i ==> 0 <= i * w;
    assert i <= segments ==> w * w - i * w == (w - i) * w && w <= (w - i) * w;
    i * w + j
  }

  /** A later row starts after every column of an earlier one. */
  lemma RowsAhead(a: int, b: int, i: int, segments: nat)
    requires a < i && b <= segments
    ensures RowMajor(a, b, segments) < RowMajor(i, 0, segments)
  {
    var w := segments + 1;
    var d := i - a - 1;
    assert 0 <= d * w;
    assert i * w == a * w + d * w + w;
  }

  /** One past a row's last column is the start of the next row. */
  lemma RowMajorNextRow(i: int, segments: nat)
    ensures RowMajor(i, segments + 1, segments) == RowMajor(i + 1, 0, segments)
  {
    assert (i + 1) * (segments + 1) == i * (segments + 1) + (segments + 1);
  }

  function Latitude(m: Math, i: int, segments: nat): real
    requires 0 < segments
  {
    (i as real / segments as real) * m.pi - m.pi / 2.0
  }

  function Longitude(m: Math, j: int, segments: nat): real
    requires 0 < segments
  {
    (j as real / segments as real) * m.pi * 2.0
  }

  /** Sample (i, j) of the sphere: latitude step i from the south pole
      (-PI/2) to the north pole (PI/2), longitude step j around a full turn. */
  function SphereSample(m: Math, radius: real, segments: nat, i: int, j: int): Point3D
    requires 0 < segments
  {
    var cosLat := m.cos(Latitude(m, i, segments));
    var sinLat := m.sin(Latitude(m, i, segments));
    var lon := Longitude(m, j, segments);
    Point3D(m.cos(lon) * cosLat * radius, m.sin(lon) * cosLat * radius, sinLat * radius)
  }

  /** Every sample of a sphere of radius 0 is the origin. */
  lemma SphereSampleOfNoRadius(m: Math, segments: nat, i: int, j: int)
    requires 0 < segments
    ensures SphereSample(m, 0.0, segments, i, j) == Point3D(0.0, 0.0, 0.0)
  {
  }

  /** The samples of one row share their height. */
  lemma SphereRowLevel(m: Math, radius: real, segments: nat, i: int, j: int, j': int)
    requires 0 < segments
    ensures SphereSample(m, radius, segments, i, j).z == SphereSample(m, radius, segments, i, j').z
  {
  }

  /** The first `rows` rows of the sphere's grid, and nothing more, are
      in place. */
  ghost predicate RowsFilled(pts: seq<Point3D>, m: Math, radius: real, segments: nat, rows: nat)
    requires 0 < segments
  {
    && |pts| == RowMajor(rows, 0, segments)
    && forall a, b :: 0 <= a < rows && 0 <= b <= segments ==>
      RowMajor(a, b, segments) < |pts|
      && pts[RowMajor(a, b, segments)] == SphereSample(m, radius, segments, a, b)
  }

  /** Appending row i after the first i rows fills i + 1 rows. */
  lemma AppendRow(pts: seq<Point3D>, row: seq<Point3D>, m: Math, radius: real, segments: nat, i: nat)
    requires 0 < segments && RowsFilled(pts, m, radius, segments, i)
    requires |row| == segments + 1
    requires forall b :: 0 <= b <= segments ==> row[b] == SphereSample(m, radius, segments, i, b)
    ensures RowsFilled(pts + row, m, radius, segments, i + 1)
  {
    RowMajorNextRow(i, segments);
    forall a, b | 0 <= a < i + 1 && 0 <= b <= segments
      ensures RowMajor(a, b, segments) < |pts + row|
      ensures (pts + row)[RowMajor(a, b, segments)] == SphereSample(m, radius, segments, a, b)
    {
      if a < i {
        RowsAhead(a, b, i, segments);
      } else {
        assert RowMajor(a, b, segments) == |pts| + b;
      }
    }
  }

  /** Row i of the sphere grid: the segments + 1 longitudes at latitude
      step i. */
  method SphereRow(m: Math, radius: real, segments: nat, i: int) returns (row: seq<Point3D>)
    requires 0 < segments
    ensures |row| == segments + 1
    ensures forall b :: 0 <= b <= segments ==> row[b] == SphereSample(m, radius, segments, i, b)
    ensures radius == 0.0 ==> forall k :: 0 <= k < |row| ==> row[k] == Point3D(0.0, 0.0, 0.0)
  {
    row := [];
    var j := 0;
    while j <= segments
      invariant 0 <= j <= segments + 1
      invariant |row| == j
      invariant forall b :: 0 <= b < j ==> row[b] == SphereSample(m, radius, segments, i, b)
      invariant radius == 0.0 ==> forall k :: 0 <= k < |row| ==> row[k] == Point3D(0.0, 0.0, 0.0)
    {
      if radius == 0.0 {
        SphereSampleOfNoRadius(m, segments, i, j);
      }
      row := row + [SphereSample(m, radius, segments, i, j)];
      j := j + 1;
    }
  }

  /** Samples the sphere on a (segments + 1) x (segments + 1) grid of
      latitudes and longitudes, row by row. */
  method GenerateSpherePoints(m: Math, radius: real, segments: nat) returns (pts: seq<Point3D>)
    requires 0 < segments
    ensures |pts| == (segments + 1) * (segments + 1)
    ensures forall i, j :: 0 <= i <= segments && 0 <= j <= segments ==>
      pts[RowMajor(i, j, segments)] == SphereSample(m, radius, segments, i, j)
    ensures forall i, j, j' :: 0 <= i <= segments && 0 <= j <= segments && 0 <= j' <= segments ==>
      pts[RowMajor(i, j, segments)].z == pts[RowMajor(i, j', segments)].z
    ensures radius == 0.0 ==> forall k :: 0 <= k < |pts| ==> pts[k] == Point3D(0.0, 0.0, 0.0)
  {
    pts := [];
    var i := 0;
    while i <= segments
      invariant 0 <= i <= segments + 1
      invariant RowsFilled(pts, m, radius, segments, i)
      invariant radius == 0.0 ==> forall k :: 0 <= k < |pts| ==> pts[k] == Point3D(0.0, 0.0, 0.0)
    {
      var row := SphereRow(m, radius, segments, i);
      AppendRow(pts, row, m, radius, segments, i);
      pts := pts + row;
      i := i + 1;
    }
    assert RowMajor(segments + 1, 0, segments) == (segments + 1) * (segments + 1);
    forall i, j, j' | 0 <= i <= segments && 0 <= j <= segments && 0 <= j' <= segments
      ensures pts[RowMajor(i, j, segments)].z == pts[RowMajor(i, j', segments)].z
    {
      SphereRowLevel(m, radius, segments, i, j, j');
    }
  }
}
