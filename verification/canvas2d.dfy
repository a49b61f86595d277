/** The 2D canvas: the affine map between world coordinates and canvas
    pixels, the drag gesture on the point, and the zoom and canvas-size
    controls with their clamps. */
module Canvas2D {
  import opened JsMath
  import opened Geometry

  /** World to canvas: the origin at the canvas centre, `scale` pixels per
      unit, the y axis pointing up on screen (canvas y grows downwards). */
  function ToCanvas(p: Point2D, width: real, height: real, scale: real): (q: Point2D)
    ensures p == Point2D(0.0, 0.0) ==> q == Point2D(width / 2.0, height / 2.0)
  {
    Point2D(width / 2.0 + p.x * scale, height / 2.0 - p.y * scale)
  }

  /** Canvas to world; undefined for a zero scale, which the zoom controls
      never produce. */
  function FromCanvas(q: Point2D, width: real, height: real, scale: real): (p: Point2D)
    requires scale != 0.0
    ensures q == Point2D(width / 2.0, height / 2.0) ==> p == Point2D(0.0, 0.0)
  {
    Point2D((q.x - width / 2.0) / scale, -(q.y - height / 2.0) / scale)
  }

  /** The two maps are inverse to each other, in both orders. */
  lemma CanvasRoundTrips(p: Point2D, q: Point2D, width: real, height: real, scale: real)
    requires scale != 0.0
    ensures FromCanvas(ToCanvas(p, width, height, scale), width, height, scale) == p
    ensures ToCanvas(FromCanvas(q, width, height, scale), width, height, scale) == q
  {
    TimesQuotient(p.x, scale);
    TimesQuotient(p.y, scale);
    QuotientTimes(q.x - width / 2.0, scale);
    QuotientTimes(-(q.y - height / 2.0), scale);
  }

  /** With a positive scale, a point higher in the world is drawn higher on
      the canvas, that is at a smaller canvas y; x keeps its direction. */
  lemma CanvasFlipsY(p: Point2D, p': Point2D, width: real, height: real, scale: real)
    requires 0.0 < scale
    ensures p.y < p'.y <==> ToCanvas(p', width, height, scale).y < ToCanvas(p, width, height, scale).y
    ensures p.x < p'.x <==> ToCanvas(p, width, height, scale).x < ToCanvas(p', width, height, scale).x
  {
    ScaleOrder(p.y, p'.y, scale);
    ScaleOrder(p'.y, p.y, scale);
    ScaleOrder(p.x, p'.x, scale);
    ScaleOrder(p'.x, p.x, scale);
  }

  /** The grab radius of the point, in pixels. */
  const GrabRadius: real := 15.0

  /** Whether a press at `mouse` grabs the point: the pixel distance, as
      sqrt(dx^2 + dy^2), is below the grab radius. */
  function Grabs(m: Math, mouse: Point2D, point: Point2D, width: real, height: real, scale: real): (hit: bool)
    ensures Lawful(m) && mouse == ToCanvas(point, width, height, scale) ==> hit
  {
    var c := ToCanvas(point, width, height, scale);
    m.sqrt(SumSquares(mouse.x - c.x, mouse.y - c.y)) < GrabRadius
  }

  /** With an exact square root the grab test is the disc test
      dx^2 + dy^2 < 15^2; in particular a press right on the point grabs it. */
  lemma GrabsIsDisc(m: Math, mouse: Point2D, point: Point2D, width: real, height: real, scale: real)
    requires Lawful(m) && SqrtLaw(m)
    ensures var c := ToCanvas(point, width, height, scale);
      Grabs(m, mouse, point, width, height, scale)
        == (SumSquares(mouse.x - c.x, mouse.y - c.y) < Sq(GrabRadius))
    ensures Grabs(m, ToCanvas(point, width, height, scale), point, width, height, scale)
  {
    var c := ToCanvas(point, width, height, scale);
    var v := SumSquares(mouse.x - c.x, mouse.y - c.y);
    RootBelow(m.sqrt(v), v, GrabRadius);
    SumSquaresZero(0.0, 0.0);
  }

  /** For a non-negative root s of v and a positive bound b: s < b exactly
      when v < b^2. */
  lemma RootBelow(s: real, v: real, b: real)
    requires 0.0 <= s && Sq(s) == v && 0.0 < b
    ensures s < b <==> v < Sq(b)
  {
    if s < b {
      if 0.0 < s {
        ScaleOrder(s, b, b);
        ScaleOrder(s, b, s);
        assert s * s < b * s && b * s == s * b && s * b < b * b;
      } else {
        MulPositive(b, b);
        assert s * s == 0.0;
      }
      assert s * s < b * b;
    } else {
      ScaleOrder(b, s, b);
      ScaleOrder(b, s, s);
      assert b * b <= s * s;
    }
  }

  /** The 2D canvas's mouse gesture: idle, or carrying the point. */
  datatype Gesture = Idle | Dragging

  /** A press starts a drag only when it grabs the point; otherwise nothing
      changes. */
  function MouseDown(m: Math, g: Gesture, mouse: Point2D, point: Point2D, width: real, height: real, scale: real): (r: Gesture)
    ensures Grabs(m, mouse, point, width, height, scale) ==> r == Dragging
    ensures !Grabs(m, mouse, point, width, height, scale) ==> r == g
  {
    if Grabs(m, mouse, point, width, height, scale) then Dragging else g
  }

  /** While dragging, the point moves to the world position under the
      mouse; otherwise a move reports nothing, before any division. */
  function MouseMove(g: Gesture, mouse: Point2D, width: real, height: real, scale: real): (r: Option<Point2D>)
    requires g == Dragging ==> scale != 0.0
    ensures g == Idle <==> r == None
    ensures r.Some? ==> ToCanvas(r.value, width, height, scale) == mouse
  {
    match g
    case Dragging =>
      CanvasRoundTrips(Point2D(0.0, 0.0), mouse, width, height, scale);
      Some(FromCanvas(mouse, width, height, scale))
    case Idle => None
  }

  /** Release or leaving the canvas ends the drag. */
  function MouseUp(g: Gesture): (r: Gesture)
    ensures r == Idle
  {
    Idle
  }

  const MinScale: int := 10
  const MaxScale: int := 120
  const ScaleStep: int := 5

  function ZoomOut(scale: int): (r: int)
    ensures MinScale <= r && scale - ScaleStep <= r
    ensures r == MinScale || r == scale - ScaleStep
    ensures MinScale <= scale - ScaleStep ==> r == scale - ScaleStep
  {
    if scale - ScaleStep < MinScale then MinScale else scale - ScaleStep
  }

  function ZoomIn(scale: int): (r: int)
    ensures r <= MaxScale && r <= scale + ScaleStep
    ensures r == MaxScale || r == scale + ScaleStep
    ensures scale + ScaleStep <= MaxScale ==> r == scale + ScaleStep
  {
    if MaxScale < scale + ScaleStep then MaxScale else scale + ScaleStep
  }

  /** The zoom buttons keep a scale in [10, 120] there, and away from the
      ends each undoes the other. */
  lemma ZoomStaysInRange(scale: int)
    requires MinScale <= scale <= MaxScale
    ensures MinScale <= ZoomOut(scale) <= MaxScale && MinScale <= ZoomIn(scale) <= MaxScale
    ensures MinScale + ScaleStep <= scale ==> ZoomIn(ZoomOut(scale)) == scale
    ensures scale <= MaxScale - ScaleStep ==> ZoomOut(ZoomIn(scale)) == scale
  {
  }

  const MinSize: int := 300
  const MaxSize: int := 1200
  const SizeStep: int := 50

  function SizeDown(size: int): (r: int)
    ensures MinSize <= r && size - SizeStep <= r
    ensures r == MinSize || r == size - SizeStep
    ensures MinSize <= size - SizeStep ==> r == size - SizeStep
  {
    if size - SizeStep < MinSize then MinSize else size - SizeStep
  }

  function SizeUp(size: int): (r: int)
    ensures r <= MaxSize && r <= size + SizeStep
    ensures r == MaxSize || r == size + SizeStep
    ensures size + SizeStep <= MaxSize ==> r == size + SizeStep
  {
    if MaxSize < size + SizeStep then MaxSize else size + SizeStep
  }

  /** The size buttons keep a size in [300, 1200] there, and away from the
      ends each undoes the other. */
  lemma SizeStaysInRange(size: int)
    requires MinSize <= size <= MaxSize
    ensures MinSize <= SizeDown(size) <= MaxSize && MinSize <= SizeUp(size) <= MaxSize
    ensures MinSize + SizeStep <= size ==> SizeUp(SizeDown(size)) == size
    ensures size <= MaxSize - SizeStep ==> SizeDown(SizeUp(size)) == size
  {
  }

  /** The size slider's value rounded to the nearest multiple of 50, halves
      upwards. */
  function SnapSize(v: int): (r: int)
    ensures r % SizeStep == 0
    ensures v - 25 < r <= v + 25
  {
    var n := Round(v as real / SizeStep as real);
    SnapBounds(v, n);
    n * SizeStep
  }

  lemma SnapBounds(v: int, n: int)
    requires (v as real / 50.0) - 0.5 < n as real <= (v as real / 50.0) + 0.5
    ensures v - 25 < n * 50 <= v + 25
  {
    var q := v as real / 50.0;
    assert q * 50.0 == v as real;
    ScaleOrder(q - 0.5, n as real, 50.0);
    ScaleOrder(n as real, q + 0.5, 50.0);
    assert (n * 50) as real == (n as real) * 50.0;
  }

  /** Snapping keeps multiples of 50 as they are, and keeps a value within
      [300, 1200] inside it. */
  lemma SnapSizeProperties(v: int)
    ensures v % SizeStep == 0 ==> SnapSize(v) == v
    ensures MinSize <= v <= MaxSize ==> MinSize <= SnapSize(v) <= MaxSize
  {
    var r := SnapSize(v);
    if v % SizeStep == 0 {
      assert (r - v) % SizeStep == 0;
      MultipleInWindow(r - v);
    }
    if MinSize <= v <= MaxSize {
      if r < MinSize {
        MultipleInWindow(r - MinSize + SizeStep);
      }
      if MaxSize < r {
        MultipleInWindow(r - MaxSize - SizeStep);
      }
    }
  }

  /** The only multiple of 50 strictly between -50 and 50 is 0. */
  lemma MultipleInWindow(d: int)
    requires d % 50 == 0 && -50 < d < 50
    ensures d == 0
  {
  }
}
