/** The two view-mode buttons of the control panel. Each button flips one
    view's visibility and keeps the other's; when both views would end up
    hidden the 2D view is shown instead. */
module Controls {
  import opened Geometry

  predicate Shows2D(v: ViewMode) {
    v == TwoD || v == Both
  }

  predicate Shows3D(v: ViewMode) {
    v == ThreeD || v == Both
  }

  /** The mode showing exactly the requested views, or the 2D view alone
      when neither is requested. */
  function FromFlags(show2D: bool, show3D: bool): (v: ViewMode)
    ensures show2D || show3D ==> Shows2D(v) == show2D && Shows3D(v) == show3D
    ensures !show2D && !show3D ==> v == TwoD
  {
    if show2D && show3D then Both
    else if show2D then TwoD
    else if show3D then ThreeD
    else TwoD
  }

  /** The '2D View' button. */
  function Toggle2D(v: ViewMode): (r: ViewMode)
    ensures Shows3D(r) == Shows3D(v)
    ensures Shows3D(v) ==> Shows2D(r) == !Shows2D(v)
    ensures !Shows3D(v) ==> r == TwoD
  {
    FromFlags(!Shows2D(v), Shows3D(v))
  }

  /** The '3D View' button. */
  function Toggle3D(v: ViewMode): (r: ViewMode)
    ensures Shows2D(v) ==> Shows2D(r) && Shows3D(r) == !Shows3D(v)
    ensures !Shows2D(v) ==> r == TwoD
  {
    FromFlags(Shows2D(v), !Shows3D(v))
  }

  /** The full tables of both buttons. */
  lemma ToggleTables()
    ensures Toggle2D(Both) == ThreeD && Toggle2D(ThreeD) == Both && Toggle2D(TwoD) == TwoD
    ensures Toggle3D(TwoD) == Both && Toggle3D(Both) == TwoD && Toggle3D(ThreeD) == TwoD
  {
  }

  /** Pressing '2D View' twice always restores the mode. */
  lemma Toggle2DTwice(v: ViewMode)
    ensures Toggle2D(Toggle2D(v)) == v
  {
  }

  /** Pressing '3D View' twice restores the mode, except from the 3D view
      alone, where the first press falls back to the 2D view. */
  lemma Toggle3DTwice(v: ViewMode)
    ensures Toggle3D(Toggle3D(v)) == v <==> v != ThreeD
  {
  }
}
