/** The value types the visualizer passes around, and its table of camera
    presets. Axis convention throughout: x horizontal, y depth, z vertical. */
module Geometry {
  import opened JsMath

  /** A value that may be absent. */
  datatype Option<T> = None | Some(value: T)

  datatype Point2D = Point2D(x: real, y: real)

  datatype Point3D = Point3D(x: real, y: real, z: real)

  datatype PolarCoords = PolarCoords(r: real, theta: real)

  /** The field `y` holds the HEIGHT, that is Point3D.z, not the Cartesian y. */
  datatype CylindricalCoords = CylindricalCoords(r: real, theta: real, y: real)

  /** `phi` is measured from the vertical +z axis. */
  datatype SphericalCoords = SphericalCoords(rho: real, theta: real, phi: real)

  /** Which canvases are shown: '2d', '3d' or 'both'. */
  datatype ViewMode = TwoD | ThreeD | Both

  /** The overlay shape drawn around the 3D point. */
  datatype ShapePreset = NoShape | Cylinder | Sphere

  datatype PerspectivePreset = Free | Front | Back | Left | Right | Top | Bottom | Isometric

  /** Pitch `angleX`, yaw `angleY` and viewer `distance` from the origin. */
  datatype Camera3D = Camera3D(angleX: real, angleY: real, distance: real)

  datatype PresetEntry = PresetEntry(camera: Camera3D, name: string)

  /** The camera each preset selects. Every preset keeps the camera where
      the 3D view's own controls keep it: distance in [5, 30], so positive,
      and pitch in [-PI/2, PI/2]. */
  function PerspectivePresets(m: Math, p: PerspectivePreset): (e: PresetEntry)
    ensures 5.0 <= e.camera.distance <= 30.0
    ensures Lawful(m) ==> -m.pi / 2.0 <= e.camera.angleX <= m.pi / 2.0
  {
    match p
    case Free => PresetEntry(Camera3D(0.5, 0.8, 10.0), "Free View")
    case Front => PresetEntry(Camera3D(0.0, 0.0, 10.0), "Front (XY)")
    case Back => PresetEntry(Camera3D(0.0, m.pi, 10.0), "Back")
    case Left => PresetEntry(Camera3D(0.0, -m.pi / 2.0, 10.0), "Left (YZ)")
    case Right => PresetEntry(Camera3D(0.0, m.pi / 2.0, 10.0), "Right (YZ)")
    case Top => PresetEntry(Camera3D(m.pi / 2.0, 0.0, 10.0), "Top (XZ)")
    case Bottom => PresetEntry(Camera3D(-m.pi / 2.0, 0.0, 10.0), "Bottom")
    case Isometric => PresetEntry(Camera3D(m.pi / 6.0, m.pi / 4.0, 12.0), "Isometric")
  }

  /** Top and Bottom are mirror images in pitch, Left and Right in yaw:
      each pair differs in the sign of one angle and nothing else. */
  lemma MirroredPresets(m: Math)
    ensures var top := PerspectivePresets(m, Top).camera;
      PerspectivePresets(m, Bottom).camera == top.(angleX := -top.angleX)
    ensures var right := PerspectivePresets(m, Right).camera;
      PerspectivePresets(m, Left).camera == right.(angleY := -right.angleY)
  {
  }
}
