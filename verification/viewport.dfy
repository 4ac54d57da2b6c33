/** The zoom range shared by the panorama and 3D viewers, on exact reals. */
module Viewport {

  const MinZoom: real := 0.5
  const MaxZoom: real := 3.0

  predicate InZoomRange(z: real) { MinZoom <= z <= MaxZoom }

  /** `Math.max(0.5, Math.min(3, z))`. */
  function ClampZoom(z: real): (r: real)
    ensures InZoomRange(r)
    ensures InZoomRange(z) ==> r == z
    ensures z < MinZoom ==> r == MinZoom
    ensures z > MaxZoom ==> r == MaxZoom
  {
    if z < MinZoom then MinZoom else if z > MaxZoom then MaxZoom else z
  }

  /** Clamping twice is clamping once. */
  lemma ClampIdempotent(z: real)
    ensures ClampZoom(ClampZoom(z)) == ClampZoom(z)
  {
  }
}
