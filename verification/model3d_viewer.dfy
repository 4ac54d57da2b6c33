/**
 * The artifact viewer (`src/components/artifacts/Model3DViewer.tsx`): buttons that rotate by
 * 15 degrees, clamped zoom, a reset, the simulated load, and the choice of the drawing for an
 * artifact name.
 */
module Model3DViewer {
  import opened Wrappers
  import opened Viewport

  /** Degrees per rotate button press. */
  const RotateStep: int := 15
  /** Zoom change per zoom button press. */
  const ZoomStep: real := 0.2

  datatype Direction = Left | Right | Up | Down

  datatype ZoomDirection = In | Out

  /** Degrees about the horizontal (`x`) and vertical (`y`) axes. */
  datatype Rotation = Rotation(x: int, y: int)

  datatype Position = Position(x: int, y: int)

  /** The drawings `get3DModel` can return. */
  datatype Drawing = Rifle | Helmet | Medal | Generic

  const Origin: Position := Position(0, 0)

  /** `handleRotate`: left and right turn about `y`, up and down about `x`, by 15 degrees. */
  function Rotate(r: Rotation, d: Direction): (s: Rotation)
    ensures d == Left || d == Right ==> s.x == r.x && (s.y - r.y == RotateStep || r.y - s.y == RotateStep)
    ensures d == Up || d == Down ==> s.y == r.y && (s.x - r.x == RotateStep || r.x - s.x == RotateStep)
    ensures d == Left ==> s.y < r.y
    ensures d == Up ==> s.x < r.x
  {
    match d
    case Left => r.(y := r.y - 15)
    case Right => r.(y := r.y + 15)
    case Up => r.(x := r.x - 15)
    case Down => r.(x := r.x + 15)
  }

  function Opposite(d: Direction): (e: Direction)
    ensures e != d
  {
    match d
    case Left => Right
    case Right => Left
    case Up => Down
    case Down => Up
  }

  /** A press followed by the opposite press restores the rotation. */
  lemma RotateUndo(r: Rotation, d: Direction)
    ensures Rotate(Rotate(r, d), Opposite(d)) == r
  {
  }

  /** The order of two presses does not matter. */
  lemma RotateCommutes(r: Rotation, d: Direction, e: Direction)
    ensures Rotate(Rotate(r, d), e) == Rotate(Rotate(r, e), d)
  {
  }

  /** `handleZoom`: one step in or out, kept within [0.5, 3]. */
  function Zoom(z: real, dir: ZoomDirection): (r: real)
    ensures InZoomRange(r)
    ensures dir == In ==> r == ClampZoom(z + ZoomStep)
    ensures dir == Out ==> r == ClampZoom(z - ZoomStep)
  {
    var newZoom := if dir == In then z + 0.2 else z - 0.2;
    if 0.5 > (if 3.0 < newZoom then 3.0 else newZoom) then 0.5
    else if 3.0 < newZoom then 3.0 else newZoom
  }

  /** The zoom-out button is disabled at or below the lower limit. */
  predicate ZoomOutDisabled(z: real)
    ensures InZoomRange(z) ==> (ZoomOutDisabled(z) <==> z == MinZoom)
  {
    z <= 0.5
  }

  /** The zoom-in button is disabled at or above the upper limit. */
  predicate ZoomInDisabled(z: real)
    ensures InZoomRange(z) ==> (ZoomInDisabled(z) <==> z == MaxZoom)
  {
    z >= 3.0
  }

  /** Within the range, a zoom button is enabled exactly when pressing it changes the zoom. */
  lemma ZoomButtonsEnabledIffEffective(z: real)
    requires InZoomRange(z)
    ensures !ZoomOutDisabled(z) <==> Zoom(z, Out) < z
    ensures !ZoomInDisabled(z) <==> Zoom(z, In) > z
  {
  }

  /** `get3DModel`: the drawing registered under the name, or the generic one. */
  function DrawingFor(artifactName: string): (d: Drawing)
    ensures d == Rifle <==> artifactName == "Liberation War Rifle"
    ensures d == Helmet <==> artifactName == "Freedom Fighter Helmet"
    ensures d == Medal <==> artifactName == "Victory Medal"
  {
    var models := map["Liberation War Rifle" := Rifle, "Freedom Fighter Helmet" := Helmet,
                      "Victory Medal" := Medal, "default" := Generic];
    if artifactName in models then models[artifactName] else models["default"]
  }

  /** Any name other than the three known artifacts gets the generic drawing. */
  lemma UnknownNameGetsDefault(artifactName: string)
    requires artifactName !in {"Liberation War Rifle", "Freedom Fighter Helmet", "Victory Medal"}
    ensures DrawingFor(artifactName) == Generic
  {
  }

  class Viewer {
    const artifactName: string
    var isLoading: bool
    var rotation: Rotation
    var zoom: real
    /** Written only by `resetView`; no handler moves the model. */
    var position: Position

    /** The zoom lies in [0.5, 3] and the model never leaves the origin. */
    ghost predicate Valid()
      reads this
    {
      InZoomRange(zoom) && position == Origin
    }

    ghost predicate AtInitialView()
      reads this
    {
      rotation == Rotation(0, 0) && zoom == 1.0 && position == Origin
    }

    constructor (artifactName: string)
      ensures Valid() && AtInitialView()
      ensures this.artifactName == artifactName && isLoading
    {
      this.artifactName := artifactName;
      isLoading := true;
      rotation := Rotation(0, 0);
      zoom := 1.0;
      position := Origin;
    }

    /** The simulated two-second load completing. */
    method LoadingFinished()
      requires Valid()
      modifies this
      ensures Valid() && !isLoading
      ensures rotation == old(rotation) && zoom == old(zoom)
    {
      isLoading := false;
    }

    /** The loading spinner while loading, then the artifact's drawing. */
    function Shown(): (d: Option<Drawing>)
      reads this
      ensures d.None? <==> isLoading
      ensures d.Some? ==> d.value == DrawingFor(artifactName)
    {
      if isLoading then None else Some(DrawingFor(artifactName))
    }

    method HandleRotate(d: Direction)
      requires Valid()
      modifies this
      ensures Valid()
      ensures rotation == Rotate(old(rotation), d)
      ensures zoom == old(zoom) && isLoading == old(isLoading)
    {
      match d {
        case Left => rotation := rotation.(y := rotation.y - 15);
        case Right => rotation := rotation.(y := rotation.y + 15);
        case Up => rotation := rotation.(x := rotation.x - 15);
        case Down => rotation := rotation.(x := rotation.x + 15);
      }
    }

    method HandleZoom(dir: ZoomDirection)
      requires Valid()
      modifies this
      ensures Valid()
      ensures zoom == Zoom(old(zoom), dir)
      ensures rotation == old(rotation) && isLoading == old(isLoading)
    {
      var newZoom := if dir == In then zoom + 0.2 else zoom - 0.2;
      var inner := if 3.0 < newZoom then 3.0 else newZoom;
      zoom := if 0.5 > inner then 0.5 else inner;
    }

    /** `resetView`: level rotation, zoom 1, model at the origin. */
    method ResetView()
      requires Valid()
      modifies this
      ensures Valid() && AtInitialView()
      ensures isLoading == old(isLoading)
    {
      rotation := Rotation(0, 0);
      zoom := 1.0;
      position := Origin;
    }
  }

  /** Resetting twice leaves the viewer as resetting once does. */
  method ResetTwice(viewer: Viewer) returns (afterOnce: Rotation, zoomOnce: real)
    requires viewer.Valid()
    modifies viewer
    ensures viewer.Valid() && viewer.AtInitialView()
    ensures viewer.rotation == afterOnce && viewer.zoom == zoomOnce
  {
    viewer.ResetView();
    afterOnce, zoomOnce := viewer.rotation, viewer.zoom;
    viewer.ResetView();
  }
}
