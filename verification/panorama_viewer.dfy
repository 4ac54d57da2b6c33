/**
 * The 360° viewer (`src/components/ui/panorama-viewer.tsx`): drag-to-rotate, wheel and button
 * zoom, wrap-around image navigation that also resets the view, the single audio guide and the
 * hotspot dialog. Coordinates and zoom are exact reals.
 */
module PanoramaViewer {
  import opened Wrappers
  import Carousel
  import opened Viewport

  /** The guide the audio button always plays, whatever the image. */
  const GuideUrl: string := "/api/audio/panorama-guide.mp3"

  /** Wheel and button zoom steps, and the degrees of rotation per pixel dragged. */
  const WheelStep: real := 0.1
  const ButtonStep: real := 0.2
  const DragFactor: real := 0.5

  datatype Hotspot = Hotspot(id: string, title: string, hasAudio: bool)

  datatype Panorama = Panorama(id: string, title: string, hotspots: seq<Hotspot>)

  /** The zoom after one wheel notch: out for a downward scroll, in otherwise, kept in range. */
  function WheelZoom(zoom: real, deltaY: real): (r: real)
    ensures InZoomRange(r)
    ensures deltaY > 0.0 ==> r == ClampZoom(zoom - WheelStep)
    ensures deltaY <= 0.0 ==> r == ClampZoom(zoom + WheelStep)
  {
    var delta := if deltaY > 0.0 then -WheelStep else WheelStep;
    if MinZoom > (if MaxZoom < zoom + delta then MaxZoom else zoom + delta) then MinZoom
    else if MaxZoom < zoom + delta then MaxZoom else zoom + delta
  }

  /** A wheel notch never zooms past the limits, and one notch each way from inside the range
      away from its edges comes back. */
  lemma WheelRoundTrip(zoom: real)
    requires MinZoom + WheelStep <= zoom <= MaxZoom - WheelStep
    ensures WheelZoom(WheelZoom(zoom, 1.0), -1.0) == zoom
    ensures WheelZoom(WheelZoom(zoom, -1.0), 1.0) == zoom
  {
  }

  /** Every field of the viewer that its handlers change, as one value. */
  datatype ViewerState = ViewerState(
    currentImageIndex: nat, rotationX: real, rotationY: real, zoom: real,
    isDragging: bool, dragStartX: real, dragStartY: real,
    isAudioPlaying: bool, audioElement: Option<string>, selectedHotspot: Option<Hotspot>)

  class Viewer {
    const images: seq<Panorama>
    var currentImageIndex: nat
    /** Degrees about the horizontal (`x`) and vertical (`y`) axes. */
    var rotationX: real
    var rotationY: real
    var zoom: real
    var isDragging: bool
    var dragStartX: real
    var dragStartY: real
    var isAudioPlaying: bool
    /** The URL of the last `new Audio(...)`, if one was created. */
    var audioElement: Option<string>
    var selectedHotspot: Option<Hotspot>

    /** The index names an image and the zoom lies in [0.5, 3]. */
    ghost predicate Valid()
      reads this
    {
      currentImageIndex < |images| && InZoomRange(zoom)
    }

    function Snapshot(): ViewerState
      reads this
    {
      ViewerState(currentImageIndex, rotationX, rotationY, zoom, isDragging, dragStartX, dragStartY,
                  isAudioPlaying, audioElement, selectedHotspot)
    }

    /** Rotation (0, 0) at zoom 1: the view `resetView` restores. */
    ghost predicate AtInitialView()
      reads this
    {
      rotationX == 0.0 && rotationY == 0.0 && zoom == 1.0
    }

    /** Opening the viewer. It reads `images[0]` while rendering, so `images` must not be empty. */
    constructor (images: seq<Panorama>)
      requires |images| > 0
      ensures Valid() && AtInitialView()
      ensures this.images == images && currentImageIndex == 0
      ensures !isDragging && dragStartX == 0.0 && dragStartY == 0.0
      ensures !isAudioPlaying && audioElement == None && selectedHotspot == None
    {
      this.images := images;
      currentImageIndex := 0;
      rotationX, rotationY, zoom := 0.0, 0.0, 1.0;
      isDragging := false;
      dragStartX, dragStartY := 0.0, 0.0;
      isAudioPlaying := false;
      audioElement := None;
      selectedHotspot := None;
    }

    /** `handleMouseDown`: starts a drag at the pointer. */
    method MouseDown(x: real, y: real)
      requires Valid()
      modifies this
      ensures Valid()
      ensures Snapshot() == old(Snapshot()).(isDragging := true, dragStartX := x, dragStartY := y)
    {
      isDragging := true;
      dragStartX, dragStartY := x, y;
    }

    /** `handleMouseMove`: ignored unless dragging; otherwise turns by half a degree per pixel
        moved since the last point (vertical motion about `x`, horizontal about `y`) and makes
        the pointer the new reference point. */
    method MouseMove(x: real, y: real)
      requires Valid()
      modifies this
      ensures Valid()
      ensures !old(isDragging) ==> Snapshot() == old(Snapshot())
      ensures old(isDragging) ==> Snapshot() == old(Snapshot()).(
        rotationX := old(rotationX) + DragFactor * (y - old(dragStartY)),
        rotationY := old(rotationY) + DragFactor * (x - old(dragStartX)),
        dragStartX := x, dragStartY := y)
    {
      if !isDragging {
        return;
      }
      var deltaX := x - dragStartX;
      var deltaY := y - dragStartY;
      rotationX := rotationX + deltaY * 0.5;
      rotationY := rotationY + deltaX * 0.5;
      dragStartX, dragStartY := x, y;
    }

    /** `handleMouseUp`, also bound to mouse-leave: ends the drag. */
    method MouseUp()
      requires Valid()
      modifies this
      ensures Valid()
      ensures Snapshot() == old(Snapshot()).(isDragging := false)
    {
      isDragging := false;
    }

    /** `handleWheel`. */
    method Wheel(deltaY: real)
      requires Valid()
      modifies this
      ensures Valid()
      ensures Snapshot() == old(Snapshot()).(zoom := WheelZoom(old(zoom), deltaY))
    {
      var delta := if deltaY > 0.0 then -0.1 else 0.1;
      var inner := if 3.0 < zoom + delta then 3.0 else zoom + delta;
      zoom := if 0.5 > inner then 0.5 else inner;
    }

    /** The zoom-in button: `Math.min(3, zoom + 0.2)`. */
    method ZoomIn()
      requires Valid()
      modifies this
      ensures Valid()
      ensures zoom == if old(zoom) + ButtonStep > MaxZoom then MaxZoom else old(zoom) + ButtonStep
      ensures zoom >= old(zoom)
      ensures Snapshot() == old(Snapshot()).(zoom := zoom)
    {
      zoom := if 3.0 < zoom + 0.2 then 3.0 else zoom + 0.2;
    }

    /** The zoom-out button: `Math.max(0.5, zoom - 0.2)`. */
    method ZoomOut()
      requires Valid()
      modifies this
      ensures Valid()
      ensures zoom == if old(zoom) - ButtonStep < MinZoom then MinZoom else old(zoom) - ButtonStep
      ensures zoom <= old(zoom)
      ensures Snapshot() == old(Snapshot()).(zoom := zoom)
    {
      zoom := if 0.5 > zoom - 0.2 then 0.5 else zoom - 0.2;
    }

    /** `resetView`: level rotation at zoom 1; nothing else changes. */
    method ResetView()
      requires Valid()
      modifies this
      ensures Valid() && AtInitialView()
      ensures Snapshot() == old(Snapshot()).(rotationX := 0.0, rotationY := 0.0, zoom := 1.0)
    {
      rotationX, rotationY := 0.0, 0.0;
      zoom := 1.0;
    }

    /** `goToNextImage`: the following image, with the view reset. */
    method GoToNextImage()
      requires Valid()
      modifies this
      ensures Valid() && AtInitialView()
      ensures currentImageIndex == Carousel.Next(old(currentImageIndex), |images|)
      ensures Snapshot() == old(Snapshot()).(currentImageIndex := currentImageIndex,
        rotationX := 0.0, rotationY := 0.0, zoom := 1.0)
    {
      currentImageIndex := (currentImageIndex + 1) % |images|;
      ResetView();
    }

    /** `goToPreviousImage`: the preceding image, with the view reset. */
    method GoToPreviousImage()
      requires Valid()
      modifies this
      ensures Valid() && AtInitialView()
      ensures currentImageIndex == Carousel.Prev(old(currentImageIndex), |images|)
      ensures Snapshot() == old(Snapshot()).(currentImageIndex := currentImageIndex,
        rotationX := 0.0, rotationY := 0.0, zoom := 1.0)
    {
      currentImageIndex := (currentImageIndex - 1 + |images|) % |images|;
      ResetView();
    }

    /** `toggleAudio`: pauses the guide, or starts a fresh element for the panorama guide. */
    method ToggleAudio()
      requires Valid()
      modifies this
      ensures Valid()
      ensures old(isAudioPlaying) ==> Snapshot() == old(Snapshot()).(isAudioPlaying := false)
      ensures !old(isAudioPlaying) ==>
        Snapshot() == old(Snapshot()).(isAudioPlaying := true, audioElement := Some(GuideUrl))
    {
      if isAudioPlaying {
        isAudioPlaying := false;
      } else {
        audioElement := Some(GuideUrl);
        isAudioPlaying := true;
      }
    }

    /** The `onended` callback of the guide element. */
    method AudioEnded()
      requires Valid()
      modifies this
      ensures Valid()
      ensures Snapshot() == old(Snapshot()).(isAudioPlaying := false)
    {
      isAudioPlaying := false;
    }

    /** Clicking a hotspot of the current image opens its dialog. */
    method SelectHotspot(h: Hotspot)
      requires Valid() && h in images[currentImageIndex].hotspots
      modifies this
      ensures Valid()
      ensures Snapshot() == old(Snapshot()).(selectedHotspot := Some(h))
    {
      selectedHotspot := Some(h);
    }

    /** The dialog's close button, and its "Play Audio Guide" button, which only closes it. */
    method CloseHotspot()
      requires Valid()
      modifies this
      ensures Valid()
      ensures Snapshot() == old(Snapshot()).(selectedHotspot := None)
    {
      selectedHotspot := None;
    }
  }

  /** Next then previous comes back to the same image, at the initial view. */
  method NextThenPrevious(viewer: Viewer)
    requires viewer.Valid()
    modifies viewer
    ensures viewer.Valid() && viewer.AtInitialView()
    ensures viewer.Snapshot() == old(viewer.Snapshot()).(rotationX := 0.0, rotationY := 0.0, zoom := 1.0)
  {
    viewer.GoToNextImage();
    viewer.GoToPreviousImage();
  }
}
