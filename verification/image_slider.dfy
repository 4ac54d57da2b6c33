/**
 * The image slider (`src/components/ui/image-slider.tsx`): its five state cells and the
 * handlers that update them. The `setInterval` auto-advance is the explicit step `Tick`;
 * an audio element is represented by the URL it was created for.
 */
module ImageSlider {
  import opened Wrappers
  import Carousel

  /** One entry of the `images` prop, reduced to what the handlers read. */
  datatype Slide = Slide(id: string, title: string, hasAudio: bool, audioUrl: Option<string>)

  /** The slide offers a guide: `hasAudio` is set and `audioUrl` is a non-empty string. */
  predicate HasGuide(s: Slide)
  {
    s.hasAudio && s.audioUrl.Some? && s.audioUrl.value != ""
  }

  /** What the component renders, reduced to the controls the state decides. */
  datatype View =
    | NoImages
    | Showing(current: Slide, navigation: bool, playPauseButton: bool, audioButton: bool, audioModal: bool)

  class Slider {
    const images: seq<Slide>
    var currentIndex: nat
    /** Whether auto-advance is running. */
    var isPlaying: bool
    var isAudioPlaying: bool
    /** The URL of the last `new Audio(...)`, if one was created. */
    var audioElement: Option<string>
    var showAudioPlayer: bool

    ghost predicate Valid()
      reads this
    {
      |images| > 0 ==> currentIndex < |images|
    }

    /** First render: the first slide, auto-advance as requested, no audio. */
    constructor (images: seq<Slide>, autoPlay: bool)
      ensures Valid()
      ensures this.images == images && currentIndex == 0 && isPlaying == autoPlay
      ensures !isAudioPlaying && audioElement == None && !showAudioPlayer
    {
      this.images := images;
      currentIndex := 0;
      isPlaying := autoPlay;
      isAudioPlaying := false;
      audioElement := None;
      showAudioPlayer := false;
    }

    /** With no images only the "No images available" card is rendered and no slide is read. */
    function Render(): (v: View)
      requires Valid()
      reads this
      ensures v.NoImages? <==> |images| == 0
      ensures v.Showing? ==>
        && v.current == images[currentIndex]
        && (v.navigation <==> |images| > 1)
        && (v.playPauseButton <==> |images| > 1)
        && (v.audioButton <==> images[currentIndex].hasAudio)
        && (v.audioModal <==> showAudioPlayer && images[currentIndex].hasAudio)
    {
      if |images| == 0 then NoImages
      else
        var s := images[currentIndex];
        Showing(s, |images| > 1, |images| > 1, s.hasAudio, showAudioPlayer && s.hasAudio)
    }

    /** `goToNext`: the following slide, wrapping from the last to the first. */
    method GoToNext()
      requires Valid() && |images| > 0
      modifies this
      ensures Valid()
      ensures currentIndex == Carousel.Next(old(currentIndex), |images|)
      ensures isPlaying == old(isPlaying) && isAudioPlaying == old(isAudioPlaying)
      ensures audioElement == old(audioElement) && showAudioPlayer == old(showAudioPlayer)
    {
      currentIndex := (currentIndex + 1) % |images|;
    }

    /** `goToPrevious`: the preceding slide, wrapping from the first to the last. */
    method GoToPrevious()
      requires Valid() && |images| > 0
      modifies this
      ensures Valid()
      ensures currentIndex == Carousel.Prev(old(currentIndex), |images|)
      ensures isPlaying == old(isPlaying) && isAudioPlaying == old(isAudioPlaying)
      ensures audioElement == old(audioElement) && showAudioPlayer == old(showAudioPlayer)
    {
      currentIndex := (currentIndex - 1 + |images|) % |images|;
    }

    /** `goToSlide`, called from thumbnail `index`. */
    method GoToSlide(index: nat)
      requires Valid() && index < |images|
      modifies this
      ensures Valid()
      ensures currentIndex == index
      ensures isPlaying == old(isPlaying) && isAudioPlaying == old(isAudioPlaying)
      ensures audioElement == old(audioElement) && showAudioPlayer == old(showAudioPlayer)
    {
      currentIndex := index;
    }

    /** `togglePlayPause`: starts or stops auto-advance. */
    method TogglePlayPause()
      requires Valid()
      modifies this
      ensures Valid()
      ensures isPlaying == !old(isPlaying)
      ensures currentIndex == old(currentIndex) && isAudioPlaying == old(isAudioPlaying)
      ensures audioElement == old(audioElement) && showAudioPlayer == old(showAudioPlayer)
    {
      isPlaying := !isPlaying;
    }

    /** One firing of the auto-advance interval, which exists only while playing with more
        than one slide. */
    method Tick()
      requires Valid()
      modifies this
      ensures Valid()
      ensures isPlaying && |images| > 1 ==> currentIndex == Carousel.Next(old(currentIndex), |images|)
      ensures !(isPlaying && |images| > 1) ==> currentIndex == old(currentIndex)
      ensures isPlaying == old(isPlaying) && isAudioPlaying == old(isAudioPlaying)
      ensures audioElement == old(audioElement) && showAudioPlayer == old(showAudioPlayer)
    {
      if isPlaying && |images| > 1 {
        currentIndex := (currentIndex + 1) % |images|;
      }
    }

    /** `toggleAudio`: does nothing for a slide without a guide; otherwise pauses the playing
        guide, or creates and starts an element for the current slide's URL. */
    method ToggleAudio()
      requires Valid() && |images| > 0
      modifies this
      ensures Valid()
      ensures !HasGuide(images[currentIndex]) ==>
        isAudioPlaying == old(isAudioPlaying) && audioElement == old(audioElement)
      ensures HasGuide(images[currentIndex]) && old(isAudioPlaying) ==>
        !isAudioPlaying && audioElement == old(audioElement)
      ensures HasGuide(images[currentIndex]) && !old(isAudioPlaying) ==>
        isAudioPlaying && audioElement == images[currentIndex].audioUrl
      ensures currentIndex == old(currentIndex) && isPlaying == old(isPlaying)
      ensures showAudioPlayer == old(showAudioPlayer)
    {
      var current := images[currentIndex];
      if !HasGuide(current) {
        return;
      }
      if isAudioPlaying {
        isAudioPlaying := false;
      } else {
        audioElement := current.audioUrl;
        isAudioPlaying := true;
      }
    }

    /** The `onended` callback of the element `toggleAudio` started. */
    method AudioEnded()
      requires Valid()
      modifies this
      ensures Valid()
      ensures !isAudioPlaying
      ensures currentIndex == old(currentIndex) && isPlaying == old(isPlaying)
      ensures audioElement == old(audioElement) && showAudioPlayer == old(showAudioPlayer)
    {
      isAudioPlaying := false;
    }

    /** `openAudioPlayer`: shows the guide dialog only for a slide with a guide. */
    method OpenAudioPlayer()
      requires Valid() && |images| > 0
      modifies this
      ensures Valid()
      ensures showAudioPlayer == (old(showAudioPlayer) || HasGuide(images[currentIndex]))
      ensures currentIndex == old(currentIndex) && isPlaying == old(isPlaying)
      ensures isAudioPlaying == old(isAudioPlaying) && audioElement == old(audioElement)
    {
      var current := images[currentIndex];
      if current.hasAudio && current.audioUrl.Some? && current.audioUrl.value != "" {
        showAudioPlayer := true;
      }
    }

    /** The dialog's close button. */
    method CloseAudioPlayer()
      requires Valid()
      modifies this
      ensures Valid()
      ensures !showAudioPlayer
      ensures currentIndex == old(currentIndex) && isPlaying == old(isPlaying)
      ensures isAudioPlaying == old(isAudioPlaying) && audioElement == old(audioElement)
    {
      showAudioPlayer := false;
    }
  }

  /** Pressing "next" as many times as there are slides shows the starting slide again. */
  method FullRound(slider: Slider) returns (start: nat)
    requires slider.Valid() && |slider.images| > 0
    modifies slider
    ensures slider.Valid()
    ensures start == old(slider.currentIndex) && slider.currentIndex == start
  {
    start := slider.currentIndex;
    var n := |slider.images|;
    var k := 0;
    while k < n
      invariant 0 <= k <= n
      invariant slider.Valid()
      invariant slider.currentIndex == Carousel.Advance(start, n, k)
    {
      slider.GoToNext();
      k := k + 1;
    }
    Carousel.FullCycle(start, n);
  }
}
