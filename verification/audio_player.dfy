/**
 * The audio player widget (`src/components/ui/audio-player.tsx`). The `<audio>` element is
 * part of the state (`element...` fields): the handlers write to it, and its events, which
 * copy its values back into the React state, are explicit methods.
 */
module AudioPlayer {
  import Playback

  /** Every field of the player that changes, the element's and the React state's, as one value. */
  datatype PlayerState = PlayerState(
    elementTime: real, elementVolume: real, elementMuted: bool, elementPaused: bool,
    isPlaying: bool, currentTime: real, totalDuration: real, volume: real, isMuted: bool,
    isLoading: bool)

  class Player {
    /** Whether `audioRef.current` is set; every control does nothing while it is not. */
    const hasElement: bool

    // The element.
    var elementTime: real
    var elementVolume: real
    var elementMuted: bool
    var elementPaused: bool

    // The React state.
    var isPlaying: bool
    var currentTime: real
    var totalDuration: real
    var volume: real
    var isMuted: bool
    var isLoading: bool

    ghost predicate Valid()
      reads this
    {
      && 0.0 <= elementTime && 0.0 <= currentTime && 0.0 <= totalDuration
      && 0.0 <= volume <= 1.0 && 0.0 <= elementVolume <= 1.0
    }

    function Snapshot(): PlayerState
      reads this
    {
      PlayerState(elementTime, elementVolume, elementMuted, elementPaused,
                  isPlaying, currentTime, totalDuration, volume, isMuted, isLoading)
    }

    constructor (hasElement: bool)
      ensures Valid()
      ensures this.hasElement == hasElement
      ensures Snapshot() == PlayerState(0.0, 1.0, false, true, false, 0.0, 0.0, 1.0, false, false)
    {
      this.hasElement := hasElement;
      elementTime, elementVolume, elementMuted, elementPaused := 0.0, 1.0, false, true;
      isPlaying, currentTime, totalDuration := false, 0.0, 0.0;
      volume, isMuted, isLoading := 1.0, false, false;
    }

    // -------------------------------------------------------------------------
    // Controls
    // -------------------------------------------------------------------------

    /** `togglePlayPause`: pauses the element, or marks loading and starts it. The state's
        `isPlaying` follows later, through the element's `play` and `pause` events. */
    method TogglePlayPause()
      requires Valid()
      modifies this
      ensures Valid()
      ensures !hasElement ==> Snapshot() == old(Snapshot())
      ensures hasElement && old(isPlaying) ==> Snapshot() == old(Snapshot()).(elementPaused := true)
      ensures hasElement && !old(isPlaying) ==>
        Snapshot() == old(Snapshot()).(isLoading := true, elementPaused := false)
    {
      if !hasElement {
        return;
      }
      if isPlaying {
        elementPaused := true;
      } else {
        isLoading := true;
        elementPaused := false;
      }
    }

    /** `handleSeek` with slider value `v` out of 100. */
    method HandleSeek(v: real)
      requires Valid() && 0.0 <= v <= 100.0
      modifies this
      ensures Valid()
      ensures !hasElement ==> Snapshot() == old(Snapshot())
      ensures hasElement ==>
        var t := Playback.SeekTime(v, old(totalDuration));
        Snapshot() == old(Snapshot()).(elementTime := t, currentTime := t)
    {
      if !hasElement {
        return;
      }
      var newTime := (v / 100.0) * totalDuration;
      elementTime := newTime;
      currentTime := newTime;
    }

    /** `handleVolumeChange` with slider value `v` out of 100: muted exactly at 0. */
    method HandleVolumeChange(v: real)
      requires Valid() && 0.0 <= v <= 100.0
      modifies this
      ensures Valid()
      ensures !hasElement ==> Snapshot() == old(Snapshot())
      ensures hasElement ==>
        Snapshot() == old(Snapshot()).(elementVolume := v / 100.0, volume := v / 100.0, isMuted := v == 0.0)
    {
      if !hasElement {
        return;
      }
      var newVolume := v / 100.0;
      elementVolume := newVolume;
      volume := newVolume;
      isMuted := newVolume == 0.0;
    }

    /** `toggleMute`: flips the mute flag on the element and in the state; the volume is left
        as it is. */
    method ToggleMute()
      requires Valid()
      modifies this
      ensures Valid()
      ensures !hasElement ==> Snapshot() == old(Snapshot())
      ensures hasElement ==>
        Snapshot() == old(Snapshot()).(elementMuted := !old(isMuted), isMuted := !old(isMuted))
    {
      if !hasElement {
        return;
      }
      elementMuted := !isMuted;
      isMuted := !isMuted;
    }

    /** `skipBackward`: moves the element ten seconds back, not before 0. */
    method SkipBackward()
      requires Valid()
      modifies this
      ensures Valid()
      ensures !hasElement ==> Snapshot() == old(Snapshot())
      ensures hasElement ==> Snapshot() == old(Snapshot()).(elementTime := Playback.SkipBack(old(elementTime)))
    {
      if !hasElement {
        return;
      }
      elementTime := if 0.0 > elementTime - 10.0 then 0.0 else elementTime - 10.0;
    }

    /** `skipForward`: moves the element ten seconds on, not past the duration. */
    method SkipForward()
      requires Valid()
      modifies this
      ensures Valid()
      ensures !hasElement ==> Snapshot() == old(Snapshot())
      ensures hasElement ==>
        Snapshot() == old(Snapshot()).(elementTime := Playback.SkipAhead(old(elementTime), old(totalDuration)))
    {
      if !hasElement {
        return;
      }
      elementTime := if totalDuration < elementTime + 10.0 then totalDuration else elementTime + 10.0;
    }

    /** `restart`: back to the beginning, on the element and in the state. */
    method Restart()
      requires Valid()
      modifies this
      ensures Valid()
      ensures !hasElement ==> Snapshot() == old(Snapshot())
      ensures hasElement ==> Snapshot() == old(Snapshot()).(elementTime := 0.0, currentTime := 0.0)
    {
      if !hasElement {
        return;
      }
      elementTime := 0.0;
      currentTime := 0.0;
    }

    // -------------------------------------------------------------------------
    // Element events
    // -------------------------------------------------------------------------

    /** `loadedmetadata`: the duration is known and loading is over. */
    method LoadedMetadata(duration: real)
      requires Valid() && hasElement && duration >= 0.0
      modifies this
      ensures Valid()
      ensures Snapshot() == old(Snapshot()).(totalDuration := duration, isLoading := false)
    {
      totalDuration := duration;
      isLoading := false;
    }

    /** `timeupdate`: the state's clock catches up with the element. */
    method TimeUpdate()
      requires Valid() && hasElement
      modifies this
      ensures Valid()
      ensures Snapshot() == old(Snapshot()).(currentTime := old(elementTime))
    {
      currentTime := elementTime;
    }

    /** `play`: the element started; loading is left as it was. */
    method Play()
      requires Valid() && hasElement
      modifies this
      ensures Valid()
      ensures Snapshot() == old(Snapshot()).(isPlaying := true)
    {
      isPlaying := true;
    }

    /** `play`, clearing the loading mark as the play button needs. */
    method PlayClearingLoading()
      requires Valid() && hasElement
      modifies this
      ensures Valid()
      ensures Snapshot() == old(Snapshot()).(isPlaying := true, isLoading := false)
    {
      isPlaying := true;
      isLoading := false;
    }

    /** `pause`. */
    method Pause()
      requires Valid() && hasElement
      modifies this
      ensures Valid()
      ensures Snapshot() == old(Snapshot()).(isPlaying := false)
    {
      isPlaying := false;
    }

    /** `ended`: stopped, clock back at 0; an element that reaches its end is paused. */
    method Ended()
      requires Valid() && hasElement
      modifies this
      ensures Valid()
      ensures Snapshot() == old(Snapshot()).(isPlaying := false, currentTime := 0.0, elementPaused := true)
    {
      isPlaying := false;
      currentTime := 0.0;
      elementPaused := true;
    }

    /** `volumechange`: the state's volume and mute flag copy the element's. */
    method VolumeChanged()
      requires Valid() && hasElement
      modifies this
      ensures Valid()
      ensures Snapshot() == old(Snapshot()).(volume := old(elementVolume), isMuted := old(elementMuted))
    {
      volume := elementVolume;
      isMuted := elementMuted;
    }

    // -------------------------------------------------------------------------
    // What the controls show
    // -------------------------------------------------------------------------

    /** The play/pause button is disabled while loading. */
    predicate PlayPauseDisabled()
      reads this
      ensures PlayPauseDisabled() <==> isLoading
    {
      isLoading
    }

    /** `progressPercentage`. */
    function ProgressPercentage(): (r: real)
      reads this
      ensures totalDuration <= 0.0 ==> r == 0.0
      ensures totalDuration > 0.0 && 0.0 <= currentTime <= totalDuration ==> 0.0 <= r <= 100.0
      ensures totalDuration > 0.0 ==> Playback.SeekTime(r, totalDuration) == currentTime
    {
      var r := Playback.Progress(currentTime, totalDuration);
      assert totalDuration > 0.0 ==> Playback.SeekTime(r, totalDuration) == currentTime by {
        if totalDuration > 0.0 {
          Playback.SeekToProgress(currentTime, totalDuration);
        }
      }
      r
    }
  }

  /** Pressing play once the metadata is in leaves the button disabled for good: `play` does
      not clear the loading mark that `togglePlayPause` set, and only `loadedmetadata`, which
      has already fired, would. The playing guide can then no longer be paused from it. */
  method PlayLocksButton() returns (player: Player)
    ensures player.Valid() && player.hasElement
    ensures player.isPlaying && player.PlayPauseDisabled()
  {
    player := new Player(true);
    player.LoadedMetadata(120.0);
    player.TogglePlayPause();
    player.Play();
  }

  /** With `play` clearing the mark, the button stays usable and pauses the guide. */
  method PlayThenPause() returns (player: Player)
    ensures player.Valid() && player.hasElement
    ensures !player.isPlaying && !player.PlayPauseDisabled()
  {
    player := new Player(true);
    player.LoadedMetadata(120.0);
    player.TogglePlayPause();
    player.PlayClearingLoading();
    assert !player.PlayPauseDisabled();
    player.TogglePlayPause();
    player.Pause();
  }
}
