/**
 * The audio guide manager (`src/components/audio/AudioManager.tsx`): which guide is current,
 * whether it plays, the clock, and the volume controls. Speech goes through a synthesiser the
 * model does not contain: the texts handed to it are recorded in `spoken`, and the end of its
 * promise is the explicit step `SpeechFinished` or `SpeechFailed`. `Date.now()` is the
 * parameter `now` (milliseconds).
 */
module AudioManager {
  import opened Wrappers
  import Playback

  /** Speaking rate the duration estimate assumes. */
  const WordsPerMinute: real := 150.0

  /** Number of spaces in `s`. */
  function SpaceCount(s: string): (n: nat)
    ensures n <= |s|
  {
    if s == [] then 0 else (if s[0] == ' ' then 1 else 0) + SpaceCount(s[1..])
  }

  /** `content.split(' ').length`: one more than the number of spaces. */
  function WordCount(s: string): (n: nat)
    ensures 1 <= n <= |s| + 1
  {
    SpaceCount(s) + 1
  }

  /** Spaces in a concatenation add up. */
  lemma {:induction false} SpaceCountAppend(a: string, b: string)
    ensures SpaceCount(a + b) == SpaceCount(a) + SpaceCount(b)
    decreases |a|
  {
    if a == [] {
      assert a + b == b;
    } else {
      assert (a + b)[0] == a[0];
      assert (a + b)[1..] == a[1..] + b;
      SpaceCountAppend(a[1..], b);
    }
  }

  /** Joining two texts with one space joins their word counts. */
  lemma WordCountJoin(a: string, b: string)
    ensures WordCount(a + " " + b) == WordCount(a) + WordCount(b)
  {
    SpaceCountAppend(a + " ", b);
    SpaceCountAppend(a, " ");
  }

  /** The estimated length in seconds of a text read at 150 words per minute. */
  function EstimatedSeconds(content: string): (d: real)
    ensures d == (WordCount(content) as real) * 0.4
    ensures d > 0.0
  {
    (WordCount(content) as real) / WordsPerMinute * 60.0
  }

  /** Every field of the manager that its handlers change, as one value. */
  datatype ManagerState = ManagerState(
    currentAudio: Option<string>, isPlaying: bool, currentTime: real, totalDuration: real,
    volume: real, isMuted: bool, isLoading: bool, selectedCategory: string,
    startTime: real, estimatedDuration: real, spoken: seq<string>)

  class Manager {
    /** `audioGuides`: each guide's key and description. */
    const guides: map<string, string>
    /** `audioContent`: the narration text per key, where one exists. */
    const content: map<string, string>

    var currentAudio: Option<string>
    var isPlaying: bool
    var currentTime: real
    var totalDuration: real
    var volume: real
    var isMuted: bool
    var isLoading: bool
    var selectedCategory: string
    /** The `Date.now()` the clock counts from, in milliseconds. */
    var startTime: real
    var estimatedDuration: real
    /** Texts handed to the synthesiser, oldest first. */
    var spoken: seq<string>

    /** The current guide is a known one, the clock lies within the duration, and the mute
        flag matches a zero volume. */
    ghost predicate Valid()
      reads this
    {
      && (currentAudio.Some? ==> currentAudio.value in guides)
      && 0.0 <= currentTime <= totalDuration
      && 0.0 <= volume <= 1.0
      && (isMuted <==> volume == 0.0)
    }

    function Snapshot(): ManagerState
      reads this
    {
      ManagerState(currentAudio, isPlaying, currentTime, totalDuration, volume, isMuted, isLoading,
                   selectedCategory, startTime, estimatedDuration, spoken)
    }

    constructor (guides: map<string, string>, content: map<string, string>)
      ensures Valid()
      ensures this.guides == guides && this.content == content
      ensures Snapshot() == ManagerState(None, false, 0.0, 0.0, 1.0, false, false, "floor-tours", 0.0, 0.0, [])
    {
      this.guides := guides;
      this.content := content;
      currentAudio := None;
      isPlaying := false;
      currentTime, totalDuration := 0.0, 0.0;
      volume := 1.0;
      isMuted := false;
      isLoading := false;
      selectedCategory := "floor-tours";
      startTime, estimatedDuration := 0.0, 0.0;
      spoken := [];
    }

    /** The key has narration content that is a non-empty string. */
    predicate HasContent(key: string)
    {
      key in content && content[key] != ""
    }

    /** The narration for a key: its content when that is a non-empty string, else the
        guide's description. */
    function Narration(key: string): (text: string)
      requires key in guides
      ensures HasContent(key) ==> text == content[key]
      ensures !HasContent(key) ==> text == guides[key]
    {
      if key in content && content[key] != "" then content[key] else guides[key]
    }

    /** The state once `playAudio` has started `key` from `st`: the key is current and
        loading, the clock starts at 0 from `now`, its narration goes to the synthesiser, and
        the duration is estimated from the content when there is any (otherwise the previous
        one stays). Playing, volume, mute and category are untouched. */
    function Started(st: ManagerState, key: string, now: real): (r: ManagerState)
      requires key in guides
      ensures r.currentAudio == Some(key) && r.isLoading && r.currentTime == 0.0 && r.startTime == now
      ensures r.spoken == st.spoken + [Narration(key)]
      ensures HasContent(key) ==> r.totalDuration == r.estimatedDuration == EstimatedSeconds(content[key])
      ensures !HasContent(key) ==>
        r.totalDuration == st.totalDuration && r.estimatedDuration == st.estimatedDuration
      ensures r.isPlaying == st.isPlaying && r.volume == st.volume && r.isMuted == st.isMuted
      ensures r.selectedCategory == st.selectedCategory
    {
      var d := if HasContent(key) then EstimatedSeconds(content[key]) else st.totalDuration;
      var e := if HasContent(key) then EstimatedSeconds(content[key]) else st.estimatedDuration;
      st.(currentAudio := Some(key), isLoading := true, currentTime := 0.0, startTime := now,
          totalDuration := d, estimatedDuration := e, spoken := st.spoken + [Narration(key)])
    }

    /** `playAudio`, up to the point where it awaits the synthesiser. An unknown key changes
        nothing; the key that is playing stops; any other key is started. */
    method PlayAudio(key: string, now: real)
      requires Valid()
      modifies this
      ensures Valid()
      ensures key !in guides ==> Snapshot() == old(Snapshot())
      ensures key in guides && old(currentAudio) == Some(key) && old(isPlaying) ==>
        Snapshot() == old(Snapshot()).(currentAudio := None, isPlaying := false)
      ensures key in guides && !(old(currentAudio) == Some(key) && old(isPlaying)) ==>
        Snapshot() == Started(old(Snapshot()), key, now)
    {
      if key !in guides {
        return;
      }
      if currentAudio == Some(key) && isPlaying {
        isPlaying := false;
        currentAudio := None;
      } else {
        StartGuide(key, now);
      }
    }

    /** The start branch of `playAudio`: marks `key` current and loading, restarts the clock,
        estimates the duration from the content and hands the narration to the synthesiser. */
    method StartGuide(key: string, now: real)
      requires Valid() && key in guides
      modifies this
      ensures Valid()
      ensures Snapshot() == Started(old(Snapshot()), key, now)
    {
      var duration, estimate := totalDuration, estimatedDuration;
      if HasContent(key) {
        var wordCount := WordCount(content[key]);
        var estimatedMinutes := (wordCount as real) / 150.0;
        duration, estimate := estimatedMinutes * 60.0, estimatedMinutes * 60.0;
      }
      var text := Narration(key);
      currentAudio, isLoading, currentTime, startTime, totalDuration, estimatedDuration, spoken :=
        Some(key), true, 0.0, now, duration, estimate, spoken + [text];
    }

    /** The synthesiser's promise resolving: the guide counts as playing and no longer loading. */
    method SpeechFinished()
      requires Valid()
      modifies this
      ensures Valid()
      ensures Snapshot() == old(Snapshot()).(isPlaying := true, isLoading := false)
    {
      isPlaying := true;
      isLoading := false;
    }

    /** The synthesiser's promise rejecting: loading ends and no guide is current. */
    method SpeechFailed()
      requires Valid()
      modifies this
      ensures Valid()
      ensures Snapshot() == old(Snapshot()).(isLoading := false, currentAudio := None)
    {
      isLoading := false;
      currentAudio := None;
    }

    /** `togglePlayPause`: nothing without a current guide; otherwise pauses or resumes. */
    method TogglePlayPause()
      requires Valid()
      modifies this
      ensures Valid()
      ensures old(currentAudio).None? ==> Snapshot() == old(Snapshot())
      ensures old(currentAudio).Some? ==> Snapshot() == old(Snapshot()).(isPlaying := !old(isPlaying))
    {
      if currentAudio.None? {
        return;
      }
      isPlaying := !isPlaying;
    }

    /** `handleSeek` with slider value `v` out of 100: moves the clock and its origin. */
    method HandleSeek(v: real, now: real)
      requires Valid() && 0.0 <= v <= 100.0
      modifies this
      ensures Valid()
      ensures old(currentAudio).None? ==> Snapshot() == old(Snapshot())
      ensures old(currentAudio).Some? ==>
        var t := Playback.SeekTime(v, old(totalDuration));
        Snapshot() == old(Snapshot()).(currentTime := t, startTime := now - t * 1000.0)
    {
      if currentAudio.None? {
        return;
      }
      var newTime := (v / 100.0) * totalDuration;
      currentTime := newTime;
      startTime := now - newTime * 1000.0;
    }

    /** `handleVolumeChange` with slider value `v` out of 100: muted exactly at 0. */
    method HandleVolumeChange(v: real)
      requires Valid() && 0.0 <= v <= 100.0
      modifies this
      ensures Valid()
      ensures Snapshot() == old(Snapshot()).(volume := v / 100.0, isMuted := v == 0.0)
    {
      var newVolume := v / 100.0;
      volume := newVolume;
      isMuted := newVolume == 0.0;
    }

    /** `toggleMute`: muting drops the volume to 0, unmuting restores it to 1. */
    method ToggleMute()
      requires Valid()
      modifies this
      ensures Valid()
      ensures Snapshot() == old(Snapshot()).(isMuted := !old(isMuted),
        volume := if old(isMuted) then 1.0 else 0.0)
    {
      var wasMuted := isMuted;
      isMuted := !isMuted;
      if wasMuted {
        volume := 1.0;
      } else {
        volume := 0.0;
      }
    }

    /** `skipBackward`: ten seconds back, not before 0. */
    method SkipBackward(now: real)
      requires Valid()
      modifies this
      ensures Valid()
      ensures old(currentAudio).None? ==> Snapshot() == old(Snapshot())
      ensures old(currentAudio).Some? ==>
        var t := Playback.SkipBack(old(currentTime));
        Snapshot() == old(Snapshot()).(currentTime := t, startTime := now - t * 1000.0)
    {
      if currentAudio.None? {
        return;
      }
      var newTime := if 0.0 > currentTime - 10.0 then 0.0 else currentTime - 10.0;
      currentTime := newTime;
      startTime := now - newTime * 1000.0;
    }

    /** `skipForward`: ten seconds on, not past the duration. */
    method SkipForward(now: real)
      requires Valid()
      modifies this
      ensures Valid()
      ensures old(currentAudio).None? ==> Snapshot() == old(Snapshot())
      ensures old(currentAudio).Some? ==>
        var t := Playback.SkipAhead(old(currentTime), old(totalDuration));
        Snapshot() == old(Snapshot()).(currentTime := t, startTime := now - t * 1000.0)
    {
      if currentAudio.None? {
        return;
      }
      var newTime := if totalDuration < currentTime + 10.0 then totalDuration else currentTime + 10.0;
      currentTime := newTime;
      startTime := now - newTime * 1000.0;
    }

    /** `restart`: resets the clock and calls `playAudio` on the current guide. That call sees
        the state of the render the click came from, so on a guide that is playing it takes
        the stop branch and the guide stops instead of starting over. */
    method Restart(now: real)
      requires Valid()
      modifies this
      ensures Valid()
      ensures old(currentAudio).None? ==> Snapshot() == old(Snapshot())
      ensures old(currentAudio).Some? && old(isPlaying) ==>
        Snapshot() == old(Snapshot()).(currentAudio := None, isPlaying := false,
          currentTime := 0.0, startTime := now)
      ensures old(currentAudio).Some? && !old(isPlaying) ==>
        Snapshot() == Started(old(Snapshot()), old(currentAudio).value, now)
    {
      if currentAudio.None? {
        return;
      }
      currentTime := 0.0;
      startTime := now;
      PlayAudio(currentAudio.value, now);
    }

    /** A category button: only the category changes. */
    method SelectCategory(category: string)
      requires Valid()
      modifies this
      ensures Valid()
      ensures Snapshot() == old(Snapshot()).(selectedCategory := category)
    {
      selectedCategory := category;
    }

    /** The clock labels and the progress bar. */
    function Display(): (r: (string, string, real))
      requires Valid()
      reads this
      ensures r.0 == Playback.FormatTime(currentTime) && r.1 == Playback.FormatTime(totalDuration)
      ensures 0.0 <= r.2 <= 100.0
      ensures totalDuration == 0.0 ==> r.2 == 0.0
    {
      (Playback.FormatTime(currentTime), Playback.FormatTime(totalDuration),
       Playback.Progress(currentTime, totalDuration))
    }
  }
}
