/**
 * The floor-by-floor tour (`src/components/tour/FloorBasedTour.tsx`): the floor and gallery
 * selection, the single audio flag, the tour step, and the audio key the tour derives from a
 * guide URL before asking the speech generator for it. Calls to `generateAudio` are recorded
 * in a log instead of being made.
 */
module FloorTour {
  import opened Wrappers
  import opened Text

  // ---------------------------------------------------------------------------
  // Audio keys
  // ---------------------------------------------------------------------------

  /** `s.split('/').pop()`: the text after the last `/`, or all of `s` when it has none. */
  function LastSegment(s: string): (r: string)
    ensures '/' !in r
    ensures EndsWith(s, r)
    ensures |r| < |s| ==> s[|s| - |r| - 1] == '/'
  {
    if s == [] then []
    else if s[|s| - 1] == '/' then []
    else LastSegment(s[..|s| - 1]) + [s[|s| - 1]]
  }

  /** `s.replace(sub, '')` with a non-empty string pattern: drops the first occurrence only. */
  function RemoveFirst(s: string, sub: string): (r: string)
    requires sub != []
    ensures |r| == |s| || |r| == |s| - |sub|
    ensures forall c :: c !in s ==> c !in r
    decreases |s|
  {
    if |s| < |sub| then s
    else if s[..|sub|] == sub then s[|sub|..]
    else [s[0]] + RemoveFirst(s[1..], sub)
  }

  /** Without an occurrence nothing is removed. */
  lemma {:induction false} RemoveFirstAbsent(s: string, sub: string)
    requires sub != [] && !Contains(s, sub)
    ensures RemoveFirst(s, sub) == s
    decreases |s|
  {
    if |s| >= |sub| {
      assert !MatchesAt(s, sub, 0);
      assert !Contains(s[1..], sub) by {
        if Contains(s[1..], sub) {
          var k :| 0 <= k <= |s[1..]| - |sub| && MatchesAt(s[1..], sub, k);
          assert s[k + 1..k + 1 + |sub|] == s[1..][k..k + |sub|];
          assert MatchesAt(s, sub, k + 1);
        }
      }
      RemoveFirstAbsent(s[1..], sub);
    }
  }

  /** With an occurrence, exactly the first one is cut out: if `sub` starts at `k` and at no
      earlier offset, the result is `s` without `s[k..k + |sub|]`. */
  lemma {:induction false} RemoveFirstAt(s: string, sub: string, k: nat)
    requires sub != [] && MatchesAt(s, sub, k)
    requires forall j :: 0 <= j < k ==> !MatchesAt(s, sub, j)
    ensures RemoveFirst(s, sub) == s[..k] + s[k + |sub|..]
    ensures |RemoveFirst(s, sub)| == |s| - |sub|
    decreases k
  {
    if k > 0 {
      assert !MatchesAt(s, sub, 0);
      assert MatchesAt(s[1..], sub, k - 1) by {
        assert s[1..][k - 1..k - 1 + |sub|] == s[k..k + |sub|];
      }
      forall j | 0 <= j < k - 1 ensures !MatchesAt(s[1..], sub, j) {
        assert !MatchesAt(s, sub, j + 1);
        assert s[1..][j..j + |sub|] == s[j + 1..j + 1 + |sub|];
      }
      RemoveFirstAt(s[1..], sub, k - 1);
      assert s[..k] == [s[0]] + s[1..][..k - 1];
      assert s[k + |sub|..] == s[1..][k - 1 + |sub|..];
    }
  }

  /** Whenever `sub` occurs, `replace` cuts out its first occurrence; together with
      `RemoveFirstAbsent`, the result is shorter exactly when `sub` occurs. */
  lemma RemoveFirstPresent(s: string, sub: string)
    requires sub != [] && Contains(s, sub)
    ensures exists k ::
      && MatchesAt(s, sub, k)
      && (forall j :: 0 <= j < k ==> !MatchesAt(s, sub, j))
      && RemoveFirst(s, sub) == s[..k] + s[k + |sub|..]
    ensures |RemoveFirst(s, sub)| == |s| - |sub|
  {
    var k := FirstMatch(s, sub);
    RemoveFirstAt(s, sub, k);
  }

  /** When the pattern's first character does not occur in `k`, the first occurrence in
      `k + sub` is the final one, and removing it leaves `k`. */
  lemma {:induction false} RemoveFirstTrailing(k: string, sub: string)
    requires sub != [] && sub[0] !in k
    ensures RemoveFirst(k + sub, sub) == k
    decreases |k|
  {
    if k == [] {
      assert (k + sub)[..|sub|] == sub;
    } else {
      var s := k + sub;
      assert s[..|sub|][0] == k[0];
      assert s[1..] == k[1..] + sub;
      RemoveFirstTrailing(k[1..], sub);
    }
  }

  /** The key `toggleAudio` derives from its argument, or `None` when it calls nothing: no URL,
      an empty URL, or an empty derived key (a URL ending in `/`). */
  function AudioKey(audioUrl: Option<string>): (r: Option<string>)
    ensures audioUrl.None? || audioUrl.value == [] ==> r.None?
    ensures r.Some? ==> r.value != [] && '/' !in r.value
    ensures audioUrl.Some? && EndsWith(audioUrl.value, "/") ==> r.None?
  {
    if audioUrl.None? || audioUrl.value == [] then None
    else
      var key := RemoveFirst(LastSegment(audioUrl.value), ".mp3");
      if key == [] then None else Some(key)
  }

  /** A guide URL `/api/audio/K.mp3` yields the key `K`, for a `K` without `/` or `.`. */
  lemma GuideUrlKey(k: string)
    requires k != [] && '/' !in k && '.' !in k
    ensures AudioKey(Some("/api/audio/" + k + ".mp3")) == Some(k)
  {
    var url := "/api/audio/" + k + ".mp3";
    var tail := k + ".mp3";
    assert url == "/api/audio/" + tail;
    LastSegmentAfterSlash("/api/audio", tail);
    assert "/api/audio/" == "/api/audio" + "/";
    assert url == "/api/audio" + "/" + tail;
    RemoveFirstTrailing(k, ".mp3");
  }

  /** The last segment of `p + "/" + t` is `t` when `t` has no `/`. */
  lemma {:induction false} LastSegmentAfterSlash(p: string, t: string)
    requires '/' !in t
    ensures LastSegment(p + "/" + t) == t
    decreases |t|
  {
    var s := p + "/" + t;
    if t == [] {
      assert s[|s| - 1] == '/';
    } else {
      assert s[..|s| - 1] == p + "/" + t[..|t| - 1];
      LastSegmentAfterSlash(p, t[..|t| - 1]);
      assert t == t[..|t| - 1] + [t[|t| - 1]];
    }
  }

  // ---------------------------------------------------------------------------
  // Difficulty badge
  // ---------------------------------------------------------------------------

  /** `getDifficultyColor`. */
  function DifficultyColor(difficulty: string): (c: string)
    ensures c == "bg-gray-500" <==> difficulty !in {"Easy", "Medium", "Hard"}
    ensures difficulty == "Easy" ==> c == "bg-green-500"
    ensures difficulty == "Medium" ==> c == "bg-yellow-500"
    ensures difficulty == "Hard" ==> c == "bg-red-500"
  {
    match difficulty
    case "Easy" => "bg-green-500"
    case "Medium" => "bg-yellow-500"
    case "Hard" => "bg-red-500"
    case _ => "bg-gray-500"
  }

  /** The three difficulties get three different colours. */
  lemma DifficultyColorsDistinct(a: string, b: string)
    requires a in {"Easy", "Medium", "Hard"} && b in {"Easy", "Medium", "Hard"} && a != b
    ensures DifficultyColor(a) != DifficultyColor(b)
  {
  }

  // ---------------------------------------------------------------------------
  // Floors and galleries
  // ---------------------------------------------------------------------------

  datatype Gallery = Gallery(id: string, name: string, hasAudio: bool, audioUrl: Option<string>)

  datatype Floor = Floor(id: string, name: string, difficulty: string, hasAudio: bool,
                         audioUrl: Option<string>, galleries: seq<Gallery>)

  /** A floor's guide URL, `/api/audio/<id>-guide.mp3`. */
  function FloorGuideUrl(id: string): string
  {
    "/api/audio/" + id + "-guide.mp3"
  }

  /** The key derived from a floor's guide URL is `<id>-guide`. */
  lemma FloorGuideKey(id: string)
    requires '/' !in id && '.' !in id
    ensures AudioKey(Some(FloorGuideUrl(id))) == Some(id + "-guide")
  {
    var k := id + "-guide";
    assert '/' !in k && '.' !in k by {
      assert k[|id|..] == "-guide";
    }
    assert FloorGuideUrl(id) == "/api/audio/" + k + ".mp3" by {
      assert "-guide.mp3" == "-guide" + ".mp3";
    }
    GuideUrlKey(k);
  }

  /** A floor whose guide URL follows the naming scheme has the key `<id>-guide`. */
  lemma FloorKeyOf(f: Floor)
    requires f.audioUrl == Some(FloorGuideUrl(f.id)) && '/' !in f.id && '.' !in f.id
    ensures AudioKey(f.audioUrl) == Some(f.id + "-guide")
  {
    FloorGuideKey(f.id);
  }

  function GalleryWithGuide(id: string, name: string): Gallery
  {
    Gallery(id, name, true, Some("/api/audio/" + id + ".mp3"))
  }

  const GroundFloor: Floor :=
    Floor("ground-floor", "Ground Floor", "Easy", true, Some(FloorGuideUrl("ground-floor")), [
      GalleryWithGuide("welcome-hall", "Welcome Hall"),
      GalleryWithGuide("timeline-gallery", "Timeline Gallery"),
      GalleryWithGuide("martyrs-memorial", "Martyrs Memorial")])

  const FirstFloor: Floor :=
    Floor("first-floor", "First Floor", "Medium", true, Some(FloorGuideUrl("first-floor")), [
      GalleryWithGuide("liberation-hall", "Liberation War Hall"),
      GalleryWithGuide("weapons-display", "Weapons & Equipment"),
      GalleryWithGuide("documents-archive", "Documents Archive")])

  const SecondFloor: Floor :=
    Floor("second-floor", "Second Floor", "Easy", true, Some(FloorGuideUrl("second-floor")), [
      GalleryWithGuide("photo-gallery", "Photographic Gallery"),
      GalleryWithGuide("cultural-heritage", "Cultural Heritage"),
      GalleryWithGuide("interactive-media", "Interactive Media Center")])

  /** The three shipped floors; each has a floor guide at `/api/audio/<floor id>-guide.mp3`. */
  const Floors: seq<Floor> := [GroundFloor, FirstFloor, SecondFloor]

  /** Every shipped floor has a difficulty with its own colour. */
  lemma ShippedDifficultiesColoured(i: nat)
    requires i < |Floors|
    ensures DifficultyColor(Floors[i].difficulty) != "bg-gray-500"
  {
  }

  /** The tour page's state. */
  class Tour {
    var selectedFloor: Floor
    var selectedGallery: Option<Gallery>
    var isAudioPlaying: bool
    /** Galleries visited; only ever set to 0. */
    var currentTourStep: nat
    /** The keys passed to `generateAudio`, oldest first. */
    var generated: seq<string>

    ghost predicate Valid()
      reads this
    {
      selectedFloor in Floors && currentTourStep == 0
    }

    /** First render: the ground floor, no gallery, no audio. */
    constructor ()
      ensures Valid()
      ensures selectedFloor == GroundFloor && selectedGallery == None
      ensures !isAudioPlaying && currentTourStep == 0 && generated == []
    {
      selectedFloor := GroundFloor;
      selectedGallery := None;
      isAudioPlaying := false;
      currentTourStep := 0;
      generated := [];
    }

    /** "Galleries visited: step/total" in the progress card. */
    function Progress(): (r: (nat, nat))
      requires Valid()
      reads this
      ensures r.0 == 0 && r.1 == |selectedFloor.galleries|
    {
      (currentTourStep, |selectedFloor.galleries|)
    }

    /** `toggleAudio`: stops when playing; otherwise starts, asking for the URL's key when one
        can be derived. */
    method ToggleAudio(audioUrl: Option<string>)
      requires Valid()
      modifies this
      ensures Valid()
      ensures isAudioPlaying == !old(isAudioPlaying)
      ensures old(isAudioPlaying) || AudioKey(audioUrl).None? ==> generated == old(generated)
      ensures !old(isAudioPlaying) && AudioKey(audioUrl).Some? ==>
        generated == old(generated) + [AudioKey(audioUrl).value]
      ensures selectedFloor == old(selectedFloor) && selectedGallery == old(selectedGallery)
    {
      if isAudioPlaying {
        isAudioPlaying := false;
      } else {
        isAudioPlaying := true;
        if audioUrl.Some? && audioUrl.value != [] {
          var audioKey := RemoveFirst(LastSegment(audioUrl.value), ".mp3");
          if audioKey != [] {
            generated := generated + [audioKey];
          }
        }
      }
    }

    /** `startFloorTour`: selects the floor, clears the gallery, resets the step, and toggles the
        audio when the floor has a guide, which stops a guide that was already playing. */
    method StartFloorTour(floor: Floor)
      requires Valid() && floor in Floors
      modifies this
      ensures Valid()
      ensures selectedFloor == floor && selectedGallery == None && currentTourStep == 0
      ensures !floor.hasAudio ==> isAudioPlaying == old(isAudioPlaying) && generated == old(generated)
      ensures floor.hasAudio ==> isAudioPlaying == !old(isAudioPlaying)
      ensures floor.hasAudio && !old(isAudioPlaying) && AudioKey(floor.audioUrl).Some? ==>
        generated == old(generated) + [AudioKey(floor.audioUrl).value]
      ensures old(isAudioPlaying) ==> generated == old(generated)
    {
      selectedFloor := floor;
      selectedGallery := None;
      currentTourStep := 0;
      if floor.hasAudio {
        ToggleAudio(floor.audioUrl);
      }
    }

    /** Clicking a gallery card of the selected floor. */
    method SelectGallery(gallery: Gallery)
      requires Valid() && gallery in selectedFloor.galleries
      modifies this
      ensures Valid()
      ensures selectedGallery == Some(gallery)
      ensures selectedFloor == old(selectedFloor) && isAudioPlaying == old(isAudioPlaying)
      ensures generated == old(generated)
    {
      selectedGallery := Some(gallery);
    }

    /** The gallery details' close button. */
    method CloseGallery()
      requires Valid()
      modifies this
      ensures Valid()
      ensures selectedGallery == None
      ensures selectedFloor == old(selectedFloor) && isAudioPlaying == old(isAudioPlaying)
      ensures generated == old(generated)
    {
      selectedGallery := None;
    }

    /** A gallery card's audio button: stops the click from reaching the card, so the selection
        is unchanged, and toggles the audio with the gallery's URL. */
    method GalleryAudio(gallery: Gallery)
      requires Valid() && gallery in selectedFloor.galleries
      modifies this
      ensures Valid()
      ensures selectedGallery == old(selectedGallery) && selectedFloor == old(selectedFloor)
      ensures isAudioPlaying == !old(isAudioPlaying)
      ensures old(isAudioPlaying) || AudioKey(gallery.audioUrl).None? ==> generated == old(generated)
      ensures !old(isAudioPlaying) && AudioKey(gallery.audioUrl).Some? ==>
        generated == old(generated) + [AudioKey(gallery.audioUrl).value]
    {
      ToggleAudio(gallery.audioUrl);
    }
  }

  /** The ground floor's guide is requested under the key `ground-floor-guide`. */
  lemma GroundFloorKey()
    ensures GroundFloor.hasAudio && AudioKey(GroundFloor.audioUrl) == Some("ground-floor-guide")
  {
    GroundKeyOf(GroundFloor);
  }

  lemma GroundKeyOf(f: Floor)
    requires f.id == "ground-floor" && f.audioUrl == Some(FloorGuideUrl(f.id))
    ensures AudioKey(f.audioUrl) == Some("ground-floor-guide")
  {
    FloorKeyOf(f);
    assert f.id + "-guide" == "ground-floor-guide";
  }

  /** Starting the ground-floor tour on a fresh page starts its guide under that key. */
  method StartGroundFloorScenario() returns (tour: Tour)
    ensures tour.Valid() && tour.isAudioPlaying
    ensures tour.generated == ["ground-floor-guide"]
  {
    tour := new Tour();
    GroundFloorKey();
    tour.StartFloorTour(GroundFloor);
  }
}
