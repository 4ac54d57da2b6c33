/**
 * The exhibits page (`src/pages/Exhibits.tsx`): the search-and-category filter over the
 * artifact list, the slides handed to the image slider, the filter applied to those slides
 * and the result count line.
 */
module Exhibits {
  import opened Wrappers
  import Text
  import Seqs
  import ImageSlider

  datatype Artifact = Artifact(
    id: string, name: string, description: string, year: int, category: string,
    gallery: string, featured: bool, hasAudio: bool, has3D: bool, imageUrl: string)

  /** The six shipped artifacts; the image imports are represented by their asset names. */
  const Artifacts: seq<Artifact> := [
    Artifact("1", "Liberation War Rifle",
      "A .303 rifle used by Mukti Bahini fighters during the 1971 Liberation War.",
      1971, "Weapons", "Weapons & Equipment", true, true, true, "heroImage"),
    Artifact("2", "Freedom Fighter Helmet",
      "Military helmet worn by a freedom fighter in the Chittagong region.",
      1971, "Military Equipment", "Weapons & Equipment", true, true, true, "artifactsImage"),
    Artifact("3", "Declaration of Independence",
      "Original manuscript of the Independence Declaration broadcast.",
      1971, "Documents", "Documents Archive", true, true, false, "museumLogo"),
    Artifact("4", "Victory Medal",
      "Commemorative medal awarded to liberation war veterans.",
      1972, "Awards", "Liberation War Hall", false, true, true, "heroImage"),
    Artifact("5", "Martyrs Photograph Collection",
      "Rare photographs of martyred freedom fighters and civilians.",
      1971, "Photographs", "Photographic Gallery", true, true, false, "artifactsImage"),
    Artifact("6", "Liberation War Songs",
      "Original recordings of patriotic songs from the liberation period.",
      1971, "Audio", "Cultural Heritage", false, true, false, "museumLogo")
  ]

  /** The category buttons; "All" switches the category test off. */
  const Categories: seq<string> :=
    ["All", "Weapons", "Documents", "Photographs", "Military Equipment", "Awards", "Audio"]

  // ---------------------------------------------------------------------------
  // filteredArtifacts
  // ---------------------------------------------------------------------------

  /** The name or the description contains the term, ignoring case. */
  predicate MatchesSearch(a: Artifact, term: string)
    ensures term == "" ==> MatchesSearch(a, term)
    ensures MatchesSearch(a, term) ==> |term| <= |a.name| || |term| <= |a.description|
  {
    Text.EmptyTermIncluded(a.name);
    Text.IncludesIgnoringCase(a.name, term) || Text.IncludesIgnoringCase(a.description, term)
  }

  /** "All" lets every artifact through; any other category only the artifacts filed under it. */
  predicate MatchesCategory(a: Artifact, category: string)
    ensures category == "All" ==> MatchesCategory(a, category)
    ensures MatchesCategory(a, category) && a.category != category ==> category == "All"
  {
    category == "All" || a.category == category
  }

  /** An artifact is listed when both the search and the category accept it. */
  predicate Matches(a: Artifact, term: string, category: string)
    ensures term == "" && category == "All" ==> Matches(a, term, category)
    ensures Matches(a, term, category) ==> category == "All" || a.category == category
  {
    MatchesSearch(a, term) && MatchesCategory(a, category)
  }

  /** `filteredArtifacts` for the current search term and category. */
  function FilteredArtifacts(artifacts: seq<Artifact>, term: string, category: string): (r: seq<Artifact>)
    ensures |r| <= |artifacts|
    ensures forall a :: a in r <==>
      a in artifacts
      && (Text.IncludesIgnoringCase(a.name, term) || Text.IncludesIgnoringCase(a.description, term))
      && (category == "All" || a.category == category)
  {
    Seqs.Filter(artifacts, a => Matches(a, term, category))
  }

  /** The filter only deletes artifacts: nothing is added and the order is kept. */
  lemma FilteredIsSubsequence(artifacts: seq<Artifact>, term: string, category: string)
    ensures Seqs.IsSubsequence(FilteredArtifacts(artifacts, term, category), artifacts)
  {
    Seqs.FilterIsSubsequence(artifacts, a => Matches(a, term, category));
  }

  /** The initial page state (empty term, category "All") shows every artifact. */
  lemma EmptySearchShowsAll(artifacts: seq<Artifact>)
    ensures FilteredArtifacts(artifacts, "", "All") == artifacts
  {
    forall i | 0 <= i < |artifacts| ensures Matches(artifacts[i], "", "All") {
      Text.EmptyTermIncluded(artifacts[i].name);
    }
    Seqs.FilterKeepsAll(artifacts, a => Matches(a, "", "All"));
  }

  /** The year is never consulted, although the search box invites a search by year:
      changing an artifact's year never changes whether it is shown. */
  lemma YearNeverSearched(a: Artifact, year: int, term: string, category: string)
    ensures Matches(a.(year := year), term, category) == Matches(a, term, category)
  {
  }

  // ---------------------------------------------------------------------------
  // sliderImages and filteredSliderImages
  // ---------------------------------------------------------------------------

  /** The guide URL of an artifact. */
  function GuideUrl(id: string): (url: string)
    ensures Text.StartsWith(url, "/api/audio/") && Text.EndsWith(url, "-guide.mp3")
    ensures |url| == 21 + |id| && url[11..11 + |id|] == id
  {
    "/api/audio/" + id + "-guide.mp3"
  }

  /** One `sliderImages` entry: the artifact's id, its name as the title, its audio flag and
      its guide URL. */
  function ToSlide(a: Artifact): (s: ImageSlider.Slide)
    ensures s.id == a.id && s.title == a.name && s.hasAudio == a.hasAudio
    ensures s.audioUrl == Some(GuideUrl(a.id))
  {
    ImageSlider.Slide(a.id, a.name, a.hasAudio, Some(GuideUrl(a.id)))
  }

  /** Every slide carries a URL, so the slider offers a guide exactly for artifacts with audio. */
  lemma SlideGuideIffAudio(a: Artifact)
    ensures ImageSlider.HasGuide(ToSlide(a)) <==> a.hasAudio
  {
    assert GuideUrl(a.id) != [];
  }

  /** `sliderImages`: one slide per artifact, in the same order. */
  function SliderImages(artifacts: seq<Artifact>): (r: seq<ImageSlider.Slide>)
    ensures |r| == |artifacts|
    ensures forall i :: 0 <= i < |r| ==>
      r[i].id == artifacts[i].id && r[i].title == artifacts[i].name
      && r[i].audioUrl == Some("/api/audio/" + artifacts[i].id + "-guide.mp3")
  {
    Seqs.Map(artifacts, ToSlide)
  }

  /** `artifacts.find(a => a.id === id)`: the first artifact with the id, if any. */
  function Find(artifacts: seq<Artifact>, id: string): (r: Option<Artifact>)
    ensures r.Some? ==> r.value in artifacts && r.value.id == id
    ensures r.None? <==> forall a :: a in artifacts ==> a.id != id
    ensures r.Some? && artifacts != [] && artifacts[0].id == id ==> r.value == artifacts[0]
  {
    if artifacts == [] then None
    else if artifacts[0].id == id then Some(artifacts[0])
    else Find(artifacts[1..], id)
  }

  predicate UniqueIds(artifacts: seq<Artifact>)
  {
    forall i, j :: 0 <= i < j < |artifacts| ==> artifacts[i].id != artifacts[j].id
  }

  /** `find` returns the first match: the artifact at `k`, when `k` holds the id and no
      earlier artifact does. */
  lemma {:induction false} FindFirst(artifacts: seq<Artifact>, id: string, k: nat)
    requires k < |artifacts| && artifacts[k].id == id
    requires forall j :: 0 <= j < k ==> artifacts[j].id != id
    ensures Find(artifacts, id) == Some(artifacts[k])
    decreases k
  {
    if k > 0 {
      FindFirst(artifacts[1..], id, k - 1);
    }
  }

  /** A found artifact is the first one with the id: it sits at some index `k`, and no
      artifact before `k` has the id. */
  lemma FindIsFirst(artifacts: seq<Artifact>, id: string)
    ensures Find(artifacts, id).Some? ==>
      exists k :: 0 <= k < |artifacts| && artifacts[k] == Find(artifacts, id).value
        && forall j :: 0 <= j < k ==> artifacts[j].id != id
  {
    var r := Find(artifacts, id);
    if r.Some? {
      var m :| 0 <= m < |artifacts| && artifacts[m] == r.value;
      var k := 0;
      while artifacts[k].id != id
        invariant k <= m
        invariant forall j :: 0 <= j < k ==> artifacts[j].id != id
        decreases m - k
      {
        k := k + 1;
      }
      FindFirst(artifacts, id, k);
    }
  }

  /** With unique ids, looking up an artifact's id finds that artifact. */
  lemma FindUnique(artifacts: seq<Artifact>, j: nat)
    requires UniqueIds(artifacts) && j < |artifacts|
    ensures Find(artifacts, artifacts[j].id) == Some(artifacts[j])
  {
    FindFirst(artifacts, artifacts[j].id, j);
  }

  /** The test `filteredSliderImages` applies to a slide: the artifact found by the slide's id
      must match; a slide whose id finds no artifact is dropped. */
  predicate KeepSlide(artifacts: seq<Artifact>, term: string, category: string, s: ImageSlider.Slide)
    ensures KeepSlide(artifacts, term, category, s) ==>
      exists a :: a in artifacts && a.id == s.id && Matches(a, term, category)
    ensures (forall a :: a in artifacts ==> a.id != s.id) ==> !KeepSlide(artifacts, term, category, s)
  {
    match Find(artifacts, s.id)
    case None => false
    case Some(a) => Matches(a, term, category)
  }

  function FilteredSliderImages(artifacts: seq<Artifact>, term: string, category: string): (r: seq<ImageSlider.Slide>)
    ensures |r| <= |artifacts|
    ensures forall s :: s in r ==> s in SliderImages(artifacts)
  {
    Seqs.Filter(SliderImages(artifacts), s => KeepSlide(artifacts, term, category, s))
  }

  /** With unique ids the slider shows exactly the slides of the filtered artifacts, in the
      same order, so its ids are those of the list and grid views. */
  lemma SlidesFollowFilter(artifacts: seq<Artifact>, term: string, category: string)
    requires UniqueIds(artifacts)
    ensures FilteredSliderImages(artifacts, term, category)
         == SliderImages(FilteredArtifacts(artifacts, term, category))
    ensures var slides, kept := FilteredSliderImages(artifacts, term, category), FilteredArtifacts(artifacts, term, category);
      |slides| == |kept| && forall i :: 0 <= i < |slides| ==> slides[i].id == kept[i].id
  {
    var keep := s => KeepSlide(artifacts, term, category, s);
    var matches := a => Matches(a, term, category);
    forall a | a in artifacts ensures keep(ToSlide(a)) == matches(a) {
      var j :| 0 <= j < |artifacts| && artifacts[j] == a;
      FindUnique(artifacts, j);
    }
    Seqs.FilterMap(artifacts, ToSlide, keep, matches);
  }

  /** The shipped artifacts have unique ids. */
  lemma ShippedIdsUnique()
    ensures UniqueIds(Artifacts)
  {
    forall i, j | 0 <= i < j < |Artifacts| ensures Artifacts[i].id != Artifacts[j].id {
      ShippedId(i);
      ShippedId(j);
    }
  }

  /** The shipped artifact at position `i` has the id `i + 1`, one digit. */
  lemma ShippedId(i: nat)
    requires i < |Artifacts|
    ensures Artifacts[i].id == [('1' as int + i) as char]
  {
  }

  // ---------------------------------------------------------------------------
  // Result count
  // ---------------------------------------------------------------------------

  /** "Found N artifact(s)". */
  function CountLabel(n: nat): (r: string)
    ensures Text.StartsWith(r, "Found ")
    ensures n == 1 ==> Text.EndsWith(r, "artifact")
    ensures n != 1 ==> Text.EndsWith(r, "artifacts")
  {
    "Found " + Text.CountPhrase(n, "artifact")
  }

  /** The label says "artifacts" unless exactly one artifact is shown, and the number in it
      reads back as the count. */
  lemma CountLabelPlural(n: nat)
    ensures var l := CountLabel(n); l[|l| - 1] == 's' <==> n != 1
    ensures var l, k := CountLabel(n), |Text.NatToString(n)|;
      6 + k < |l| && Text.AllDigits(l[6..6 + k]) && Text.ParseDigits(l[6..6 + k]) == n
  {
    Text.CountPhrasePlural(n, "artifact");
    Text.CountPhraseReadsBack(n, "artifact");
    var l, p := CountLabel(n), Text.CountPhrase(n, "artifact");
    var k := |Text.NatToString(n)|;
    assert l[6..6 + k] == p[..k];
  }
}
