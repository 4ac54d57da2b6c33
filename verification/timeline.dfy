/**
 * The timeline page (`src/pages/Timeline.tsx`): the selected event, the single "playing"
 * slot the audio buttons toggle, the badge mappings, and the casualty line.
 */
module Timeline {
  import opened Wrappers
  import Text

  datatype Category = Political | Military | Cultural | International

  datatype Significance = High | Medium | Low

  datatype Event = Event(id: string, category: Category, significance: Significance,
                         casualties: Option<int>, hasAudio: bool)

  /** The six shipped events; only the second reports casualties. */
  const Events: seq<Event> := [
    Event("1", Political, High, None, true),
    Event("2", Military, High, Some(50000), true),
    Event("3", Political, High, None, true),
    Event("4", Political, High, None, true),
    Event("5", International, High, None, true),
    Event("6", Military, High, None, true)
  ]

  // ---------------------------------------------------------------------------
  // The playing slot
  // ---------------------------------------------------------------------------

  /** `playingAudio === id ? null : id`. */
  function ToggledAudio(playing: Option<string>, id: string): (r: Option<string>)
    ensures playing == Some(id) ==> r == None
    ensures playing != Some(id) ==> r == Some(id)
  {
    if playing == Some(id) then None else Some(id)
  }

  /** From nothing playing, toggling the same event twice comes back to nothing playing. */
  lemma ToggleTwiceFromNone(id: string)
    ensures ToggledAudio(ToggledAudio(None, id), id) == None
  {
  }

  /** Toggling another event takes over the slot: at most one event is ever playing. */
  lemma ToggleReplaces(current: string, id: string)
    requires current != id
    ensures ToggledAudio(Some(current), id) == Some(id)
  {
  }

  /** Toggling the same event twice leaves it stopped, whatever was playing before. */
  lemma ToggleTwice(playing: Option<string>, id: string)
    ensures ToggledAudio(ToggledAudio(playing, id), id) == (if playing == Some(id) then Some(id) else None)
  {
  }

  // ---------------------------------------------------------------------------
  // Badges and the casualty line
  // ---------------------------------------------------------------------------

  /** The theme colour of a category's badge. */
  function Theme(c: Category): string
  {
    match c
    case Political => "primary"
    case Military => "secondary"
    case Cultural => "accent"
    case International => "muted"
  }

  /** `categoryColors`: a theme background with its matching foreground text colour. */
  function CategoryColor(c: Category): (cls: string)
    ensures Text.StartsWith(cls, "bg-") && Text.EndsWith(cls, "-foreground")
  {
    var t := Theme(c);
    var cls := "bg-" + t + " text-" + t + "-foreground";
    assert cls[..3] == "bg-";
    assert cls[|cls| - 11..] == "-foreground";
    cls
  }

  /** Every category has its own colour. */
  lemma CategoryColorsDistinct(a: Category, b: Category)
    requires a != b
    ensures CategoryColor(a) != CategoryColor(b)
  {
    ColorLetter(a);
    ColorLetter(b);
    assert Theme(a)[0] != Theme(b)[0];
  }

  /** The letter after `bg-` of each category's colour is its theme's first letter. */
  lemma ColorLetter(c: Category)
    ensures |CategoryColor(c)| > 3
    ensures CategoryColor(c)[3] == Theme(c)[0]
  {
    var t := Theme(c);
    assert CategoryColor(c) == "bg-" + t + " text-" + t + "-foreground";
  }

  /** The significance badge of the details panel: high, medium, and everything else. */
  function SignificanceClass(s: Significance): (cls: string)
    ensures s == High ==> cls == "border-accent text-accent"
    ensures s == Medium ==> cls == "border-secondary text-secondary"
    ensures s == Low ==> cls == "border-muted text-muted-foreground"
  {
    if s == High then "border-accent text-accent"
    else if s == Medium then "border-secondary text-secondary"
    else "border-muted text-muted-foreground"
  }

  /** What `{event.casualties && (...)}` renders: nothing for a missing count, the bare
      number 0 for a zero count, and the casualty line otherwise. */
  datatype CasualtyRender = NoLine | StrayZero | Line(count: int)

  function CasualtyLine(casualties: Option<int>): (r: CasualtyRender)
    ensures r.Line? <==> casualties.Some? && casualties.value != 0
    ensures r.Line? ==> r.count == casualties.value
    ensures r == StrayZero <==> casualties == Some(0)
  {
    match casualties
    case None => NoLine
    case Some(n) => if n == 0 then StrayZero else Line(n)
  }

  /** Among the shipped events only the second shows a casualty line, for 50000. */
  lemma ShippedCasualtyLines(i: nat)
    requires i < |Events|
    ensures CasualtyLine(Events[i].casualties) == if i == 1 then Line(50000) else NoLine
  {
  }

  // ---------------------------------------------------------------------------
  // The page
  // ---------------------------------------------------------------------------

  class TimelinePage {
    var selectedEvent: Option<Event>
    var playingAudio: Option<string>

    /** Only shipped events are ever selected or playing. */
    ghost predicate Valid()
      reads this
    {
      && (selectedEvent.Some? ==> selectedEvent.value in Events)
      && (playingAudio.Some? ==> exists e :: e in Events && e.id == playingAudio.value)
    }

    constructor ()
      ensures Valid() && selectedEvent == None && playingAudio == None
    {
      selectedEvent := None;
      playingAudio := None;
    }

    /** Clicking an event card selects its event. */
    method SelectEvent(event: Event)
      requires Valid() && event in Events
      modifies this
      ensures Valid()
      ensures selectedEvent == Some(event) && playingAudio == old(playingAudio)
    {
      selectedEvent := Some(event);
    }

    /** A card's audio button, which stops the click before it reaches the card: only the
        playing slot changes. */
    method CardAudio(event: Event)
      requires Valid() && event in Events && event.hasAudio
      modifies this
      ensures Valid()
      ensures playingAudio == ToggledAudio(old(playingAudio), event.id)
      ensures selectedEvent == old(selectedEvent)
    {
      playingAudio := if playingAudio == Some(event.id) then None else Some(event.id);
    }

    /** The details panel's audio button, for the selected event. */
    method DetailsAudio()
      requires Valid() && selectedEvent.Some? && selectedEvent.value.hasAudio
      modifies this
      ensures Valid()
      ensures playingAudio == ToggledAudio(old(playingAudio), old(selectedEvent).value.id)
      ensures selectedEvent == old(selectedEvent)
    {
      var id := selectedEvent.value.id;
      playingAudio := if playingAudio == Some(id) then None else Some(id);
    }
  }
}
