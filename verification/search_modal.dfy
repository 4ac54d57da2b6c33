/**
 * The site-wide search dialog (`src/components/search/SearchModal.tsx`): the result filter,
 * what the results area shows, and where a click on a result leads.
 */
module SearchModal {
  import opened Wrappers
  import Text
  import Seqs

  datatype Kind = Artifact | Gallery | TimelineEvent | Document

  /** The type buttons: "All Results" or one kind. */
  datatype TypeFilter = AllTypes | OnlyKind(kind: Kind)

  datatype SearchResult = SearchResult(
    id: string, title: string, kind: Kind, description: string,
    category: Option<string>, year: Option<int>, location: Option<string>)

  /** The four shipped results. */
  const SearchResults: seq<SearchResult> := [
    SearchResult("1", "Liberation War Rifle", Artifact,
      "A .303 rifle used by Mukti Bahini fighters during the 1971 Liberation War.",
      Some("Weapons"), Some(1971), Some("Weapons Gallery")),
    SearchResult("2", "March 7 Speech", TimelineEvent,
      "Sheikh Mujibur Rahman's historic speech that ignited the independence movement.",
      None, Some(1971), Some("Timeline Section")),
    SearchResult("3", "Martyrs Memorial Gallery", Gallery,
      "Gallery dedicated to the brave souls who sacrificed their lives for independence.",
      None, None, Some("Second Floor")),
    SearchResult("4", "Declaration of Independence", Document,
      "Original manuscript of the Independence Declaration.",
      Some("Documents"), Some(1971), Some("Documents Archive"))
  ]

  // ---------------------------------------------------------------------------
  // filteredResults
  // ---------------------------------------------------------------------------

  /** A result is listed when its title or description contains the term, ignoring case, and
      the type filter accepts its kind. */
  predicate Matches(r: SearchResult, term: string, filter: TypeFilter)
    ensures term == "" && filter == AllTypes ==> Matches(r, term, filter)
    ensures Matches(r, term, filter) ==> filter == AllTypes || filter.kind == r.kind
  {
    Text.EmptyTermIncluded(r.title);
    (Text.IncludesIgnoringCase(r.title, term) || Text.IncludesIgnoringCase(r.description, term))
    && (filter == AllTypes || filter == OnlyKind(r.kind))
  }

  /** `filteredResults` for the current term and type. */
  function FilteredResults(results: seq<SearchResult>, term: string, filter: TypeFilter): (r: seq<SearchResult>)
    ensures |r| <= |results|
    ensures forall x :: x in r <==>
      x in results
      && (Text.IncludesIgnoringCase(x.title, term) || Text.IncludesIgnoringCase(x.description, term))
      && (filter.AllTypes? || x.kind == filter.kind)
  {
    Seqs.Filter(results, x => Matches(x, term, filter))
  }

  /** The filter keeps the results in their order and adds none. */
  lemma FilteredIsSubsequence(results: seq<SearchResult>, term: string, filter: TypeFilter)
    ensures Seqs.IsSubsequence(FilteredResults(results, term, filter), results)
  {
    Seqs.FilterIsSubsequence(results, x => Matches(x, term, filter));
  }

  /** An empty term keeps every result of the selected type. */
  lemma EmptyTermKeepsAll(results: seq<SearchResult>)
    ensures FilteredResults(results, "", AllTypes) == results
  {
    forall i | 0 <= i < |results| ensures Matches(results[i], "", AllTypes) {
      Text.EmptyTermIncluded(results[i].title);
    }
    Seqs.FilterKeepsAll(results, x => Matches(x, "", AllTypes));
  }

  // ---------------------------------------------------------------------------
  // The results area
  // ---------------------------------------------------------------------------

  /** What the dialog renders: nothing while closed, the start prompt, the no-results notice,
      or the count line followed by the list. */
  datatype Screen =
    | Hidden
    | StartPrompt
    | NoResults
    | ResultList(countLine: string, results: seq<SearchResult>)

  /** "Found N result(s) for "term"". */
  function CountLine(n: nat, term: string): (r: string)
    ensures Text.StartsWith(r, "Found ")
    ensures Text.EndsWith(r, " for \"" + term + "\"")
  {
    "Found " + Text.CountPhrase(n, "result") + " for \"" + term + "\""
  }

  function Render(isOpen: bool, term: string, filter: TypeFilter): (s: Screen)
    ensures s == Hidden <==> !isOpen
    ensures s == StartPrompt <==> isOpen && term == ""
    ensures s == NoResults <==> isOpen && term != "" && FilteredResults(SearchResults, term, filter) == []
    ensures s.ResultList? ==>
      s.results == FilteredResults(SearchResults, term, filter) && s.results != []
      && s.countLine == CountLine(|s.results|, term)
  {
    if !isOpen then Hidden
    else if term == "" then StartPrompt
    else
      var results := FilteredResults(SearchResults, term, filter);
      if |results| == 0 then NoResults else ResultList(CountLine(|results|, term), results)
  }

  /** With an empty term the dialog shows the start prompt, although the filter would keep
      every shipped result. */
  lemma StartPromptHidesMatches()
    ensures Render(true, "", AllTypes) == StartPrompt
    ensures |FilteredResults(SearchResults, "", AllTypes)| == 4
  {
    EmptyTermKeepsAll(SearchResults);
  }

  /** Every listed result is one the filter keeps, and the list is never empty. */
  lemma ListedResultsMatch(isOpen: bool, term: string, filter: TypeFilter, x: SearchResult)
    requires Render(isOpen, term, filter).ResultList?
    requires x in Render(isOpen, term, filter).results
    ensures x in SearchResults && Matches(x, term, filter)
  {
  }

  // ---------------------------------------------------------------------------
  // Clicking a result
  // ---------------------------------------------------------------------------

  datatype Effect = Close | Navigate(path: string)

  /** The pages of the router (`src/App.tsx`). */
  const Routes: set<string> :=
    {"/", "/virtual-tour", "/floor-tour", "/exhibits", "/timeline", "/donors", "/auth"}

  /** The page a result of this kind leads to. */
  function RouteFor(kind: Kind): (path: string)
    ensures path in Routes
    ensures kind == Gallery <==> path == "/virtual-tour"
    ensures kind == TimelineEvent <==> path == "/timeline"
    ensures kind == Artifact || kind == Document <==> path == "/exhibits"
  {
    match kind
    case Gallery => "/virtual-tour"
    case TimelineEvent => "/timeline"
    case _ => "/exhibits"
  }

  /** A click closes the dialog first and then navigates once, to the page of the result's kind. */
  function ClickEffects(r: SearchResult): (effects: seq<Effect>)
    ensures |effects| == 2 && effects[0] == Close
    ensures effects[1].Navigate? && effects[1].path == RouteFor(r.kind)
  {
    [Close, Navigate(RouteFor(r.kind))]
  }
}
