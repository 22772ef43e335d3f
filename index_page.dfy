/**
 * The search page: five state cells, the two handlers that update them and
 * the conditions under which the shimmer and the disease card are shown.
 *
 * Each handler is split at its `await`: `Begin…` is what happens before the
 * upstream answers, `Finish…` what happens after, given the answer (`None`
 * when the awaited call throws).  `Handle…` runs both with the client's own
 * answer, as the page does.
 */
module IndexPage {
  import opened Base
  import opened WikipediaApi
  import SearchResults
  import SearchBar

  class Page {
    var searchResults: seq<SearchResult>
    var selectedDisease: Option<Content>
    var isSearching: bool
    var isLoadingContent: bool
    var searchQuery: string

    /** No results, nothing selected, not searching, not loading, empty query. */
    constructor ()
      ensures searchResults == [] && selectedDisease == None
      ensures !isSearching && !isLoadingContent && searchQuery == ""
    {
      searchResults := [];
      selectedDisease := None;
      isSearching := false;
      isLoadingContent := false;
      searchQuery := "";
    }

    /** `handleSearch` up to its `await`. */
    method BeginSearch(query: string)
      modifies this
      ensures isSearching && selectedDisease == None && searchQuery == query
      ensures searchResults == old(searchResults) && isLoadingContent == old(isLoadingContent)
    {
      isSearching := true;
      selectedDisease := None;
      searchQuery := query;
    }

    /** `handleSearch` after its `await`: the results, or `[]` when the search threw. */
    method FinishSearch(answer: Option<seq<SearchResult>>)
      modifies this
      ensures searchResults == answer.GetOr([]) && !isSearching
      ensures selectedDisease == old(selectedDisease) && searchQuery == old(searchQuery)
      ensures isLoadingContent == old(isLoadingContent)
    {
      match answer {
        case Some(results) => searchResults := results;
        case None => searchResults := [];
      }
      isSearching := false;
    }

    /** `handleSearch(query)` with the current language. */
    method HandleSearch(up: Upstream, language: Lang, query: string)
      modifies this
      ensures searchQuery == query && selectedDisease == None && !isSearching
      ensures searchResults == SearchWikipedia(up, query, language).results
      ensures isLoadingContent == old(isLoadingContent)
    {
      BeginSearch(query);
      FinishSearch(Some(SearchWikipedia(up, query, language).results));
    }

    /** `handleSelectResult` up to its `await`. */
    method BeginSelect()
      modifies this
      ensures isLoadingContent
      ensures searchResults == old(searchResults) && selectedDisease == old(selectedDisease)
      ensures isSearching == old(isSearching) && searchQuery == old(searchQuery)
    {
      isLoadingContent := true;
    }

    /**
     * `handleSelectResult` after its `await`: non-null content becomes the
     * selection and clears the results; `null` or a throw changes neither.
     */
    method FinishSelect(answer: Option<Option<Content>>)
      modifies this
      ensures !isLoadingContent
      ensures answer.Some? && answer.value.Some? ==>
        selectedDisease == answer.value && searchResults == []
      ensures !(answer.Some? && answer.value.Some?) ==>
        selectedDisease == old(selectedDisease) && searchResults == old(searchResults)
      ensures isSearching == old(isSearching) && searchQuery == old(searchQuery)
    {
      if answer.Some? && answer.value.Some? {
        selectedDisease := answer.value;
        searchResults := [];
      }
      isLoadingContent := false;
    }

    /** `handleSelectResult(result)`: the summary of the result's page, in the current language. */
    method HandleSelectResult(up: Upstream, language: Lang, result: SearchResult)
      modifies this
      ensures !isLoadingContent
      ensures var content := GetWikipediaContent(up, result.pageid, language);
        && (content.Some? ==> selectedDisease == content && searchResults == [])
        && (content.None? ==>
              selectedDisease == old(selectedDisease) && searchResults == old(searchResults))
      ensures isSearching == old(isSearching) && searchQuery == old(searchQuery)
      ensures ShowsCard() <==> selectedDisease.Some?
      ensures !ShowsShimmer()
    {
      BeginSelect();
      FinishSelect(Some(GetWikipediaContent(up, result.pageid, language)));
    }

    /** The shimmer placeholder is shown exactly while the content loads. */
    function ShowsShimmer(): (b: bool)
      reads this
      ensures b <==> isLoadingContent
      ensures b ==> !ShowsCard()
    {
      isLoadingContent
    }

    /** The disease card is shown exactly when a disease is selected and nothing is loading. */
    function ShowsCard(): (b: bool)
      reads this
      ensures b <==> selectedDisease.Some? && !isLoadingContent
    {
      selectedDisease.Some? && !isLoadingContent
    }

    /** What the results component shows for the current state: `isSearching` is its `isLoading`. */
    function ResultsView(language: Lang): (v: SearchResults.View)
      reads this
      ensures v == SearchResults.Placeholders(3) <==> isSearching
      ensures v.NoResultsFor? <==> !isSearching && searchResults == [] && searchQuery != ""
      ensures v.NoResults? <==> !isSearching && searchResults == [] && searchQuery == ""
      ensures v.Cards? <==> !isSearching && searchResults != []
    {
      SearchResults.Render(searchResults, isSearching, Some(searchQuery), language)
    }

    /** The search bar's button, driven by `isSearching`. */
    function SearchButton(language: Lang): (b: SearchBar.Button)
      reads this
      ensures b.disabled <==> isSearching
    {
      SearchBar.SubmitButton(isSearching, language)
    }
  }

  /**
   * Selecting a result clears `searchResults` but keeps `searchQuery`, so the
   * results component then renders its "no results found for" message for the
   * very query whose result is on show in the card below it.
   */
  method NoResultsBesideCard(page: Page, up: Upstream, language: Lang, result: SearchResult)
    requires !page.isSearching && page.searchQuery != ""
    requires GetWikipediaContent(up, result.pageid, language).Some?
    modifies page
    ensures page.ShowsCard()
    ensures page.ResultsView(language) == SearchResults.NoResultsFor(SearchResults.QueryMessage(language, page.searchQuery))
  {
    page.HandleSelectResult(up, language, result);
  }

  /**
   * The results area as intended: nothing while the disease card is on show,
   * otherwise what the results component renders.
   */
  function ResultsArea(page: Page, language: Lang): (v: Option<SearchResults.View>)
    reads page
    ensures v.None? <==> page.ShowsCard()
    ensures v.Some? ==> v.value == page.ResultsView(language)
  {
    if page.ShowsCard() then None else Some(page.ResultsView(language))
  }

  /** With the intended results area, a shown card is never paired with a "no results" message. */
  method CardStandsAlone(page: Page, up: Upstream, language: Lang, result: SearchResult)
    modifies page
    ensures GetWikipediaContent(up, result.pageid, language).Some? ==>
      page.ShowsCard() && ResultsArea(page, language) == None
    ensures var v := ResultsArea(page, language);
      v.Some? && (v.value.NoResultsFor? || v.value.NoResults?) ==> !page.ShowsCard()
  {
    page.HandleSelectResult(up, language, result);
  }

  /** After a search the placeholders are gone and the button is enabled again. */
  method SearchSettles(page: Page, up: Upstream, language: Lang, query: string)
    modifies page
    ensures page.ResultsView(language) != SearchResults.Placeholders(3)
    ensures !page.SearchButton(language).disabled
    ensures page.ResultsView(language).Cards? <==> SearchWikipedia(up, query, language).results != []
  {
    page.HandleSearch(up, language, query);
  }
}
