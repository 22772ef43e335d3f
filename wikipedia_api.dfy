/**
 * The Wikipedia client: endpoint selection, the bilingual search-fallback
 * protocol and the three fetchers that turn an upstream answer into a
 * default-on-absence result.
 *
 * The HTTP endpoints are oracles.  Each oracle answers `None` when the
 * request (fetch or JSON decoding) throws, and otherwise the part of the
 * decoded JSON the client reads, with a missing part already replaced by
 * the value the client's `?.`/`||` chain substitutes for it where that is
 * an empty collection.
 */
module WikipediaApi {
  import opened Base

  const EnEndpoint: string := "https://en.wikipedia.org/w/api.php"
  const TeEndpoint: string := "https://te.wikipedia.org/w/api.php"

  /** The Telugu endpoint exactly for the code "te", the English one otherwise. */
  function ApiUrl(language: string): (url: string)
    ensures url == TeEndpoint <==> language == "te"
    ensures url == EnEndpoint <==> language != "te"
  {
    if language == "te" then TeEndpoint else EnEndpoint
  }

  /** One row of `query.search`. */
  datatype SearchResult = SearchResult(pageid: int, title: string, snippet: string)

  /** One entry of `query.pages`, as the summary request returns it. */
  datatype Page = Page(title: string, extract: string, thumbnail: Option<string>)

  /** `WikipediaContent`: the summary of one article. */
  datatype Content = Content(title: string, extract: string, thumbnail: Option<string>, pageid: int)

  /** A section index as Wikipedia writes it: a string of decimal digits. */
  type Digits = s: string | |s| > 0 && forall i :: 0 <= i < |s| ==> '0' <= s[i] <= '9'
    witness "0"

  /** One row of `parse.sections`: `index` and the heading text `line`. */
  datatype RawSection = RawSection(index: Digits, line: string)

  /** The requests the client issues, with the parameters that vary between calls. */
  datatype Request =
    | SearchRequest(endpoint: string, term: string)
    | LangLinksRequest(endpoint: string, title: string, lllang: string)
    | SummaryRequest(endpoint: string, pageId: int)
    | SectionsRequest(endpoint: string, pageId: int)
    | SectionTextRequest(endpoint: string, pageId: int, section: int)

  /**
   * The upstream service.  Every field is indexed by the endpoint the request
   * goes to and the parameters it carries.
   * - search: `query.search` (an absent list is `[]`);
   * - langLinks: the `langlinks` titles (`'*'`) of the first entry of
   *   `query.pages` (`[]` when there is no page or no link);
   * - summary: `query.pages` keyed by page id (`map[]` when absent);
   * - sections: `Some(rows)` when `parse` is present, `None` when not;
   * - sectionText: `Some(text['*'])` when `parse` is present, `None` when not.
   */
  datatype Upstream = Upstream(
    search: (string, string) -> Option<seq<SearchResult>>,
    langLinks: (string, string, string) -> Option<seq<string>>,
    summary: (string, int) -> Option<map<int, Page>>,
    sections: (string, int) -> Option<Option<seq<RawSection>>>,
    sectionText: (string, int, int) -> Option<Option<string>>)

  /** Whether the upstream throws on the request. */
  predicate Fails(up: Upstream, req: Request) {
    match req
    case SearchRequest(e, term) => up.search(e, term).None?
    case LangLinksRequest(e, title, ll) => up.langLinks(e, title, ll).None?
    case SummaryRequest(e, id) => up.summary(e, id).None?
    case SectionsRequest(e, id) => up.sections(e, id).None?
    case SectionTextRequest(e, id, s) => up.sectionText(e, id, s).None?
  }

  /** What `searchWikipedia` returns, with the requests it issued, in order. */
  datatype SearchRun = SearchRun(results: seq<SearchResult>, calls: seq<Request>)

  /**
   * `searchWikipedia(searchTerm, language)`: search the requested edition;
   * for Telugu only, when that is empty, search English, read the Telugu
   * inter-language link of the top English hit and search Telugu for the
   * linked title.  Any throw on the way yields `[]`.
   */
  function SearchWikipedia(up: Upstream, searchTerm: string, language: Lang): (run: SearchRun)
    ensures 1 <= |run.calls| <= 4
    ensures run.calls[0] == SearchRequest(ApiUrl(Code(language)), searchTerm)
  {
    var first := SearchRequest(ApiUrl(Code(language)), searchTerm);
    match up.search(first.endpoint, searchTerm)
    case None => SearchRun([], [first])
    case Some(results) =>
      if |results| > 0 then SearchRun(results, [first])
      else if language != Te then SearchRun([], [first])
      else
        var english := SearchRequest(EnEndpoint, searchTerm);
        match up.search(EnEndpoint, searchTerm)
        case None => SearchRun([], [first, english])
        case Some(enResults) =>
          if |enResults| == 0 then SearchRun([], [first, english])
          else
            var links := LangLinksRequest(EnEndpoint, enResults[0].title, "te");
            match up.langLinks(EnEndpoint, enResults[0].title, "te")
            case None => SearchRun([], [first, english, links])
            case Some(titles) =>
              if |titles| == 0 then SearchRun([], [first, english, links])
              else
                var telugu := SearchRequest(TeEndpoint, titles[0]);
                SearchRun(up.search(TeEndpoint, titles[0]).GetOr([]), [first, english, links, telugu])
  }

  /** `getWikipediaContent(pageId, language)`: the page's summary, or `null`. */
  function GetWikipediaContent(up: Upstream, pageId: int, language: Lang): (r: Option<Content>)
    ensures r.Some? <==>
      up.summary(ApiUrl(Code(language)), pageId).Some? &&
      pageId in up.summary(ApiUrl(Code(language)), pageId).value
    ensures r.Some? ==>
      var page := up.summary(ApiUrl(Code(language)), pageId).value[pageId];
      r.value == Content(page.title, page.extract, page.thumbnail, pageId)
  {
    match up.summary(ApiUrl(Code(language)), pageId)
    case None => None
    case Some(pages) =>
      if pageId in pages then
        var page := pages[pageId];
        Some(Content(page.title, page.extract, page.thumbnail, pageId))
      else None
  }

  /** `getWikipediaSections(pageId, language).sections`, `[]` on absence or failure. */
  function GetWikipediaSections(up: Upstream, pageId: int, language: Lang): (r: seq<RawSection>)
    ensures r != [] ==> up.sections(ApiUrl(Code(language)), pageId) == Some(Some(r))
    ensures (match up.sections(ApiUrl(Code(language)), pageId)
             case Some(Some(rows)) => r == rows
             case _ => r == [])
  {
    match up.sections(ApiUrl(Code(language)), pageId)
    case Some(Some(rows)) => rows
    case _ => []
  }

  /** `getWikipediaSectionContent(pageId, sectionIndex, language).content`, `''` on absence or failure. */
  function GetWikipediaSectionContent(up: Upstream, pageId: int, sectionIndex: int, language: Lang): (r: string)
    ensures r != "" ==> up.sectionText(ApiUrl(Code(language)), pageId, sectionIndex) == Some(Some(r))
    ensures (match up.sectionText(ApiUrl(Code(language)), pageId, sectionIndex)
             case Some(Some(text)) => r == text
             case _ => r == "")
  {
    match up.sectionText(ApiUrl(Code(language)), pageId, sectionIndex)
    case Some(Some(text)) => text
    case _ => ""
  }

  // ---------------------------------------------------------------------
  // Properties of the search protocol
  // ---------------------------------------------------------------------

  /** A non-empty first answer is returned unchanged and nothing else is asked. */
  lemma FirstHitReturned(up: Upstream, term: string, language: Lang, rs: seq<SearchResult>)
    requires up.search(ApiUrl(Code(language)), term) == Some(rs) && |rs| > 0
    ensures SearchWikipedia(up, term, language) == SearchRun(rs, [SearchRequest(ApiUrl(Code(language)), term)])
  {
  }

  /** English never falls back: an empty or failed search is `[]` after one request. */
  lemma EnglishNeverFallsBack(up: Upstream, term: string)
    requires up.search(EnEndpoint, term).GetOr([]) == []
    ensures SearchWikipedia(up, term, En) == SearchRun([], [SearchRequest(EnEndpoint, term)])
  {
  }

  /**
   * The Telugu call order: Telugu search for the term, English search for
   * the term, English langlinks of the top English title, Telugu search for
   * the linked title; each issued exactly when the one before it produced
   * what it needs.
   */
  lemma TeluguCallOrder(up: Upstream, term: string)
    ensures var calls := SearchWikipedia(up, term, Te).calls;
      && calls[0] == SearchRequest(TeEndpoint, term)
      && (|calls| >= 2 <==> up.search(TeEndpoint, term) == Some([]))
      && (|calls| >= 2 ==> calls[1] == SearchRequest(EnEndpoint, term))
      && (|calls| >= 3 <==> |calls| >= 2 && up.search(EnEndpoint, term).GetOr([]) != [])
      && (|calls| >= 3 ==>
            calls[2] == LangLinksRequest(EnEndpoint, up.search(EnEndpoint, term).value[0].title, "te"))
      && (|calls| == 4 <==>
            |calls| >= 3 &&
            up.langLinks(EnEndpoint, up.search(EnEndpoint, term).value[0].title, "te").GetOr([]) != [])
      && (|calls| == 4 ==>
            calls[3] == SearchRequest(TeEndpoint,
              up.langLinks(EnEndpoint, up.search(EnEndpoint, term).value[0].title, "te").value[0]))
  {
  }

  /** No English hit for a Telugu fallback: the result is `[]`. */
  lemma NoEnglishHitIsEmpty(up: Upstream, term: string)
    requires up.search(TeEndpoint, term) == Some([])
    requires up.search(EnEndpoint, term).GetOr([]) == []
    ensures SearchWikipedia(up, term, Te).results == []
  {
  }

  /** A top English hit without a Telugu inter-language link: the result is `[]`. */
  lemma NoLangLinkIsEmpty(up: Upstream, term: string, en: seq<SearchResult>)
    requires up.search(TeEndpoint, term) == Some([])
    requires up.search(EnEndpoint, term) == Some(en) && |en| > 0
    requires up.langLinks(EnEndpoint, en[0].title, "te").GetOr([]) == []
    ensures SearchWikipedia(up, term, Te).results == []
  {
  }

  /**
   * When the link exists, the result is the Telugu endpoint's own answer for
   * the linked title, even when that answer is empty.
   */
  lemma BridgeAnswersLinkedTitle(up: Upstream, term: string, en: seq<SearchResult>, links: seq<string>)
    requires up.search(TeEndpoint, term) == Some([])
    requires up.search(EnEndpoint, term) == Some(en) && |en| > 0
    requires up.langLinks(EnEndpoint, en[0].title, "te") == Some(links) && |links| > 0
    ensures SearchWikipedia(up, term, Te).results == up.search(TeEndpoint, links[0]).GetOr([])
    ensures up.search(TeEndpoint, links[0]).GetOr([]) != [] ==>
      SearchWikipedia(up, term, Te).results == SearchWikipedia(up, links[0], Te).results
  {
  }

  /** A request that throws, wherever it stands in the chain, makes the whole search `[]`. */
  lemma {:induction false} AnyFailureIsEmpty(up: Upstream, term: string, language: Lang, i: nat)
    requires i < |SearchWikipedia(up, term, language).calls|
    requires Fails(up, SearchWikipedia(up, term, language).calls[i])
    ensures SearchWikipedia(up, term, language).results == []
  {
    var run := SearchWikipedia(up, term, language);
    if i < |run.calls| - 1 {
      // An earlier request only leads on when it answered, so it cannot be the one that threw.
      EarlierCallsAnswer(up, term, language, i);
    }
  }

  /** Every request before the last one in the trace answered (none threw). */
  lemma EarlierCallsAnswer(up: Upstream, term: string, language: Lang, i: nat)
    requires i < |SearchWikipedia(up, term, language).calls| - 1
    ensures !Fails(up, SearchWikipedia(up, term, language).calls[i])
  {
  }

  /**
   * Whatever comes back is either `[]` or, unchanged, the non-throwing answer
   * to the last search request issued.
   */
  lemma ResultIsLastAnswer(up: Upstream, term: string, language: Lang)
    ensures var run := SearchWikipedia(up, term, language);
      var last := run.calls[|run.calls| - 1];
      run.results == [] ||
      (last.SearchRequest? && up.search(last.endpoint, last.term) == Some(run.results))
  {
  }

  /** A section listing or section text request that throws leaves its fetcher's default, `[]` or `''`. */
  lemma FailedFetchesDefault(up: Upstream, pageId: int, sectionIndex: int, language: Lang)
    ensures Fails(up, SectionsRequest(ApiUrl(Code(language)), pageId)) ==>
      GetWikipediaSections(up, pageId, language) == []
    ensures Fails(up, SectionTextRequest(ApiUrl(Code(language)), pageId, sectionIndex)) ==>
      GetWikipediaSectionContent(up, pageId, sectionIndex, language) == ""
  {
  }

  /** The summary carries the requested page id, whenever there is one. */
  lemma SummaryKeepsPageId(up: Upstream, pageId: int, language: Lang)
    ensures GetWikipediaContent(up, pageId, language).Some? ==>
      GetWikipediaContent(up, pageId, language).value.pageid == pageId
    ensures Fails(up, SummaryRequest(ApiUrl(Code(language)), pageId)) ==>
      GetWikipediaContent(up, pageId, language) == None
  {
  }
}
