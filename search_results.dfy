/**
 * The search-results view: which of its four branches is shown, and the
 * cards of the result list.
 */
module SearchResults {
  import opened Base
  import opened WikipediaApi
  import LanguageContext

  /** One clickable card: keyed by page id, the snippet markup followed by an ellipsis. */
  datatype ResultCard = ResultCard(key: int, title: string, snippetHtml: string)

  /** The four things the component can render. */
  datatype View =
    | Placeholders(count: nat)
    | NoResultsFor(message: string)
    | NoResults(text: LanguageContext.Translation)
    | Cards(cards: seq<ResultCard>)

  /** A `searchQuery` prop that JavaScript treats as true: present and not empty. */
  predicate Truthy(searchQuery: Option<string>): (b: bool)
    ensures b <==> searchQuery.Some? && |searchQuery.value| > 0
  {
    searchQuery.Some? && searchQuery.value != ""
  }

  const EnQueryLead: string := "No results found for \""

  /** Where the query stands inside the query-specific message. */
  function QueryOffset(language: Lang): nat {
    if language == Te then 1 else |EnQueryLead|
  }

  /** The query-specific empty message: Telugu when the language is `'te'`, English otherwise. */
  function QueryMessage(language: Lang, query: string): (m: string)
    ensures QueryOffset(language) + |query| <= |m|
    ensures m[QueryOffset(language)..QueryOffset(language) + |query|] == query
    ensures language == En ==>
      m[..|EnQueryLead|] == EnQueryLead && m[|EnQueryLead| + |query|..] == "\". Try another search term."
    ensures language == Te ==>
      m[0] == '"' && m[1 + |query|..] == "\" కోసం ఫలితాలు కనుగొనబడలేదు. మరొక శోధన పదాన్ని ప్రయత్నించండి."
  {
    if language == Te then "\"" + query + "\" కోసం ఫలితాలు కనుగొనబడలేదు. మరొక శోధన పదాన్ని ప్రయత్నించండి."
    else EnQueryLead + query + "\". Try another search term."
  }

  /** The card for one result: keyed by its page id, its title, its snippet followed by an ellipsis. */
  function CardFor(r: SearchResult): (c: ResultCard)
    ensures c.key == r.pageid && c.title == r.title
    ensures |c.snippetHtml| == |r.snippet| + 3 && c.snippetHtml[..|r.snippet|] == r.snippet
    ensures c.snippetHtml[|r.snippet|..] == "..."
  {
    ResultCard(r.pageid, r.title, r.snippet + "...")
  }

  /** What `SearchResults` renders for its props. */
  function Render(results: seq<SearchResult>, isLoading: bool, searchQuery: Option<string>, language: Lang): (v: View)
    ensures v == Placeholders(3) <==> isLoading
    ensures v.NoResultsFor? <==> !isLoading && results == [] && Truthy(searchQuery)
    ensures v.NoResultsFor? ==> v.message == QueryMessage(language, searchQuery.value)
    ensures v.NoResults? <==> !isLoading && results == [] && !Truthy(searchQuery)
    ensures v.NoResults? ==> v.text == LanguageContext.Translate(language, "noResults")
    ensures v.Cards? <==> !isLoading && results != []
    ensures v.Cards? ==> |v.cards| == |results|
    ensures v.Cards? ==>
      forall i :: 0 <= i < |results| ==>
        v.cards[i] == ResultCard(results[i].pageid, results[i].title, results[i].snippet + "...")
  {
    if isLoading then Placeholders(3)
    else if |results| == 0 && Truthy(searchQuery) then NoResultsFor(QueryMessage(language, searchQuery.value))
    else if |results| == 0 then NoResults(LanguageContext.Translate(language, "noResults"))
    else Cards(seq(|results|, i requires 0 <= i < |results| => CardFor(results[i])))
  }
}
