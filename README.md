# ManaHealth (Our-Health) — a Dafny model of its decision logic

ManaHealth is a bilingual (English/Telugu) disease-information site. A user
types a disease name. The site searches Wikipedia in the selected language
and lists the hits. When the user picks a hit, it fetches that article's
summary and shows a card with "symptoms" and "precautions" tabs, filled from
the article's first sections.

This project models the parts of the site that make decisions, one Dafny
module per source file:

- `WikipediaApi` (`wikipedia_api.dfy`): endpoint selection, the search
  fallback protocol and the three fetchers. The Wikipedia endpoints are
  oracle functions in the `Upstream` datatype; an oracle answers `None` when
  the request throws. `SearchWikipedia` is a total function that returns the
  results together with the trace of requests it issued.
- `LanguageContext` (`language_context.dfy`): both translation tables as an
  `Entry` tree, the dotted-key lookup `t` (a recursive specification
  `Translate` and the loop `LanguageProvider.T` proved equal to it), and the
  provider's language cell.
- `DiseaseInfoCard` (`disease_info_card.dfy`): the first-five slice, the
  `SectionData` mapping, the keyword section finders, the tab bodies, the
  article link, and the component state as the class `Card`.
- `IndexPage` (`index_page.dfy`): the search page's five state cells and its
  two handlers as the class `Page`. Each handler is split at its `await`
  and takes the upstream's answer as an argument.
- `SearchBar` (`search_bar.dfy`): `trim`, the blank-query check, the toast
  and the submit button.
- `SearchResults` (`search_results.dfy`): which of the four views is rendered.
- `Header` (`header.dfy`): the language toggle and the mobile-menu flag.
- `PredictDisease` (`predict_disease.dfy`): the page's one language test
  (see Findings).
- `Base` (`base.dfy`): `Option` and the two languages.

Modelling decisions:

- `t` has three outcomes: a string (`Text`), the sub-table a key names
  (`Node`), or a JavaScript `TypeError` (`Raised`). The error comes from
  `k in value` when `value` is a non-empty string. An empty string is falsy,
  so it counts as a miss.
- `trim` strips the ECMAScript WhiteSpace and LineTerminator code points.
  `toLowerCase` lowers only the ASCII letters; the Telugu keywords have no
  case.
- Section indices are digit strings (the subset type `Digits`). `parseInt`
  on them is `ParseDigits`.
- The Telugu fallback returns the Telugu endpoint's own answer for the
  linked title, as the code does. It is not a second full `searchWikipedia`,
  so there is no further fallback when that answer is empty.
  `WikipediaApi.BridgeAnswersLinkedTitle` states both facts.

## Model

| member | source | states |
|---|---|---|
| Base.Code | src/contexts/LanguageContext.tsx:4 | each language has a two-letter code; the code is `"te"` exactly for Telugu |
| WikipediaApi.ApiUrl | src/services/wikipediaAPI.ts:2-6 | the Telugu endpoint exactly when the code is `"te"`, the English endpoint exactly otherwise |
| WikipediaApi.SearchWikipedia | src/services/wikipediaAPI.ts:24-104 | one to four requests; the first is always a search for the term at the selected language's endpoint |
| WikipediaApi.FirstHitReturned | src/services/wikipediaAPI.ts:41-46 | a non-empty first answer is returned unchanged, and that first search is the only request |
| WikipediaApi.EnglishNeverFallsBack | src/services/wikipediaAPI.ts:48-99 | for English, an empty or failed first search gives `[]` after exactly one request |
| WikipediaApi.TeluguCallOrder | src/services/wikipediaAPI.ts:30-94 | for Telugu the calls are: Telugu search for the term, English search for the term, English langlinks of the top English title with `lllang=te`, Telugu search for the linked title. Each call is issued exactly when the call before it produced what it needs |
| WikipediaApi.NoEnglishHitIsEmpty | src/services/wikipediaAPI.ts:61-99 | in the Telugu fallback, an English search with no hits gives `[]` |
| WikipediaApi.NoLangLinkIsEmpty | src/services/wikipediaAPI.ts:77-99 | in the Telugu fallback, a top English hit without a Telugu link gives `[]` |
| WikipediaApi.BridgeAnswersLinkedTitle | src/services/wikipediaAPI.ts:80-94 | once the link exists, the result is the Telugu endpoint's answer for the linked title, even when that answer is empty; when that answer is non-empty, it equals a direct Telugu search for the linked title |
| WikipediaApi.AnyFailureIsEmpty | src/services/wikipediaAPI.ts:100-103 | a throw at any request of the trace makes the result `[]` |
| WikipediaApi.EarlierCallsAnswer | src/services/wikipediaAPI.ts:39-92 | every request before the last one in the trace answered; a failed request ends the chain |
| WikipediaApi.ResultIsLastAnswer | src/services/wikipediaAPI.ts:41-99 | the result is `[]` or, unchanged, the answer to the last request, which is a search |
| WikipediaApi.GetWikipediaContent | src/services/wikipediaAPI.ts:107-142 | a record exactly when the answer has `pages[pageId]`; the record holds that page's title, extract and thumbnail and the requested page id |
| WikipediaApi.SummaryKeepsPageId | src/services/wikipediaAPI.ts:127-141 | the record's `pageid` is the requested one; a failed request gives `null` |
| WikipediaApi.FailedFetchesDefault | src/services/wikipediaAPI.ts:165-197 | a section-listing request that throws gives `[]`; a section-text request that throws gives `''` |
| WikipediaApi.GetWikipediaSections | src/services/wikipediaAPI.ts:145-169 | the listed sections when `parse` is present, `[]` when it is absent or the request fails |
| WikipediaApi.GetWikipediaSectionContent | src/services/wikipediaAPI.ts:172-198 | the section's text when `parse` is present, `''` when it is absent or the request fails |
| LanguageContext.Translations | src/contexts/LanguageContext.tsx:74 | `translations[language]` is the selected language's table; both tables have the same top-level keys, strings everywhere except `hero` and `footer`, which hold only strings |
| LanguageContext.Split | src/contexts/LanguageContext.tsx:73 | `key.split('.')` always yields at least one segment |
| LanguageContext.SplitPartsHaveNoSeparator | src/contexts/LanguageContext.tsx:73 | no segment contains a dot |
| LanguageContext.JoinSplit | src/contexts/LanguageContext.tsx:73 | joining the segments with dots gives back the key |
| LanguageContext.SplitJoin | src/contexts/LanguageContext.tsx:73 | splitting dot-free segments joined by dots gives back the segments |
| LanguageContext.StepInto | src/contexts/LanguageContext.tsx:77-78 | one step descends exactly when the value is a table holding the segment, into that entry; it throws exactly on a non-empty string |
| LanguageContext.Walk | src/contexts/LanguageContext.tsx:76-83 | no segments leaves the value as it is; a walk that reaches an entry began by descending into a table that holds the first segment; on a string, any further segment throws if the string is non-empty and misses if it is empty |
| LanguageContext.Lookup | src/contexts/LanguageContext.tsx:72-86 | a miss on the way gives back the whole key; the lookup throws exactly when the walk throws; an object is returned only when the walk reaches a sub-table; a walk that reaches a string gives that string, and one that reaches a sub-table gives that sub-table |
| LanguageContext.Translate | src/contexts/LanguageContext.tsx:72-86 | with the site's tables, `t` returns an object rather than a string exactly for the keys `hero` and `footer` |
| LanguageContext.TableReachedOnlyAtNested | src/contexts/LanguageContext.tsx:76-85 | in a table whose only sub-tables hold strings, a walk ends on a sub-table only for a single segment naming one |
| LanguageContext.NodeExactlyForNestedKeys | src/contexts/LanguageContext.tsx:12-86 | in both languages, the lookup ends on a sub-table exactly for `hero` and `footer` |
| LanguageContext.WalkAppend | src/contexts/LanguageContext.tsx:76-83 | walking two runs of segments is walking the first, then the second from where the first stopped |
| LanguageContext.MissAnywhereGivesKey | src/contexts/LanguageContext.tsx:76-82 | a segment missing at its level, at any position, makes `t` return the whole original key |
| LanguageContext.SingleSegment | src/contexts/LanguageContext.tsx:72-85 | a dot-free key naming a string at the top level gives that string |
| LanguageContext.SingleSegmentMiss | src/contexts/LanguageContext.tsx:79-81 | a dot-free key absent from the top level gives the key itself |
| LanguageContext.DottedKeyDescends | src/contexts/LanguageContext.tsx:73-78 | `a.b` reads `b` inside the table stored under `a` |
| LanguageContext.SiteNameInEnglish | src/contexts/LanguageContext.tsx:14 | `t('siteName')` is `ManaHealth` in English |
| LanguageContext.HeroTitle | src/contexts/LanguageContext.tsx:29-31 | `t('hero.title')` is the `hero.title` string of the selected language's table |
| LanguageContext.WalkSameShape | src/contexts/LanguageContext.tsx:76-83 | walks over tables of the same shape both miss, both throw, or both reach entries of the same shape |
| LanguageContext.TablesSameShape | src/contexts/LanguageContext.tsx:13-64 | the English and Telugu tables have the same keys at every level, and their empty strings agree |
| LanguageContext.MissesAgree | src/contexts/LanguageContext.tsx:12-65 | a key misses in English exactly when it misses in Telugu; the same holds for throwing and for naming a sub-table |
| LanguageContext.LanguageIsNotAKey | src/contexts/LanguageContext.tsx:12-65 | `t('language')` is `'language'` in both languages |
| LanguageContext.LanguageProvider.constructor | src/contexts/LanguageContext.tsx:70 | the initial language is English |
| LanguageContext.LanguageProvider.SetLanguage | src/contexts/LanguageContext.tsx:70 | the language cell takes the new value |
| LanguageContext.LanguageProvider.T | src/contexts/LanguageContext.tsx:72-86 | the segment loop with its early exits gives exactly the recursive lookup `Translate` |
| DiseaseInfoCard.ParseShowNat | src/components/DiseaseInfoCard.tsx:156 | the decimal numeral of a page id reads back as that page id |
| DiseaseInfoCard.ParseDigits | src/components/DiseaseInfoCard.tsx:60 | `parseInt` of a digit string is zero exactly when every digit is `0` |
| DiseaseInfoCard.ShowNat | src/components/DiseaseInfoCard.tsx:156 | the numeral of a page id is a non-empty digit string without a leading zero |
| DiseaseInfoCard.NumberText | src/components/DiseaseInfoCard.tsx:156 | the text of a number is non-empty, starts with `-` exactly for a negative number, and is all digits otherwise |
| DiseaseInfoCard.Lower | src/components/DiseaseInfoCard.tsx:26 | lowercasing keeps the length and lowers each position on its own |
| DiseaseInfoCard.Includes | src/components/DiseaseInfoCard.tsx:26-35 | a title includes a keyword only if the keyword is no longer than the title (IncludesIffOccurs gives the full meaning) |
| DiseaseInfoCard.Matches | src/components/DiseaseInfoCard.tsx:25-36 | a title matches when its lowercased form includes one of the keywords |
| DiseaseInfoCard.IncludesIffOccurs | src/components/DiseaseInfoCard.tsx:26-27 | `includes` holds exactly when the keyword occurs at some position |
| DiseaseInfoCard.FirstMatch | src/components/DiseaseInfoCard.tsx:25-28 | the position of a matching section that no earlier section precedes; none exactly when no section matches |
| DiseaseInfoCard.FindSection | src/components/DiseaseInfoCard.tsx:25-36 | `find` gives nothing exactly when no lowercased title contains a keyword; otherwise the first matching section in list order |
| DiseaseInfoCard.FirstFive | src/components/DiseaseInfoCard.tsx:46 | `slice(0, 5)`: the first `min(5, n)` sections, unchanged and in order |
| DiseaseInfoCard.Load | src/components/DiseaseInfoCard.tsx:50-61 | one `SectionData`: title from `line`, index `parseInt(index)`, content fetched with that same index |
| DiseaseInfoCard.LoadedSections | src/components/DiseaseInfoCard.tsx:46-63 | one `SectionData` per kept section, in order: title from `line`, index `parseInt(index)`, content fetched with that same index |
| DiseaseInfoCard.OnlyFirstFiveConsidered | src/components/DiseaseInfoCard.tsx:46 | when none of the first five listed titles matches, nothing is found, whatever comes later |
| DiseaseInfoCard.NothingListedNothingFound | src/components/DiseaseInfoCard.tsx:43-46 | with no listed sections, neither finder finds a section |
| DiseaseInfoCard.BothTitleMatches | src/components/DiseaseInfoCard.tsx:25-36 | the title "Signs, Symptoms and Treatment" matches both keyword lists |
| DiseaseInfoCard.OneSectionCanServeBoth | src/components/DiseaseInfoCard.tsx:25-36 | one section can be both the symptoms section and the precautions section |
| DiseaseInfoCard.TabPane | src/components/DiseaseInfoCard.tsx:118-130 | a spinner exactly while loading; the section's content exactly when loaded and found; the fallback message exactly when loaded and not found |
| DiseaseInfoCard.SymptomsUnavailable | src/components/DiseaseInfoCard.tsx:126-128 | the English fallback message for English, the Telugu one for Telugu |
| DiseaseInfoCard.PrecautionsUnavailable | src/components/DiseaseInfoCard.tsx:142-144 | the English fallback message for English, the Telugu one for Telugu |
| DiseaseInfoCard.ArticleLinkNamesPage | src/components/DiseaseInfoCard.tsx:156 | the link is `https://{code}.wikipedia.org/?curid=` followed by a numeral that reads back as the page id |
| DiseaseInfoCard.ArticleLinkInjective | src/components/DiseaseInfoCard.tsx:156 | different pages, or different languages, never share a link |
| DiseaseInfoCard.ArticleLink | src/components/DiseaseInfoCard.tsx:156 | the link starts with `https://{code}.wikipedia.org/?curid=`, names the language's code, and continues with `-` exactly for a negative page id |
| DiseaseInfoCard.Card.constructor | src/components/DiseaseInfoCard.tsx:21-22 | the card starts with no sections, loading |
| DiseaseInfoCard.Card.FetchSections | src/components/DiseaseInfoCard.tsx:39-70 | the stored sections are the loaded first five; loading ends false |
| DiseaseInfoCard.Card.Refresh | src/components/DiseaseInfoCard.tsx:73-75 | sections are fetched exactly when the page id is non-zero; otherwise nothing changes |
| DiseaseInfoCard.Card.ChangeLanguage | src/components/DiseaseInfoCard.tsx:76 | a language change re-runs the fetch in the new language |
| DiseaseInfoCard.Card.SymptomsSection | src/components/DiseaseInfoCard.tsx:25-28 | nothing exactly when no stored section's title names symptoms; otherwise the first stored section, in list order, whose title does |
| DiseaseInfoCard.Card.PrecautionsSection | src/components/DiseaseInfoCard.tsx:30-36 | nothing exactly when no stored section's title names prevention, treatment or precautions; otherwise the first stored section, in list order, whose title does |
| DiseaseInfoCard.Card.SymptomsPane | src/components/DiseaseInfoCard.tsx:118-130 | the symptoms fallback message exactly when loading has finished and no section matches |
| DiseaseInfoCard.Card.PrecautionsPane | src/components/DiseaseInfoCard.tsx:134-146 | the precautions fallback message exactly when loading has finished and no section matches |
| DiseaseInfoCard.Card.FullArticleLink | src/components/DiseaseInfoCard.tsx:156 | the link is the current language's edition prefix followed by a numeral that reads back as the card's page id |
| IndexPage.Page.constructor | src/pages/Index.tsx:18-22 | no results, nothing selected, not searching, not loading, empty query |
| IndexPage.Page.BeginSearch | src/pages/Index.tsx:26-28 | before searching: searching, selection cleared, query stored; nothing else changes |
| IndexPage.Page.FinishSearch | src/pages/Index.tsx:30-38 | the answer, or `[]` on a throw, becomes the results; searching ends; nothing else changes |
| IndexPage.Page.HandleSearch | src/pages/Index.tsx:25-39 | afterwards the query is stored, nothing is selected, searching is over, and the results are `searchWikipedia(query, language)` in the current language |
| IndexPage.Page.BeginSelect | src/pages/Index.tsx:42 | content loading starts; nothing else changes |
| IndexPage.Page.FinishSelect | src/pages/Index.tsx:44-54 | non-null content becomes the selection and clears the results; `null` or a throw leaves both unchanged; loading ends false in every case |
| IndexPage.Page.HandleSelectResult | src/pages/Index.tsx:41-55 | the summary of the picked result's page, in the current language, is selected and the results cleared when it exists; otherwise both are unchanged; afterwards no shimmer, and the card is shown exactly when something is selected |
| IndexPage.Page.ShowsShimmer | src/pages/Index.tsx:82-84 | the shimmer is shown exactly while content loads, and never together with the card |
| IndexPage.Page.ShowsCard | src/pages/Index.tsx:86-90 | the card is shown exactly when a disease is selected and no content is loading |
| IndexPage.Page.ResultsView | src/pages/Index.tsx:75-80 | placeholders exactly while searching; the query message exactly for no results and a non-empty query; the generic message for no results and an empty query; cards exactly for non-empty results |
| IndexPage.Page.SearchButton | src/pages/Index.tsx:70-73 | the search button is disabled exactly while searching |
| IndexPage.SearchSettles | src/pages/Index.tsx:70-80 | after a search there are no placeholders, the button is enabled, and cards are shown exactly when the search found something |
| IndexPage.NoResultsBesideCard | src/pages/Index.tsx:46-49 | after a successful pick, with a non-empty query, the card is shown and the results view is the "no results found for" message for that query |
| IndexPage.ResultsArea | src/pages/Index.tsx:75-90 | the results area is hidden exactly while the disease card is shown, and otherwise is the results view |
| IndexPage.CardStandsAlone | src/pages/Index.tsx:41-55 | with the intended results area, a successful pick shows the card alone, and no "no results" message is ever shown beside a card |
| SearchBar.TrimStartSplits | src/components/SearchBar.tsx:22 | trimming the front removes a run of whitespace and stops at the first other character |
| SearchBar.TrimEndSplits | src/components/SearchBar.tsx:22 | trimming the back removes a run of whitespace and stops at the last other character |
| SearchBar.TrimShape | src/components/SearchBar.tsx:22 | `trim()` is a slice of the input with only whitespace around it, and it neither starts nor ends with whitespace |
| SearchBar.IsTrimmable | src/components/SearchBar.tsx:22 | the characters `trim` strips: tab, vertical tab, form feed, space, no-break space, byte order mark, the Unicode space separators and the line terminators |
| SearchBar.TrimStart | src/components/SearchBar.tsx:22 | dropping leading whitespace never lengthens the text (TrimStartSplits gives its shape) |
| SearchBar.TrimEnd | src/components/SearchBar.tsx:22 | dropping trailing whitespace never lengthens the text (TrimEndSplits gives its shape) |
| SearchBar.Trim | src/components/SearchBar.tsx:22 | `trim()` never lengthens the text, and its result neither starts nor ends with whitespace |
| SearchBar.BlankIffAllWhitespace | src/components/SearchBar.tsx:22 | the trimmed query is empty exactly when every character is whitespace |
| SearchBar.BlankQueryToast | src/components/SearchBar.tsx:23-29 | the toast is destructive; its English title and text appear exactly when the language is English; for Telugu the title is `లోపం` and the text `దయచేసి శోధన పదాన్ని నమోదు చేయండి` |
| SearchBar.SubmitButton | src/components/SearchBar.tsx:51-57 | disabled exactly while loading; captioned `t('loading')` while loading and `t('searchBtn')` otherwise |
| SearchBar.Bar.constructor | src/components/SearchBar.tsx:17 | the query starts empty |
| SearchBar.Bar.Change | src/components/SearchBar.tsx:44 | the query becomes the typed text |
| SearchBar.Bar.HandleSubmit | src/components/SearchBar.tsx:19-34 | the query reaches `onSearch` exactly when it has a non-whitespace character, then exactly as typed; otherwise it raises the destructive toast |
| SearchResults.QueryMessage | src/components/SearchResults.tsx:43-45 | for English the message is `No results found for "` + query + `". Try another search term.`; for Telugu it is `"` + query + `"` followed by the Telugu sentence; in both the query appears verbatim |
| SearchResults.Render | src/components/SearchResults.tsx:22-83 | three placeholders exactly while loading; the query message exactly for no results with a non-empty query; `t('noResults')` exactly for no results without a query; otherwise one card per result, in order, keyed by `pageid`, showing `snippet + '...'` |
| SearchResults.CardFor | src/components/SearchResults.tsx:67-80 | one card keyed by the result's page id, with its title, and its snippet followed by `...` |
| SearchResults.Truthy | src/components/SearchResults.tsx:37 | a `searchQuery` counts as given exactly when it is present and not empty |
| Header.Toggled | src/components/Header.tsx:19-21 | toggling always gives the other language |
| Header.ToggleTwice | src/components/Header.tsx:19-21 | toggling twice restores the language |
| Header.Bar.constructor | src/components/Header.tsx:17 | the menu starts closed |
| Header.Bar.OpenChange | src/components/Header.tsx:61 | the sheet's open-change handler sets the flag to the new value |
| Header.Bar.CloseButton | src/components/Header.tsx:80 | the close button closes the menu |
| Header.Bar.HomeLink | src/components/Header.tsx:90 | the Home link closes the menu |
| Header.Bar.PredictLink | src/components/Header.tsx:97 | the Predict link closes the menu |
| Header.Bar.ToggleLanguage | src/components/Header.tsx:19-21 | the context's language becomes the other one; the menu flag is untouched |
| PredictDisease.AlwaysTelugu | src/pages/PredictDisease.tsx:21-24 | as written, the page shows the Telugu sentence in both languages |
| PredictDisease.BlurbAsWritten | src/pages/PredictDisease.tsx:21-24 | as written, the page shows the English sentence exactly when `t('language')` is `'en'` |
| PredictDisease.Blurb | src/pages/PredictDisease.tsx:21-24 | the corrected choice: the English sentence exactly in English, the Telugu one exactly in Telugu |

## Left out

- HTTP `fetch`, `URL`/`searchParams` construction and JSON decoding: the upstream is the oracle datatype `Upstream`. Wikipedia's ranking and content are not modelled.
- `async`/`await` and the concurrency of `Promise.all`: the handlers run sequentially, and the section contents are an order-preserving map. Interleavings of two handlers are not modelled.
- `cleanHtml`: it relies on the browser DOM. A tab shows the section's raw content.
- Full Unicode `toLowerCase`: only ASCII letters are lowered.
- JavaScript's `in` also finds inherited properties such as `toString`. The model looks up only the table's own keys.
- `parseInt` on a non-numeric section index: indices are digit strings. Page ids are unbounded integers; JavaScript's float precision is not modelled.
- The catch branch of `fetchSections`: the two fetchers it calls catch their own errors, so with digit indices nothing reaches it.
- Rendering, styling, toast display, routing, `useIsMobile`, scrolling and logging. The Footer, HeroSection and Dashboard components are not part of this model. Of the prediction page, only its language test is modelled; the embedded third-party tool is not.
- A `parse` object present without `sections`, or without `text`, is folded into the absent answer of the `Upstream` oracles. The code gives the same default in both cases: `[]` through `|| []`, and `''` because the throw from reading `text['*']` is caught.

## Findings

| source | as written | input that shows it | evidently intended | confidence | as-written member | corrected member |
|---|---|---|---|---|---|---|
| src/pages/PredictDisease.tsx:21 | compares `t('language')` with `'en'`, but `'language'` is not a translation key, so `t` returns `'language'` | language English: the page shows the Telugu sentence | compare the selected language with `'en'` | high, not executed | PredictDisease.AlwaysTelugu | PredictDisease.Blurb |
| src/pages/Index.tsx:48 | a successful pick clears `searchResults` but keeps `searchQuery`, so `SearchResults` renders "No results found for …" above the card | search "malaria", then pick a hit whose summary exists: the card for malaria sits below "No results found for "malaria"" | no results message while the card is shown | medium, not executed | IndexPage.NoResultsBesideCard | IndexPage.ResultsArea |
