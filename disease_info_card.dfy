/**
 * The disease card: which sections it loads, how it recognises the
 * "symptoms" and "precautions" sections by their titles, what each tab
 * shows and the link to the full article.
 */
module DiseaseInfoCard {
  import opened Base
  import opened WikipediaApi

  // ---------------------------------------------------------------------
  // Decimal numerals: `parseInt` on a section index and `${pageid}`
  // ---------------------------------------------------------------------

  predicate IsDigit(c: char) {
    '0' <= c <= '9'
  }

  predicate AllDigits(s: string) {
    forall i :: 0 <= i < |s| ==> IsDigit(s[i])
  }

  function DigitChar(d: nat): char
    requires d < 10
  {
    "0123456789"[d]
  }

  function DigitValue(c: char): (d: nat)
    requires IsDigit(c)
    ensures d < 10
  {
    c as int - '0' as int
  }

  /** `parseInt(s, 10)` on a string of decimal digits. */
  function ParseDigits(s: string): (n: nat)
    requires AllDigits(s)
    ensures n == 0 <==> forall i :: 0 <= i < |s| ==> s[i] == '0'
    decreases |s|
  {
    if |s| == 0 then 0 else ParseDigits(s[..|s| - 1]) * 10 + DigitValue(s[|s| - 1])
  }

  /** The decimal numeral of `n`, without leading zeros. */
  function ShowNat(n: nat): (s: string)
    ensures |s| > 0 && AllDigits(s)
    ensures |s| > 1 ==> s[0] != '0'
    decreases n
  {
    if n < 10 then [DigitChar(n)] else ShowNat(n / 10) + [DigitChar(n % 10)]
  }

  /** A JavaScript integer converted to a string. */
  function NumberText(n: int): (s: string)
    ensures |s| > 0
    ensures s[0] == '-' <==> n < 0
    ensures n >= 0 ==> AllDigits(s)
  {
    if n < 0 then "-" + ShowNat(-n) else ShowNat(n)
  }

  /** Reading a numeral back gives the number it was written from. */
  lemma {:induction false} ParseShowNat(n: nat)
    ensures ParseDigits(ShowNat(n)) == n
    decreases n
  {
    if n >= 10 {
      ParseShowNat(n / 10);
      var s := ShowNat(n);
      assert s[..|s| - 1] == ShowNat(n / 10);
      assert s[|s| - 1] == DigitChar(n % 10);
    }
  }

  // ---------------------------------------------------------------------
  // Titles: lowercasing and substring search
  // ---------------------------------------------------------------------

  function LowerChar(c: char): char {
    if 'A' <= c <= 'Z' then (c as int + 32) as char else c
  }

  /** `toLowerCase()` on the ASCII letters; every other character is kept. */
  function Lower(s: string): (r: string)
    ensures |r| == |s|
    ensures forall i :: 0 <= i < |s| ==> r[i] == LowerChar(s[i])
  {
    seq(|s|, i requires 0 <= i < |s| => LowerChar(s[i]))
  }

  /** `sub` occurs in `s` starting at position `i`. */
  predicate OccursAt(s: string, sub: string, i: nat) {
    i + |sub| <= |s| && s[i..i + |sub|] == sub
  }

  /** `s.includes(sub)`: compare at the front, else move one character on. */
  function Includes(s: string, sub: string): (b: bool)
    ensures b ==> |sub| <= |s|
    decreases |s|
  {
    if |sub| <= |s| && s[..|sub|] == sub then true
    else if |s| == 0 then false
    else Includes(s[1..], sub)
  }

  /** `Includes` holds exactly when `sub` occurs somewhere in `s`. */
  lemma {:induction false} IncludesIffOccurs(s: string, sub: string)
    ensures Includes(s, sub) <==> exists i: nat :: OccursAt(s, sub, i)
    decreases |s|
  {
    if |sub| <= |s| && s[..|sub|] == sub {
      assert OccursAt(s, sub, 0);
    } else if |s| == 0 {
      forall i: nat ensures !OccursAt(s, sub, i) {}
    } else {
      IncludesIffOccurs(s[1..], sub);
      forall i: nat ensures OccursAt(s, sub, i + 1) <==> OccursAt(s[1..], sub, i) {
        if i + 1 + |sub| <= |s| {
          assert s[i + 1..i + 1 + |sub|] == s[1..][i..i + |sub|];
        }
      }
      if exists i: nat :: OccursAt(s, sub, i) {
        var i: nat :| OccursAt(s, sub, i);
        assert i != 0;
        assert OccursAt(s[1..], sub, i - 1);
      }
      if exists i: nat :: OccursAt(s[1..], sub, i) {
        var i: nat :| OccursAt(s[1..], sub, i);
        assert OccursAt(s, sub, i + 1);
      }
    }
  }

  // ---------------------------------------------------------------------
  // Recognising sections
  // ---------------------------------------------------------------------

  /** `SectionData`: a loaded section. */
  datatype SectionData = SectionData(title: string, content: string, index: int)

  const SymptomKeywords: seq<string> := ["symptom", "లక్షణాలు"]
  const PrecautionKeywords: seq<string> := ["prevent", "treatment", "precaution", "నివారణ", "చికిత్స"]

  /** The lowercased title includes one of the keywords. */
  predicate Matches(title: string, keywords: seq<string>) {
    exists j :: 0 <= j < |keywords| && Includes(Lower(title), keywords[j])
  }

  /** The position of the first section, in list order, whose title matches. */
  function FirstMatch(sections: seq<SectionData>, keywords: seq<string>): (r: Option<nat>)
    ensures r.Some? ==>
      r.value < |sections| && Matches(sections[r.value].title, keywords) &&
      forall j :: 0 <= j < r.value ==> !Matches(sections[j].title, keywords)
    ensures r.None? ==> forall j :: 0 <= j < |sections| ==> !Matches(sections[j].title, keywords)
    decreases |sections|
  {
    if |sections| == 0 then None
    else if Matches(sections[0].title, keywords) then Some(0)
    else
      match FirstMatch(sections[1..], keywords)
      case None => None
      case Some(i) => Some(i + 1)
  }

  /** `sections.find(...)`: the first matching section, or `undefined`. */
  function FindSection(sections: seq<SectionData>, keywords: seq<string>): (r: Option<SectionData>)
    ensures r.None? <==> forall j :: 0 <= j < |sections| ==> !Matches(sections[j].title, keywords)
    ensures r.Some? ==>
      exists i :: (0 <= i < |sections| && sections[i] == r.value &&
        Matches(r.value.title, keywords) &&
        forall j :: 0 <= j < i ==> !Matches(sections[j].title, keywords))
  {
    match FirstMatch(sections, keywords)
    case None => None
    case Some(i) => Some(sections[i])
  }

  // ---------------------------------------------------------------------
  // Loading the sections
  // ---------------------------------------------------------------------

  /** `sectionsData.sections.slice(0, 5)`. */
  function FirstFive<T>(s: seq<T>): (r: seq<T>)
    ensures |r| == if |s| < 5 then |s| else 5
    ensures forall i :: 0 <= i < |r| ==> r[i] == s[i]
  {
    if |s| < 5 then s else s[..5]
  }

  /** One listed section with its content, fetched with its own parsed index. */
  function Load(up: Upstream, pageId: int, language: Lang, section: RawSection): (d: SectionData)
    ensures d.title == section.line && d.index == ParseDigits(section.index)
    ensures d.content == GetWikipediaSectionContent(up, pageId, d.index, language)
  {
    var index := ParseDigits(section.index);
    SectionData(section.line, GetWikipediaSectionContent(up, pageId, index, language), index)
  }

  /** The sections `fetchSections` stores: the first five listed, in order, with their contents. */
  function LoadedSections(up: Upstream, pageId: int, language: Lang): (r: seq<SectionData>)
    ensures var listed := GetWikipediaSections(up, pageId, language);
      && |r| == |FirstFive(listed)|
      && forall i :: 0 <= i < |r| ==>
           && r[i].title == listed[i].line
           && r[i].index == ParseDigits(listed[i].index)
           && r[i].content == GetWikipediaSectionContent(up, pageId, r[i].index, language)
  {
    var relevant := FirstFive(GetWikipediaSections(up, pageId, language));
    seq(|relevant|, i requires 0 <= i < |relevant| => Load(up, pageId, language, relevant[i]))
  }

  /** A matching section listed at position five or later is never found. */
  lemma OnlyFirstFiveConsidered(up: Upstream, pageId: int, language: Lang, keywords: seq<string>)
    requires var listed := GetWikipediaSections(up, pageId, language);
      forall j :: 0 <= j < |listed| && j < 5 ==> !Matches(listed[j].line, keywords)
    ensures FindSection(LoadedSections(up, pageId, language), keywords) == None
  {
    var loaded := LoadedSections(up, pageId, language);
    forall j | 0 <= j < |loaded| ensures !Matches(loaded[j].title, keywords) {
      assert loaded[j].title == GetWikipediaSections(up, pageId, language)[j].line;
    }
  }

  /** With no section listed, both searches come up empty. */
  lemma NothingListedNothingFound(up: Upstream, pageId: int, language: Lang)
    requires GetWikipediaSections(up, pageId, language) == []
    ensures FindSection(LoadedSections(up, pageId, language), SymptomKeywords) == None
    ensures FindSection(LoadedSections(up, pageId, language), PrecautionKeywords) == None
  {
  }

  const BothTitle: string := "Signs, Symptoms and Treatment"

  lemma BothTitleLowered()
    ensures Lower(BothTitle) == "signs, symptoms and treatment"
  {}

  /** A keyword occurring at some position of the lowercased title makes the title match. */
  lemma MatchesAt(title: string, keywords: seq<string>, j: nat, i: nat)
    requires j < |keywords| && OccursAt(Lower(title), keywords[j], i)
    ensures Matches(title, keywords)
  {
    IncludesIffOccurs(Lower(title), keywords[j]);
  }

  /** Where the two keywords stand in the lowercased title. */
  lemma BothTitleKeywordsAt()
    ensures OccursAt("signs, symptoms and treatment", "symptom", 7)
    ensures OccursAt("signs, symptoms and treatment", "treatment", 20)
  {
    var lower := "signs, symptoms and treatment";
    assert lower[7..14] == [lower[7], lower[8], lower[9], lower[10], lower[11], lower[12], lower[13]];
    assert lower[20..29] ==
      [lower[20], lower[21], lower[22], lower[23], lower[24], lower[25], lower[26], lower[27], lower[28]];
  }

  lemma BothTitleMatches()
    ensures Matches(BothTitle, SymptomKeywords) && Matches(BothTitle, PrecautionKeywords)
  {
    BothTitleLowered();
    BothTitleKeywordsAt();
    assert SymptomKeywords[0] == "symptom" && PrecautionKeywords[1] == "treatment";
    MatchesAt(BothTitle, SymptomKeywords, 0, 7);
    MatchesAt(BothTitle, PrecautionKeywords, 1, 20);
  }

  /** The two searches are independent: one section can be both the symptoms and the precautions section. */
  lemma OneSectionCanServeBoth()
    ensures var s := SectionData(BothTitle, "", 1);
      FindSection([s], SymptomKeywords) == Some(s) && FindSection([s], PrecautionKeywords) == Some(s)
  {
    BothTitleMatches();
  }

  // ---------------------------------------------------------------------
  // What the tabs show, and the article link
  // ---------------------------------------------------------------------

  /** A tab's body: a spinner, the section's markup, or the not-available message. */
  datatype Pane = Spinner | SectionHtml(html: string) | Unavailable(message: string)

  /**
   * The body of the symptoms or precautions tab.  The markup is the section's
   * raw content; the reference-stripping of `cleanHtml` is not part of this model.
   */
  function TabPane(loading: bool, found: Option<SectionData>, unavailable: string): (p: Pane)
    ensures p == Spinner <==> loading
    ensures p == Unavailable(unavailable) <==> !loading && found.None?
    ensures p.SectionHtml? <==> !loading && found.Some?
    ensures p.SectionHtml? ==> p.html == found.value.content
  {
    if loading then Spinner
    else match found
      case Some(s) => SectionHtml(s.content)
      case None => Unavailable(unavailable)
  }

  /** The symptoms tab's fallback message: English for `'en'`, Telugu otherwise. */
  function SymptomsUnavailable(language: Lang): (m: string)
    ensures language == En ==>
      m == "Symptoms information not available. Please check the More Information tab."
    ensures language == Te ==>
      m == "లక్షణాల సమాచారం అందుబాటులో లేదు. దయచేసి మరింత సమాచారం ట్యాబ్‌ను తనిఖీ చేయండి."
  {
    if language == En then "Symptoms information not available. Please check the More Information tab."
    else "లక్షణాల సమాచారం అందుబాటులో లేదు. దయచేసి మరింత సమాచారం ట్యాబ్‌ను తనిఖీ చేయండి."
  }

  /** The precautions tab's fallback message: English for `'en'`, Telugu otherwise. */
  function PrecautionsUnavailable(language: Lang): (m: string)
    ensures language == En ==>
      m == "Precautions information not available. Please check the More Information tab."
    ensures language == Te ==>
      m == "జాగ్రత్తల సమాచారం అందుబాటులో లేదు. దయచేసి మరింత సమాచారం ట్యాబ్‌ను తనిఖీ చేయండి."
  {
    if language == En then "Precautions information not available. Please check the More Information tab."
    else "జాగ్రత్తల సమాచారం అందుబాటులో లేదు. దయచేసి మరింత సమాచారం ట్యాబ్‌ను తనిఖీ చేయండి."
  }

  function LinkPrefix(language: Lang): string {
    "https://" + Code(language) + ".wikipedia.org/?curid="
  }

  /** The full-article link `https://{language}.wikipedia.org/?curid={pageid}`. */
  function ArticleLink(language: Lang, pageId: int): (link: string)
    ensures |LinkPrefix(language)| < |link| && link[..|LinkPrefix(language)|] == LinkPrefix(language)
    ensures link[8..10] == Code(language)
    ensures link[|LinkPrefix(language)|] == '-' <==> pageId < 0
  {
    LinkPrefix(language) + NumberText(pageId)
  }

  /** The link names the edition and, after `curid=`, a numeral that reads back as the page id. */
  lemma ArticleLinkNamesPage(language: Lang, pageId: nat)
    ensures var link := ArticleLink(language, pageId);
      var n := |LinkPrefix(language)|;
      && n <= |link|
      && link[..n] == LinkPrefix(language)
      && link[8..10] == Code(language)
      && AllDigits(link[n..])
      && ParseDigits(link[n..]) == pageId
  {
    var link := ArticleLink(language, pageId);
    var n := |LinkPrefix(language)|;
    assert link[n..] == ShowNat(pageId);
    ParseShowNat(pageId);
  }

  /** Different pages, or different editions, never share a link. */
  lemma ArticleLinkInjective(l1: Lang, p1: nat, l2: Lang, p2: nat)
    requires ArticleLink(l1, p1) == ArticleLink(l2, p2)
    ensures l1 == l2 && p1 == p2
  {
    ArticleLinkNamesPage(l1, p1);
    ArticleLinkNamesPage(l2, p2);
    var link := ArticleLink(l1, p1);
    assert Code(l1) == link[8..10] == Code(l2);
    assert |LinkPrefix(l1)| == |LinkPrefix(l2)|;
  }

  // ---------------------------------------------------------------------
  // The component's state
  // ---------------------------------------------------------------------

  class Card {
    /** The `diseaseInfo` prop. */
    const diseaseInfo: Content
    /** The current language from the context. */
    var language: Lang
    var sections: seq<SectionData>
    var loadingSections: bool

    /** First render: no sections, loading. */
    constructor (info: Content, l: Lang)
      ensures diseaseInfo == info && language == l
      ensures sections == [] && loadingSections
    {
      diseaseInfo := info;
      language := l;
      sections := [];
      loadingSections := true;
    }

    /** `fetchSections`: list, keep five, fetch each one's content, store; loading ends false. */
    method FetchSections(up: Upstream)
      modifies this
      ensures language == old(language)
      ensures sections == LoadedSections(up, diseaseInfo.pageid, language)
      ensures !loadingSections
    {
      loadingSections := true;
      var sectionsData := GetWikipediaSections(up, diseaseInfo.pageid, language);
      var relevant := FirstFive(sectionsData);
      var pageId, l := diseaseInfo.pageid, language;
      var withContent := seq(|relevant|, i requires 0 <= i < |relevant| =>
        Load(up, pageId, l, relevant[i]));
      sections := withContent;
      loadingSections := false;
    }

    /** The effect: fetch only when `diseaseInfo.pageid` is truthy (non-zero). */
    method Refresh(up: Upstream)
      modifies this
      ensures language == old(language)
      ensures diseaseInfo.pageid == 0 ==>
        sections == old(sections) && loadingSections == old(loadingSections)
      ensures diseaseInfo.pageid != 0 ==>
        sections == LoadedSections(up, diseaseInfo.pageid, language) && !loadingSections
    {
      if diseaseInfo.pageid != 0 {
        FetchSections(up);
      }
    }

    /** A language change re-runs the effect in the new language. */
    method ChangeLanguage(up: Upstream, l: Lang)
      modifies this
      ensures language == l
      ensures diseaseInfo.pageid == 0 ==>
        sections == old(sections) && loadingSections == old(loadingSections)
      ensures diseaseInfo.pageid != 0 ==>
        sections == LoadedSections(up, diseaseInfo.pageid, l) && !loadingSections
    {
      language := l;
      Refresh(up);
    }

    /** The first listed section whose title names symptoms. */
    function SymptomsSection(): (r: Option<SectionData>)
      reads this
      ensures r.None? <==> forall j :: 0 <= j < |sections| ==> !Matches(sections[j].title, SymptomKeywords)
      ensures r.Some? ==> r.value in sections && Matches(r.value.title, SymptomKeywords)
      ensures r.Some? ==> exists i :: (0 <= i < |sections| && sections[i] == r.value &&
                                       forall j :: 0 <= j < i ==> !Matches(sections[j].title, SymptomKeywords))
    {
      FindSection(sections, SymptomKeywords)
    }

    /** The first listed section whose title names prevention, treatment or precautions. */
    function PrecautionsSection(): (r: Option<SectionData>)
      reads this
      ensures r.None? <==> forall j :: 0 <= j < |sections| ==> !Matches(sections[j].title, PrecautionKeywords)
      ensures r.Some? ==> r.value in sections && Matches(r.value.title, PrecautionKeywords)
      ensures r.Some? ==> exists i :: (0 <= i < |sections| && sections[i] == r.value &&
                                       forall j :: 0 <= j < i ==> !Matches(sections[j].title, PrecautionKeywords))
    {
      FindSection(sections, PrecautionKeywords)
    }

    /** The symptoms tab: the fallback message exactly when loading is over and no section matches. */
    function SymptomsPane(): (p: Pane)
      reads this
      ensures p == Unavailable(SymptomsUnavailable(language)) <==>
        !loadingSections && forall j :: 0 <= j < |sections| ==> !Matches(sections[j].title, SymptomKeywords)
    {
      TabPane(loadingSections, SymptomsSection(), SymptomsUnavailable(language))
    }

    /** The precautions tab: the fallback message exactly when loading is over and no section matches. */
    function PrecautionsPane(): (p: Pane)
      reads this
      ensures p == Unavailable(PrecautionsUnavailable(language)) <==>
        !loadingSections && forall j :: 0 <= j < |sections| ==> !Matches(sections[j].title, PrecautionKeywords)
    {
      TabPane(loadingSections, PrecautionsSection(), PrecautionsUnavailable(language))
    }

    /** The "more information" link: this language's edition, and a numeral that reads back as the page id. */
    function FullArticleLink(): (link: string)
      reads this
      ensures var n := |LinkPrefix(language)|;
        && n < |link| && link[..n] == LinkPrefix(language)
        && (diseaseInfo.pageid >= 0 ==> AllDigits(link[n..]) && ParseDigits(link[n..]) == diseaseInfo.pageid)
    {
      if diseaseInfo.pageid >= 0 then ArticleLinkNamesPage(language, diseaseInfo.pageid); ArticleLink(language, diseaseInfo.pageid)
      else ArticleLink(language, diseaseInfo.pageid)
    }
  }
}
