/**
 * The language context: the two translation tables, the dotted-key lookup
 * `t` and the current-language state cell.
 */
module LanguageContext {
  import opened Base

  /** A node of a translation table: a string, or an object's own properties by name. */
  datatype Entry = Leaf(text: string) | Table(fields: map<string, Entry>)

  /** The English table. */
  const EnTable: Entry := Table(map[
      "siteName" := Leaf("ManaHealth"),
      "tagline" := Leaf("Your bilingual guide to health information"),
      "search" := Leaf("Search for diseases, symptoms, or treatments..."),
      "searchBtn" := Leaf("Search"),
      "languageSwitch" := Leaf("తెలుగు"),
      "home" := Leaf("Home"),
      "predict" := Leaf("Predict Disease"),
      "about" := Leaf("About"),
      "noResults" := Leaf("No results found. Try another search term."),
      "loading" := Leaf("Loading..."),
      "symptoms" := Leaf("Symptoms"),
      "precautions" := Leaf("Precautions"),
      "moreInfo" := Leaf("More Information"),
      "poweredBy" := Leaf("Information powered by Wikipedia"),
      "placeholder" := Leaf("Search for any disease in English or Telugu"),
      "hero" := Table(map[
        "title" := Leaf("Comprehensive Health Information in Your Language"),
        "subtitle" := Leaf("Search for diseases, learn about symptoms, and discover precautionary measures"),
        "cta" := Leaf("Start your search now")
      ]),
      "footer" := Table(map[
        "rights" := Leaf("All rights reserved"),
        "disclaimer" := Leaf("This website provides general information and is not a substitute for professional medical advice.")
      ])
  ])

  /** The Telugu table. */
  const TeTable: Entry := Table(map[
      "siteName" := Leaf("మాన్నా హెల్త్"),
      "tagline" := Leaf("ఆరోగ్య సమాచారం కోసం మీ ద్విభాషా మార్గదర్శి"),
      "search" := Leaf("వ్యాధులు, లక్షణాలు లేదా చికిత్సల కోసం శోధించండి..."),
      "searchBtn" := Leaf("శోధించు"),
      "languageSwitch" := Leaf("English"),
      "home" := Leaf("హోమ్"),
      "predict" := Leaf("వ్యాధిని అంచనా వేయండి"),
      "about" := Leaf("గురించి"),
      "noResults" := Leaf("ఫలితాలు కనుగొనబడలేదు. మరొక శోధన పదాన్ని ప్రయత్నించండి."),
      "loading" := Leaf("లోడ్ అవుతోంది..."),
      "symptoms" := Leaf("లక్షణాలు"),
      "precautions" := Leaf("జాగ్రత్తలు"),
      "moreInfo" := Leaf("మరింత సమాచారం"),
      "poweredBy" := Leaf("వికీపీడియా ద్వారా సమాచారం అందించబడింది"),
      "placeholder" := Leaf("ఆంగ్లం లేదా తెలుగులో ఏదైనా వ్యాధి కోసం శోధించండి"),
      "hero" := Table(map[
        "title" := Leaf("మీ భాషలో సమగ్ర ఆరోగ్య సమాచారం"),
        "subtitle" := Leaf("వ్యాధులను శోధించండి, లక్షణాల గురించి తెలుసుకోండి మరియు జాగ్రత్త చర్యలను కనుగొనండి"),
        "cta" := Leaf("ఇప్పుడే మీ శోధనను ప్రారంభించండి")
      ]),
      "footer" := Table(map[
        "rights" := Leaf("అన్ని హక్కులు రిజర్వ్ చేయబడ్డాయి"),
        "disclaimer" := Leaf("ఈ వెబ్‌సైట్ సాధారణ సమాచారాన్ని అందిస్తుంది మరియు ఇది వృత్తిపరమైన వైద్య సలహాకు ప్రత్యామ్నాయం కాదు.")
      ])
  ])

  /** `translations[language]`: the selected language's table, laid out as both tables are. */
  function Translations(l: Lang): (r: Entry)
    ensures l == En ==> r == EnTable
    ensures l == Te ==> r == TeTable
    ensures r.Table? && TwoLevels(r.fields)
    ensures r.fields.Keys == EnTable.fields.Keys
  {
    SameKeys();
    match l
    case En => EnTwoLevels(); EnTable
    case Te => TeTwoLevels(); TeTable
  }

  // ---------------------------------------------------------------------
  // Splitting a key at its separators (`key.split('.')`)
  // ---------------------------------------------------------------------

  /** The pieces of `s` between occurrences of `sep`; `""` gives `[""]`. */
  function Split(s: string, sep: char): (parts: seq<string>)
    ensures |parts| >= 1
    decreases |s|
  {
    if |s| == 0 then [""]
    else if s[0] == sep then [""] + Split(s[1..], sep)
    else
      var rest := Split(s[1..], sep);
      [[s[0]] + rest[0]] + rest[1..]
  }

  /** The parts glued back together with `sep` between them. */
  function Join(parts: seq<string>, sep: char): string
    requires |parts| >= 1
    decreases |parts|
  {
    if |parts| == 1 then parts[0] else parts[0] + [sep] + Join(parts[1..], sep)
  }

  /** No piece produced by `Split` contains the separator. */
  lemma {:induction false} SplitPartsHaveNoSeparator(s: string, sep: char)
    ensures forall i :: 0 <= i < |Split(s, sep)| ==> sep !in Split(s, sep)[i]
    decreases |s|
  {
    if |s| > 0 {
      SplitPartsHaveNoSeparator(s[1..], sep);
      var rest := Split(s[1..], sep);
      if s[0] != sep {
        var head := [s[0]] + rest[0];
        assert sep !in head by {
          assert forall j :: 0 < j < |head| ==> head[j] == rest[0][j - 1];
        }
      }
    }
  }

  /** Splitting loses nothing: joining the pieces gives the key back. */
  lemma {:induction false} JoinSplit(s: string, sep: char)
    ensures Join(Split(s, sep), sep) == s
    decreases |s|
  {
    if |s| > 0 {
      JoinSplit(s[1..], sep);
      var rest := Split(s[1..], sep);
      if s[0] == sep {
        assert Split(s, sep)[1..] == rest;
      } else {
        var parts := Split(s, sep);
        assert parts[0] == [s[0]] + rest[0];
        if |rest| == 1 {
          assert s == [s[0]] + s[1..];
        } else {
          assert parts[1..] == rest[1..];
          assert Join(parts, sep) == [s[0]] + (rest[0] + [sep] + Join(rest[1..], sep));
          assert s == [s[0]] + s[1..];
        }
      }
    }
  }

  /** Joining pieces that contain no separator and splitting again gives the same pieces. */
  lemma {:induction false} SplitJoin(parts: seq<string>, sep: char)
    requires |parts| >= 1
    requires forall i :: 0 <= i < |parts| ==> sep !in parts[i]
    ensures Split(Join(parts, sep), sep) == parts
    decreases |parts|, |parts[0]|
  {
    var p := parts[0];
    if |p| == 0 {
      if |parts| > 1 {
        SplitJoin(parts[1..], sep);
        assert Join(parts, sep) == [sep] + Join(parts[1..], sep);
        assert ([sep] + Join(parts[1..], sep))[1..] == Join(parts[1..], sep);
      }
    } else {
      var tail := [p[1..]] + parts[1..];
      assert forall i :: 0 <= i < |tail| ==> sep !in tail[i] by {
        assert tail[0] == p[1..];
        assert forall i :: 1 <= i < |tail| ==> tail[i] == parts[i];
      }
      SplitJoin(tail, sep);
      var s := Join(parts, sep);
      assert s == [p[0]] + Join(tail, sep) by {
        if |parts| > 1 {
          assert tail[1..] == parts[1..];
        }
      }
      assert s[0] == p[0] && s[1..] == Join(tail, sep);
      assert p == [p[0]] + p[1..];
      assert parts == [p] + parts[1..];
    }
  }

  // ---------------------------------------------------------------------
  // The lookup
  // ---------------------------------------------------------------------

  /** Where one step of the walk goes. */
  datatype Step = Descend(next: Entry) | Miss | Throw

  /**
   * One step `if (value && k in value) value = value[k]`: a table descends
   * or misses; the empty string is falsy and misses; `in` on a non-empty
   * string throws a TypeError.
   */
  function StepInto(value: Entry, k: string): (s: Step)
    ensures s.Descend? <==> value.Table? && k in value.fields
    ensures s.Descend? ==> s.next == value.fields[k]
    ensures s.Throw? <==> value.Leaf? && value.text != ""
  {
    match value
    case Table(fs) => if k in fs then Descend(fs[k]) else Miss
    case Leaf(s) => if s == "" then Miss else Throw
  }

  /** Where a walk over several segments ends. */
  datatype Walked = Reached(entry: Entry) | Missed | Threw

  /** The walk over the segments, one step at a time, stopping at the first miss or throw. */
  function Walk(value: Entry, keys: seq<string>): (w: Walked)
    ensures keys == [] ==> w == Reached(value)
    ensures keys != [] && w.Reached? ==> value.Table? && keys[0] in value.fields
    ensures keys != [] && value.Leaf? ==> (w.Threw? <==> value.text != "") && (w.Missed? <==> value.text == "")
    decreases |keys|
  {
    if keys == [] then Reached(value)
    else
      match StepInto(value, keys[0])
      case Descend(next) => Walk(next, keys[1..])
      case Miss => Missed
      case Throw => Threw
  }

  /** What `t(key)` gives back: a string, the sub-table a key names, or a TypeError. */
  datatype Translation = Text(s: string) | Node(entry: Entry) | Raised

  /** The lookup of `key` in the table `root`: on any miss, the whole original key. */
  function Lookup(root: Entry, key: string): (r: Translation)
    ensures Walk(root, Split(key, '.')).Missed? ==> r == Text(key)
    ensures r == Raised <==> Walk(root, Split(key, '.')).Threw?
    ensures r.Node? ==> r.entry.Table? && Walk(root, Split(key, '.')) == Reached(r.entry)
    ensures Walk(root, Split(key, '.')).Reached? ==>
      r == (if Walk(root, Split(key, '.')).entry.Leaf? then Text(Walk(root, Split(key, '.')).entry.text)
            else Node(Walk(root, Split(key, '.')).entry))
  {
    match Walk(root, Split(key, '.'))
    case Reached(Leaf(s)) => Text(s)
    case Reached(e) => Node(e)
    case Missed => Text(key)
    case Threw => Raised
  }

  /** `t(key)` while `language` is selected. */
  function Translate(language: Lang, key: string): (r: Translation)
    ensures r.Node? <==> key == "hero" || key == "footer"
  {
    NodeExactlyForNestedKeys(language, key);
    Lookup(Translations(language), key)
  }

  /** Walking `a + b` is walking `a`, then walking `b` from where `a` stopped. */
  lemma {:induction false} WalkAppend(value: Entry, a: seq<string>, b: seq<string>)
    ensures Walk(value, a + b) ==
      match Walk(value, a)
      case Reached(e) => Walk(e, b)
      case other => other
    decreases |a|
  {
    if a == [] {
      assert a + b == b;
    } else {
      assert (a + b)[0] == a[0] && (a + b)[1..] == a[1..] + b;
      match StepInto(value, a[0])
      case Descend(next) => WalkAppend(next, a[1..], b);
      case Miss =>
      case Throw =>
    }
  }

  /**
   * A segment missing at its level, wherever it stands in the key, makes the
   * lookup return the whole original key, not the segment that failed.
   */
  lemma MissAnywhereGivesKey(root: Entry, key: string, i: nat, e: Entry)
    requires i < |Split(key, '.')|
    requires Walk(root, Split(key, '.')[..i]) == Reached(e)
    requires StepInto(e, Split(key, '.')[i]) == Miss
    ensures Lookup(root, key) == Text(key)
  {
    var keys := Split(key, '.');
    assert keys == keys[..i] + keys[i..];
    WalkAppend(root, keys[..i], keys[i..]);
  }

  /** A key without a dot that names a string in the top-level table gives that string. */
  lemma SingleSegment(fields: map<string, Entry>, key: string)
    requires '.' !in key
    requires key in fields && fields[key].Leaf?
    ensures Lookup(Table(fields), key) == Text(fields[key].text)
  {
    SplitJoin([key], '.');
    assert Split(key, '.') == [key];
    assert [key][1..] == [];
    assert Walk(Table(fields), [key]) == Walk(fields[key], []);
  }

  /** A key without a dot that the top-level table lacks gives the key itself. */
  lemma SingleSegmentMiss(fields: map<string, Entry>, key: string)
    requires '.' !in key
    requires key !in fields
    ensures Lookup(Table(fields), key) == Text(key)
  {
    SplitJoin([key], '.');
  }

  /** `a.b` descends into the table stored under `a` and reads `b` there. */
  lemma DottedKeyDescends(fields: map<string, Entry>, a: string, b: string)
    requires '.' !in a && '.' !in b
    requires a in fields && fields[a].Table?
    requires b in fields[a].fields && fields[a].fields[b].Leaf?
    ensures Lookup(Table(fields), a + "." + b) == Text(fields[a].fields[b].text)
  {
    SplitJoin([a, b], '.');
    assert Join([a, b], '.') == a + "." + b;
    assert [a, b][1..] == [b] && [b][1..] == [];
    assert Walk(Table(fields), [a, b]) == Walk(fields[a], [b]);
    assert Walk(fields[a], [b]) == Walk(fields[a].fields[b], []);
  }

  // ---------------------------------------------------------------------
  // The two tables have the same structure
  // ---------------------------------------------------------------------

  /** The same names at every level, and leaves empty alike. */
  predicate SameShape(x: Entry, y: Entry)
    decreases x
  {
    match x
    case Leaf(s) => y.Leaf? && (s == "" <==> y.text == "")
    case Table(fs) =>
      y.Table? && fs.Keys == y.fields.Keys &&
      forall k :: k in fs ==> SameShape(fs[k], y.fields[k])
  }

  /** Walks over same-shaped tables end the same way. */
  lemma {:induction false} WalkSameShape(x: Entry, y: Entry, keys: seq<string>)
    requires SameShape(x, y)
    ensures Walk(x, keys).Missed? <==> Walk(y, keys).Missed?
    ensures Walk(x, keys).Threw? <==> Walk(y, keys).Threw?
    ensures Walk(x, keys).Reached? ==> SameShape(Walk(x, keys).entry, Walk(y, keys).entry)
    decreases |keys|
  {
    if keys != [] && x.Table? && keys[0] in x.fields {
      WalkSameShape(x.fields[keys[0]], y.fields[keys[0]], keys[1..]);
    }
  }

  /** Every top-level entry other than `hero` and `footer` is a non-empty string. */
  predicate FlatExceptNested(fields: map<string, Entry>) {
    forall k :: k in fields && k != "hero" && k != "footer" ==> fields[k].Leaf? && fields[k].text != ""
  }

  lemma EnFlat() ensures FlatExceptNested(EnTable.fields) {}
  lemma TeFlat() ensures FlatExceptNested(TeTable.fields) {}
  lemma SameKeys() ensures EnTable.fields.Keys == TeTable.fields.Keys {}
  lemma SameNested()
    ensures SameShape(EnTable.fields["hero"], TeTable.fields["hero"])
    ensures SameShape(EnTable.fields["footer"], TeTable.fields["footer"])
  {}

  lemma TablesSameShape()
    ensures SameShape(EnTable, TeTable)
  {
    var en, te := EnTable.fields, TeTable.fields;
    EnFlat();
    TeFlat();
    SameKeys();
    SameNested();
    forall k | k in en
      ensures SameShape(en[k], te[k])
    {
      if k != "hero" && k != "footer" {
        assert en[k].Leaf? && en[k].text != "";
        assert te[k].Leaf? && te[k].text != "";
      }
    }
    assert EnTable == Table(en) && TeTable == Table(te);
  }

  /** Every entry is a non-empty string. */
  predicate AllLeaves(fields: map<string, Entry>) {
    forall k :: k in fields ==> fields[k].Leaf? && fields[k].text != ""
  }

  /** The layout of both tables: strings at the top, except `hero` and `footer`, which hold only strings. */
  predicate TwoLevels(fields: map<string, Entry>) {
    && FlatExceptNested(fields)
    && "hero" in fields && fields["hero"].Table? && AllLeaves(fields["hero"].fields)
    && "footer" in fields && fields["footer"].Table? && AllLeaves(fields["footer"].fields)
  }

  lemma EnTwoLevels() ensures TwoLevels(EnTable.fields) { EnFlat(); }
  lemma TeTwoLevels() ensures TwoLevels(TeTable.fields) { TeFlat(); }

  /** In a table of that layout, a walk ends on a sub-table only after the single segment `hero` or `footer`. */
  lemma TableReachedOnlyAtNested(fields: map<string, Entry>, keys: seq<string>)
    requires FlatExceptNested(fields)
    requires "hero" in fields && fields["hero"].Table? ==> AllLeaves(fields["hero"].fields)
    requires "footer" in fields && fields["footer"].Table? ==> AllLeaves(fields["footer"].fields)
    requires keys != []
    requires Walk(Table(fields), keys).Reached? && Walk(Table(fields), keys).entry.Table?
    ensures keys == ["hero"] || keys == ["footer"]
  {
    var next := fields[keys[0]];
    assert Walk(Table(fields), keys) == Walk(next, keys[1..]);
  }

  /** `t` gives back an object, not a string, exactly for the keys `hero` and `footer`. */
  lemma NodeExactlyForNestedKeys(language: Lang, key: string)
    ensures Lookup(Translations(language), key).Node? <==> key == "hero" || key == "footer"
  {
    var fields := Translations(language).fields;
    assert Translations(language) == Table(fields);
    if language == En { EnTwoLevels(); } else { TeTwoLevels(); }
    assert TwoLevels(fields);
    var keys := Split(key, '.');
    if Lookup(Table(fields), key).Node? {
      TableReachedOnlyAtNested(fields, keys);
      JoinSplit(key, '.');
    }
    if key == "hero" || key == "footer" {
      SplitJoin([key], '.');
      assert keys == [key];
      assert [key][1..] == [];
      assert Walk(Table(fields), [key]) == Walk(fields[key], []);
    }
  }

  /** A key misses in English exactly when it misses in Telugu; likewise for the other outcomes. */
  lemma MissesAgree(key: string)
    ensures Walk(EnTable, Split(key, '.')).Missed? <==> Walk(TeTable, Split(key, '.')).Missed?
    ensures Translate(En, key).Raised? <==> Translate(Te, key).Raised?
    ensures Translate(En, key).Node? <==> Translate(Te, key).Node?
  {
    TablesSameShape();
    WalkSameShape(EnTable, TeTable, Split(key, '.'));
  }

  // ---------------------------------------------------------------------
  // Particular keys
  // ---------------------------------------------------------------------

  lemma EnSiteNameEntry()
    ensures "siteName" in EnTable.fields && EnTable.fields["siteName"] == Leaf("ManaHealth")
  {}

  lemma SiteNameInEnglish()
    ensures Translate(En, "siteName") == Text("ManaHealth")
  {
    var fields := EnTable.fields;
    assert Translations(En) == Table(fields);
    EnSiteNameEntry();
    SingleSegment(fields, "siteName");
  }

  lemma HeroTitle(language: Lang)
    ensures Translate(language, "hero.title") == Text(
      if language == En then "Comprehensive Health Information in Your Language"
      else "మీ భాషలో సమగ్ర ఆరోగ్య సమాచారం")
  {
    var key := "hero" + "." + "title";
    assert key == "hero.title";
    var fields := Translations(language).fields;
    assert Translations(language) == Table(fields);
    DottedKeyDescends(fields, "hero", "title");
    assert Lookup(Table(fields), key) == Text(fields["hero"].fields["title"].text);
  }

  lemma EnHasNoLanguageKey()
    ensures "language" !in EnTable.fields.Keys
  {}

  /** `'language'` is not a key in either table: `t('language')` is `'language'`. */
  lemma LanguageIsNotAKey(language: Lang)
    ensures Translate(language, "language") == Text("language")
  {
    var fields := Translations(language).fields;
    assert Translations(language) == Table(fields);
    EnHasNoLanguageKey();
    assert "language" !in fields;
    SingleSegmentMiss(fields, "language");
    assert Lookup(Table(fields), "language") == Text("language");
  }

  // ---------------------------------------------------------------------
  // The provider's state and the loop that performs `t`
  // ---------------------------------------------------------------------

  class LanguageProvider {
    /** The current language (`useState<Language>`). */
    var language: Lang

    constructor ()
      ensures language == En
    {
      language := En;
    }

    method SetLanguage(l: Lang)
      modifies this
      ensures language == l
    {
      language := l;
    }

    /** `t(key)`: walk the table segment by segment, returning the key on the first miss. */
    method T(key: string) returns (r: Translation)
      ensures r == Translate(language, key)
    {
      var keys := Split(key, '.');
      var value := Translations(language);
      for i := 0 to |keys|
        invariant Walk(Translations(language), keys) == Walk(value, keys[i..])
      {
        var k := keys[i];
        assert keys[i..][0] == k && keys[i..][1..] == keys[i + 1..];
        if value.Table? && k in value.fields {
          value := value.fields[k];
        } else if value.Leaf? && value.text != "" {
          // `k in value` on a string primitive is a TypeError.
          return Raised;
        } else {
          return Text(key);
        }
      }
      assert keys[|keys|..] == [];
      r := if value.Leaf? then Text(value.text) else Node(value);
    }
  }
}
