/**
 * The prediction page's one decision: which introductory sentence it shows.
 * The page compares `t('language')` with `'en'`, but `'language'` is not a
 * key of either table, so `t` answers with the key itself.
 */
module PredictDisease {
  import opened Base
  import LanguageContext

  const EnglishBlurb: string :=
    "Use our interactive tool to predict possible diseases based on your symptoms."
  const TeluguBlurb: string :=
    "మీ లక్షణాల ఆధారంగా సంభావ్య వ్యాధులను అంచనా వేయడానికి మా ఇంటరాక్టివ్ టూల్‌ని ఉపయోగించండి."

  /** The sentence as the page picks it: English when `t('language') === 'en'`. */
  function BlurbAsWritten(language: Lang): (s: string)
    ensures s == EnglishBlurb <==> LanguageContext.Translate(language, "language") == LanguageContext.Text("en")
  {
    assert |EnglishBlurb| == 77 && |TeluguBlurb| == 88;
    if LanguageContext.Translate(language, "language") == LanguageContext.Text("en")
    then EnglishBlurb else TeluguBlurb
  }

  /** Whatever the language, the page shows the Telugu sentence. */
  lemma AlwaysTelugu(language: Lang)
    ensures BlurbAsWritten(language) == TeluguBlurb
    ensures BlurbAsWritten(language) != EnglishBlurb
  {
    LanguageContext.LanguageIsNotAKey(language);
    assert |EnglishBlurb| == 77 && |TeluguBlurb| == 88;
  }

  /** The sentence chosen from the language itself. */
  function Blurb(language: Lang): (s: string)
    ensures s == EnglishBlurb <==> language == En
    ensures s == TeluguBlurb <==> language == Te
  {
    assert language != En ==> language == Te;
    assert |EnglishBlurb| == 77 && |TeluguBlurb| == 88;
    if language == En then EnglishBlurb else TeluguBlurb
  }
}
