/** The header: the language toggle and the mobile menu's open flag. */
module Header {
  import opened Base
  import LanguageContext

  /** `language === 'en' ? 'te' : 'en'`: always the other language. */
  function Toggled(language: Lang): (r: Lang)
    ensures r != language
  {
    if language == En then Te else En
  }

  /** Toggling twice restores the original language. */
  lemma ToggleTwice(language: Lang)
    ensures Toggled(Toggled(language)) == language
  {
  }

  class Bar {
    /** Whether the mobile menu sheet is open. */
    var isOpen: bool

    /** The menu starts closed. */
    constructor ()
      ensures !isOpen
    {
      isOpen := false;
    }

    /** The sheet's `onOpenChange` (the menu button opens it, a click outside closes it). */
    method OpenChange(open: bool)
      modifies this
      ensures isOpen == open
    {
      isOpen := open;
    }

    /** The sheet's close button. */
    method CloseButton()
      modifies this
      ensures !isOpen
    {
      isOpen := false;
    }

    /** The Home link inside the sheet. */
    method HomeLink()
      modifies this
      ensures !isOpen
    {
      isOpen := false;
    }

    /** The Predict link inside the sheet. */
    method PredictLink()
      modifies this
      ensures !isOpen
    {
      isOpen := false;
    }

    /** `toggleLanguage`: switch the context's language; the menu flag is untouched. */
    method ToggleLanguage(context: LanguageContext.LanguageProvider)
      modifies context
      ensures context.language == Toggled(old(context.language))
      ensures isOpen == old(isOpen)
    {
      context.SetLanguage(Toggled(context.language));
    }
  }
}
