/**
 * The search bar: the query cell, the blank-query check on submit and the
 * submit button's state.
 */
module SearchBar {
  import opened Base
  import LanguageContext

  /**
   * The code points `String.prototype.trim` strips: ECMAScript's WhiteSpace
   * (tab, vertical tab, form feed, space, no-break space, byte order mark and
   * the space separators of Unicode) and LineTerminator.
   */
  predicate IsTrimmable(c: char) {
    || c == '\t' || c == '\U{000B}' || c == '\U{000C}' || c == ' ' || c == '\U{00A0}' || c == '\U{FEFF}'
    || c == '\U{1680}' || ('\U{2000}' <= c <= '\U{200A}') || c == '\U{202F}' || c == '\U{205F}'
    || c == '\U{3000}'
    || c == '\n' || c == '\r' || c == '\U{2028}' || c == '\U{2029}'
  }

  predicate AllTrimmable(s: string) {
    forall i :: 0 <= i < |s| ==> IsTrimmable(s[i])
  }

  /** Drop leading whitespace. */
  function TrimStart(s: string): (r: string)
    ensures |r| <= |s|
    decreases |s|
  {
    if |s| > 0 && IsTrimmable(s[0]) then TrimStart(s[1..]) else s
  }

  /** Drop trailing whitespace. */
  function TrimEnd(s: string): (r: string)
    ensures |r| <= |s|
    decreases |s|
  {
    if |s| > 0 && IsTrimmable(s[|s| - 1]) then TrimEnd(s[..|s| - 1]) else s
  }

  /** `s.trim()`: no longer than `s`, and neither starting nor ending with whitespace. */
  function Trim(s: string): (r: string)
    ensures |r| <= |s|
    ensures |r| > 0 ==> !IsTrimmable(r[0]) && !IsTrimmable(r[|r| - 1])
  {
    TrimStartSplits(s);
    TrimEndSplits(TrimStart(s));
    TrimEnd(TrimStart(s))
  }

  /** Trimming the front removes a run of whitespace and stops at the first other character. */
  lemma {:induction false} TrimStartSplits(s: string)
    ensures var t := TrimStart(s);
      |t| <= |s| && t == s[|s| - |t|..] && AllTrimmable(s[..|s| - |t|]) &&
      (|t| > 0 ==> !IsTrimmable(t[0]))
    decreases |s|
  {
    if |s| > 0 && IsTrimmable(s[0]) {
      TrimStartSplits(s[1..]);
      var t := TrimStart(s[1..]);
      assert s[1..][|s| - 1 - |t|..] == s[|s| - |t|..];
      forall i | 0 <= i < |s| - |t| ensures IsTrimmable(s[i]) {
        if i > 0 { assert s[i] == s[1..][..|s| - 1 - |t|][i - 1]; }
      }
    }
  }

  /** Trimming the back removes a run of whitespace and stops at the last other character. */
  lemma {:induction false} TrimEndSplits(s: string)
    ensures var t := TrimEnd(s);
      |t| <= |s| && t == s[..|t|] && AllTrimmable(s[|t|..]) &&
      (|t| > 0 ==> !IsTrimmable(t[|t| - 1]))
    decreases |s|
  {
    if |s| > 0 && IsTrimmable(s[|s| - 1]) {
      var u := s[..|s| - 1];
      TrimEndSplits(u);
      var t := TrimEnd(u);
      assert u[..|t|] == s[..|t|];
      forall i | |t| <= i < |s| ensures IsTrimmable(s[i]) {
        if i < |s| - 1 { assert s[i] == u[|t|..][i - |t|]; }
      }
    }
  }

  /**
   * `s.trim()` is `s` without a leading and a trailing run of whitespace: it
   * is the slice `s[i..j]` with only whitespace before `i` and from `j` on,
   * and, when not empty, it neither starts nor ends with whitespace.
   */
  lemma TrimShape(s: string)
    ensures var t := Trim(s);
      var i := |s| - |TrimStart(s)|;
      && i + |t| <= |s|
      && t == s[i..i + |t|]
      && AllTrimmable(s[..i]) && AllTrimmable(s[i + |t|..])
      && (|t| > 0 ==> !IsTrimmable(t[0]) && !IsTrimmable(t[|t| - 1]))
  {
    TrimStartSplits(s);
    var m := TrimStart(s);
    TrimEndSplits(m);
    var t := TrimEnd(m);
    var i := |s| - |m|;
    assert m == s[i..];
    assert t == s[i..][..|t|] == s[i..i + |t|];
    assert m[|t|..] == s[i + |t|..];
  }

  /** A query is blank after trimming exactly when every character is whitespace. */
  lemma BlankIffAllWhitespace(s: string)
    ensures Trim(s) == "" <==> AllTrimmable(s)
  {
    TrimShape(s);
    var t := Trim(s);
    var i := |s| - |TrimStart(s)|;
    if t == "" {
      forall k | 0 <= k < |s| ensures IsTrimmable(s[k]) {
        if k < i { assert s[k] == s[..i][k]; } else { assert s[k] == s[i..][k - i]; }
      }
    } else {
      assert s[i] == t[0];
    }
  }

  /** A toast notification. */
  datatype Toast = Toast(title: string, description: string, destructive: bool)

  /** What a submit does: raise a toast, or hand the query to `onSearch`. */
  datatype Submission = Rejected(toast: Toast) | Searched(query: string)

  /** The destructive toast for a blank query, English when the language is `'en'`. */
  function BlankQueryToast(language: Lang): (t: Toast)
    ensures t.destructive
    ensures t.title == "Error" <==> language == En
    ensures t.description == "Please enter a search term" <==> language == En
    ensures language == Te ==>
      t.title == "లోపం" && t.description == "దయచేసి శోధన పదాన్ని నమోదు చేయండి"
  {
    if language == En then Toast("Error", "Please enter a search term", true)
    else Toast("లోపం", "దయచేసి శోధన పదాన్ని నమోదు చేయండి", true)
  }

  /** The submit button: disabled while loading; its caption comes from `t`. */
  datatype Button = Button(disabled: bool, caption: LanguageContext.Translation)

  /** The submit button for the `isLoading` prop. */
  function SubmitButton(isLoading: bool, language: Lang): (b: Button)
    ensures b.disabled <==> isLoading
    ensures b.caption == LanguageContext.Translate(language, if isLoading then "loading" else "searchBtn")
  {
    Button(isLoading, LanguageContext.Translate(language, if isLoading then "loading" else "searchBtn"))
  }

  class Bar {
    /** The input's current text. */
    var query: string

    constructor ()
      ensures query == ""
    {
      query := "";
    }

    /** The input's `onChange`. */
    method Change(text: string)
      modifies this
      ensures query == text
    {
      query := text;
    }

    /**
     * `handleSubmit`: a query with nothing but whitespace raises the toast and
     * never reaches `onSearch`; any other goes to `onSearch` exactly as typed.
     */
    method HandleSubmit(language: Lang) returns (s: Submission)
      ensures s.Searched? <==> exists i :: 0 <= i < |query| && !IsTrimmable(query[i])
      ensures s.Searched? ==> s.query == query
      ensures s.Rejected? ==> s.toast == BlankQueryToast(language) && s.toast.destructive
    {
      BlankIffAllWhitespace(query);
      if Trim(query) == "" {
        return Rejected(BlankQueryToast(language));
      }
      return Searched(query);
    }
  }
}
