/**
 * The client preference service: the preferred language is resolved to a
 * language code, defaulting to English, and preferences are looked up by
 * client.
 */
module PreferenceService {
  import opened Wrappers
  import opened Text
  import opened Entity
  import opened Common

  const LanguageNotFoundMessage := "preferred language not found"
  const NoPreferenceMessage := "client preference not found"

  /**
   * The language a preference ends up with: the default for a blank one,
   * the code of the language `find` resolves it to (by code or by name),
   * or nothing when it does not resolve.
   */
  function ResolvedLanguage(language: string, find: string -> Option<Language>): Option<string> {
    if IsBlank(language) then Some(DefaultLanguage)
    else if find(language).Some? then Some(find(language).value.code)
    else None
  }

  /**
   * `ValidateClientPreference`: `find` is the language repository's `Find`.
   * A resolved language is replaced by its code; an unresolved one is
   * reported and left as supplied.
   */
  method ValidateClientPreference(preference: ClientPreference, find: string -> Option<Language>)
    returns (errs: Option<ErrMap>, updated: ClientPreference)
    ensures IsBlank(preference.language) ==> errs.None? && updated == preference.(language := DefaultLanguage)
    ensures !IsBlank(preference.language) && find(preference.language).Some? ==>
      errs.None? && updated == preference.(language := find(preference.language).value.code)
    ensures !IsBlank(preference.language) && find(preference.language).None? ==>
      errs == Some(map["language" := Error(LanguageNotFoundMessage)]) && updated == preference
    ensures errs.None? <==> ResolvedLanguage(preference.language, find).Some?
    ensures errs.None? ==> updated.language == ResolvedLanguage(preference.language, find).value
  {
    var e: ErrMap := map[];
    updated := preference;
    if !IsBlank(preference.language) {
      var language := find(preference.language);
      if language.None? {
        e := e["language" := Error(LanguageNotFoundMessage)];
      } else {
        updated := updated.(language := language.value.code);
      }
    } else {
      updated := updated.(language := DefaultLanguage);
    }
    errs := Reported(e);
  }

  /**
   * When every language has a non-blank code that resolves to the same
   * language, and "en" is known, a resolved preference resolves again to
   * the same code: the rewrite is a fixed point.
   */
  lemma ResolvedLanguageIsStable(language: string, find: string -> Option<Language>)
    requires forall c: string | find(c).Some? :: find(find(c).value.code) == find(c)
    requires forall c: string | find(c).Some? :: !IsBlank(find(c).value.code)
    requires find(DefaultLanguage).Some? && find(DefaultLanguage).value.code == DefaultLanguage
    requires ResolvedLanguage(language, find).Some?
    ensures ResolvedLanguage(ResolvedLanguage(language, find).value, find) == ResolvedLanguage(language, find)
  {
    var code := ResolvedLanguage(language, find).value;
    if IsBlank(language) {
      assert code == DefaultLanguage;
      assert !IsBlank(DefaultLanguage) by { assert !IsRegexSpace(DefaultLanguage[0]); }
    } else {
      assert find(code) == find(language);
    }
  }

  /** `FindClientPreference`: `find` is the preference repository's `Find`; one message for both failures. */
  function FindClientPreference(clientId: string, find: string -> Option<ClientPreference>): (r: Result<ClientPreference>)
    ensures IsBlank(clientId) ==> r == Failure(Error(NoPreferenceMessage))
    ensures !IsBlank(clientId) ==> r.Success? == find(clientId).Some?
    ensures r.Success? ==> r.value == find(clientId).value
    ensures r.Failure? ==> r.error == Error(NoPreferenceMessage)
  {
    GuardedFind(clientId, find, NoPreferenceMessage)
  }
}
