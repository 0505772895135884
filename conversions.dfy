/**
 * The single-expression conversions of the patient profile views: the gender
 * flag parsed from text (accounts/views.py:136-137 and 983-984) and the choice
 * between a stored photo URL and one built from the request (869-874).
 */
module Conversions {
  import opened Text

  /** `s` spells "true" in any mixture of upper and lower case. */
  predicate SpellsTrue(s: string) {
    |s| == 4 && s[0] in "tT" && s[1] in "rR" && s[2] in "uU" && s[3] in "eE"
  }

  /** `s` spells "male" in any mixture of upper and lower case. */
  predicate SpellsMale(s: string) {
    |s| == 4 && s[0] in "mM" && s[1] in "aA" && s[2] in "lL" && s[3] in "eE"
  }

  /** Lower-casing gives `word` (all lower-case) exactly for its case variants. */
  lemma {:induction false} LowerEqualsWord(s: string, word: string)
    requires forall i :: 0 <= i < |word| ==> 'a' <= word[i] <= 'z'
    ensures Lower(s) == word <==>
      |s| == |word| && forall i :: 0 <= i < |s| ==> s[i] == word[i] || s[i] == UpperChar(word[i])
  {
    if |s| == |word| {
      forall i | 0 <= i < |s|
        ensures Lower(s)[i] == word[i] <==> s[i] == word[i] || s[i] == UpperChar(word[i])
      {
        LowerCharOfLetter(s[i], word[i]);
      }
    }
  }

  /**
   * `gender.lower() == 'true' or gender == '1'` (CompletePatientProfile):
   * true for "1" and for every case variant of "true", false for anything else.
   */
  function GenderFromProfileText(s: string): (male: bool)
    ensures male <==> s == "1" || SpellsTrue(s)
  {
    LowerEqualsWord(s, "true");
    Lower(s) == "true" || s == "1"
  }

  /**
   * `gender.lower() == 'true' or gender == '1' or gender.lower() == 'male'`
   * (UpdatePatientProfileView): the profile rule, and case variants of "male" as well.
   */
  function GenderFromUpdateText(s: string): (male: bool)
    ensures male <==> s == "1" || SpellsTrue(s) || SpellsMale(s)
  {
    LowerEqualsWord(s, "true");
    LowerEqualsWord(s, "male");
    Lower(s) == "true" || s == "1" || Lower(s) == "male"
  }

  /** Everything the profile rule reads as true the update rule reads as true; "Male" only the update rule. */
  lemma {:induction false} UpdateRuleExtendsProfileRule(s: string)
    ensures GenderFromProfileText(s) ==> GenderFromUpdateText(s)
    ensures GenderFromUpdateText(s) && !GenderFromProfileText(s) <==> SpellsMale(s)
  {
    if SpellsMale(s) {
      assert s != "1" && !SpellsTrue(s) by { assert s[0] != 't' && s[0] != 'T'; }
    }
  }

  /** Where the profile view takes a photo URL from. */
  datatype PhotoUrl = StoredAsIs(url: string) | BuiltFromRequest(path: string)

  /** URLs that already carry an http or https scheme are used as stored. */
  function ChoosePhotoUrl(url: string): (r: PhotoUrl)
    ensures r.StoredAsIs? ==> r.url == url && |url| >= 7 && url[..4] == "http"
    ensures r.BuiltFromRequest? ==> r.path == url
  {
    if StartsWith(url, "http://") || StartsWith(url, "https://") then StoredAsIs(url)
    else BuiltFromRequest(url)
  }

  /** A URL is rebuilt from the request exactly when it has neither scheme prefix. */
  lemma {:induction false} PhotoUrlChoice(url: string, rest: string)
    ensures ChoosePhotoUrl("https://" + rest).StoredAsIs?
    ensures ChoosePhotoUrl("http://" + rest).StoredAsIs?
    ensures ChoosePhotoUrl("/media/" + rest).BuiltFromRequest?
    ensures ChoosePhotoUrl(url).BuiltFromRequest? <==>
      !(|url| >= 7 && url[..7] == "http://") && !(|url| >= 8 && url[..8] == "https://")
  {
    assert ("https://" + rest)[..8] == "https://";
    assert ("http://" + rest)[..7] == "http://";
    assert ("/media/" + rest)[0] == '/';
  }
}
