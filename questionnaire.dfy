/** The first questionnaire step: the nickname rules of `validateName` and the
    rule that `handleSubmit` stores the name and moves on only when it is valid. */
module Questionnaire {
  import opened Common
  import opened Storage

  const TooShortMessage := "Le pseudo doit comporter au moins 3 caractères."
  const TooLongMessage := "Le pseudo ne peut pas dépasser 15 caractères."
  const BadCharacterMessage :=
    "Le pseudo ne peut contenir que des lettres, des chiffres, des espaces et des tirets."
  const NextStepRoute := "/questionnaire/questionnaire2"

  /** The class `[a-zA-Z0-9\s-]`. */
  predicate IsNameChar(c: char) {
    IsAsciiLetter(c) || IsAsciiDigit(c) || IsJsWhitespace(c) || c == '-'
  }

  /** `/[^a-zA-Z0-9\s-]/.test(name)`: some character lies outside the class. */
  function HasForbiddenChar(name: string): (found: bool)
    ensures found <==> exists k :: 0 <= k < |name| && !IsNameChar(name[k])
  {
    if name == [] then false
    else if !IsNameChar(name[0]) then true
    else
      var rest := HasForbiddenChar(name[1..]);
      assert forall k :: 1 <= k < |name| ==> name[k] == name[1..][k - 1];
      rest
  }

  /** `validateName`: the message it shows, None when it clears the error and
      accepts. The checks run in the order too short, too long, bad character. */
  function ValidateName(name: string): (error: Option<string>)
    ensures error.None? <==> 3 <= |name| <= 15 && forall k :: 0 <= k < |name| ==> IsNameChar(name[k])
    ensures |name| < 3 ==> error == Some(TooShortMessage)
    ensures |name| > 15 ==> error == Some(TooLongMessage)
    ensures 3 <= |name| <= 15 && (exists k :: 0 <= k < |name| && !IsNameChar(name[k])) ==>
              error == Some(BadCharacterMessage)
  {
    if |name| < 3 then Some(TooShortMessage)
    else if |name| > 15 then Some(TooLongMessage)
    else if HasForbiddenChar(name) then Some(BadCharacterMessage)
    else None
  }

  /** The screen after `handleSubmit`: the store, the error it shows, where it goes. */
  datatype StepOutcome = StepOutcome(store: Store, error: Option<string>, nav: Option<Navigation>)

  /** `handleSubmit`: a valid name is stored under "name" and the next step
      opens; an invalid one changes nothing but the error shown. */
  function SubmitName(name: string, store: Store): (r: StepOutcome)
    ensures r.error == ValidateName(name)
    ensures r.error.None? ==> r.store == Set(store, "name", name) && r.nav == Some(Push(NextStepRoute))
    ensures r.error.Some? ==> r.store == store && r.nav == None
  {
    var error := ValidateName(name);
    if error.None? then StepOutcome(Set(store, "name", name), None, Some(Push(NextStepRoute)))
    else StepOutcome(store, error, None)
  }
}
