/** The schema-driven login form of the authorization modal: its two fields and
    their rules, and what a submit does with the server's answer. */
module AuthLogin {
  import opened Common
  import opened FormSchema
  import opened AuthPages

  const IdentityKey := "identity"
  const PasswordKey := "password"
  const EmailFormatMessage := "Please enter a valid address"

  /** The cookie that receives the session token, and the query refetched after login. */
  const TokenCookie := "access-token"
  const ProfileQuery := ["getProfile"]

  const Validation: Schema := map[
    IdentityKey := [Rule(Filled, RequiredMessage), Rule(MatchesEmail, EmailFormatMessage)],
    PasswordKey := [Rule(Filled, RequiredMessage)]
  ]

  const InitForm: Form := map[IdentityKey := "", PasswordKey := ""]

  /** What each field's rules report: the identity must be non-empty and accepted
      by the e-mail pattern; the password must only be non-empty. */
  lemma {:induction false} FieldRules(form: Form, emailTest: string -> bool)
    ensures var v := FieldValue(form, IdentityKey);
      FailingMessages(Validation[IdentityKey], v, form, emailTest)
      == (if v == "" then [RequiredMessage] else []) + (if emailTest(v) then [] else [EmailFormatMessage])
    ensures var v := FieldValue(form, PasswordKey);
      FailingMessages(Validation[PasswordKey], v, form, emailTest) == if v == "" then [RequiredMessage] else []
  {
    var rules := Validation[IdentityKey];
    assert rules[1..][1..] == [];
    assert Validation[PasswordKey][1..] == [];
  }

  lemma {:induction false} SatisfiedIff(form: Form, emailTest: string -> bool)
    ensures SchemaSatisfied(Validation, form, emailTest) <==>
      && FieldValue(form, IdentityKey) != "" && emailTest(FieldValue(form, IdentityKey))
      && FieldValue(form, PasswordKey) != ""
  {
    FieldRules(form, emailTest);
    assert Validation.Keys == {IdentityKey, PasswordKey};
  }

  /** Both fields of the initial form fail their required rule first. */
  lemma {:induction false} InitialFormFails(emailTest: string -> bool)
    ensures forall key :: key in Validation ==>
      var msgs := FailingMessages(Validation[key], FieldValue(InitForm, key), InitForm, emailTest);
      msgs != [] && msgs[0] == RequiredMessage
    ensures !SchemaSatisfied(Validation, InitForm, emailTest)
  {
    FieldRules(InitForm, emailTest);
    SatisfiedIff(InitForm, emailTest);
    assert Validation.Keys == {IdentityKey, PasswordKey};
  }

  /** The submit handler: the whole form is sent; on success the token goes into
      the `access-token` cookie, the profile query is invalidated and the modal
      closes, in that order; a 400 with a body sets the body's first messages as
      field errors; anything else does nothing. */
  method Submit(form: Form, outcome: Outcome) returns (request: Form, effects: seq<Effect>)
    ensures request == form
    ensures outcome.Ok? ==> (effects ==
      [SetCookie(TokenCookie, outcome.token), InvalidateQueries(ProfileQuery), ModalChange(Navigate(Some(Login), SignedIn))])
    ensures outcome.Ok? ==> effects[|effects| - 1] == ModalChange(None)
    ensures !outcome.Ok? ==> forall i :: 0 <= i < |effects| ==> !effects[i].SetCookie? && !effects[i].ModalChange?
    ensures !outcome.Ok? ==>
      match ExternalErrors(outcome)
      case Some(errs) => effects == [SetExternalErrors(errs)]
      case None => effects == []
  {
    request := form;
    match outcome {
      case Ok(token) =>
        effects := [SetCookie(TokenCookie, token), InvalidateQueries(ProfileQuery), ModalChange(None)];
      case HttpError(status, body) =>
        if status == 400 && body.Some? {
          var serverErrors := CollectServerErrors(body.value);
          effects := [SetExternalErrors(serverErrors)];
        } else {
          effects := [];
        }
      case NoResponse =>
        effects := [];
    }
  }
}
