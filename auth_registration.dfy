/** The schema-driven registration form of the authorization modal: its four
    fields and their rules, the request built from them, and what a submit does
    with the server's answer. */
module AuthRegistration {
  import opened Common
  import opened FormSchema
  import opened AuthPages

  const LoginKey := "login"
  const EmailKey := "email"
  const PasswordKey := "password"
  const ConfirmKey := "confirmPassword"

  const LoginLengthMessage := "Login must contain at least 3 characters"
  const EmailFormatMessage := "Please enter a valid address"
  const PasswordLengthMessage := "Password must be at least 8 characters long"
  const MismatchMessage := "The passwords do not match"

  const Validation: Schema := map[
    LoginKey := [Rule(Filled, RequiredMessage), Rule(MinLength(3), LoginLengthMessage)],
    EmailKey := [Rule(Filled, RequiredMessage), Rule(MatchesEmail, EmailFormatMessage)],
    PasswordKey := [Rule(Filled, RequiredMessage), Rule(MinLength(8), PasswordLengthMessage)],
    ConfirmKey := [Rule(Filled, RequiredMessage), Rule(SameAs(PasswordKey), MismatchMessage)]
  ]

  const InitForm: Form := map[LoginKey := "", EmailKey := "", PasswordKey := "", ConfirmKey := ""]

  /** What each field's rules report, field by field. */
  lemma {:induction false} FieldRules(form: Form, emailTest: string -> bool)
    ensures var v := FieldValue(form, LoginKey);
      FailingMessages(Validation[LoginKey], v, form, emailTest)
      == (if v == "" then [RequiredMessage] else []) + (if |v| < 3 then [LoginLengthMessage] else [])
    ensures var v := FieldValue(form, EmailKey);
      FailingMessages(Validation[EmailKey], v, form, emailTest)
      == (if v == "" then [RequiredMessage] else []) + (if emailTest(v) then [] else [EmailFormatMessage])
    ensures var v := FieldValue(form, PasswordKey);
      FailingMessages(Validation[PasswordKey], v, form, emailTest)
      == (if v == "" then [RequiredMessage] else []) + (if |v| < 8 then [PasswordLengthMessage] else [])
    ensures var v := FieldValue(form, ConfirmKey);
      FailingMessages(Validation[ConfirmKey], v, form, emailTest)
      == (if v == "" then [RequiredMessage] else [])
         + (if v == FieldValue(form, PasswordKey) then [] else [MismatchMessage])
  {
    TwoRules(Validation[LoginKey], FieldValue(form, LoginKey), form, emailTest);
    TwoRules(Validation[EmailKey], FieldValue(form, EmailKey), form, emailTest);
    TwoRules(Validation[PasswordKey], FieldValue(form, PasswordKey), form, emailTest);
    TwoRules(Validation[ConfirmKey], FieldValue(form, ConfirmKey), form, emailTest);
  }

  lemma TwoRules(rules: seq<Rule>, val: string, form: Form, emailTest: string -> bool)
    requires |rules| == 2
    ensures FailingMessages(rules, val, form, emailTest)
      == (if Passes(rules[0].check, val, form, emailTest) then [] else [rules[0].message])
         + (if Passes(rules[1].check, val, form, emailTest) then [] else [rules[1].message])
  {
    assert rules[1..][1..] == [];
  }

  /** The schema holds exactly for a login of at least 3 characters, an e-mail the
      pattern accepts, a password of at least 8 characters and a matching
      confirmation; so the initial, all-empty form fails every field's first rule. */
  lemma {:induction false} SatisfiedIff(form: Form, emailTest: string -> bool)
    ensures SchemaSatisfied(Validation, form, emailTest) <==>
      && |FieldValue(form, LoginKey)| >= 3
      && FieldValue(form, EmailKey) != "" && emailTest(FieldValue(form, EmailKey))
      && |FieldValue(form, PasswordKey)| >= 8
      && FieldValue(form, ConfirmKey) == FieldValue(form, PasswordKey)
  {
    FieldRules(form, emailTest);
    assert Validation.Keys == {LoginKey, EmailKey, PasswordKey, ConfirmKey};
  }

  lemma {:induction false} InitialFormFails(emailTest: string -> bool)
    ensures forall key :: key in Validation ==>
      var msgs := FailingMessages(Validation[key], FieldValue(InitForm, key), InitForm, emailTest);
      msgs != [] && msgs[0] == RequiredMessage
    ensures !SchemaSatisfied(Validation, InitForm, emailTest)
  {
    FieldRules(InitForm, emailTest);
    SatisfiedIff(InitForm, emailTest);
    assert Validation.Keys == {LoginKey, EmailKey, PasswordKey, ConfirmKey};
  }

  /** Nothing is displayed on a field while it is empty, whatever errors are recorded. */
  lemma InitialFormShowsNoErrors(errors: map<string, Option<string>>)
    ensures forall key :: key in errors ==> DisplayedError(FieldValue(InitForm, key), errors[key]) == None
  {
  }

  /** `AuthService.registation`'s argument. */
  datatype SignUpBody = SignUpBody(username: string, email: string, password: string, confirmPassword: string)

  /** `login` is sent as `username`; the other three fields keep their names. */
  function Request(form: Form): (b: SignUpBody)
    ensures forall key :: key in Validation ==> FieldValue(FormOf(b), key) == FieldValue(form, key)
  {
    SignUpBody(FieldValue(form, LoginKey), FieldValue(form, EmailKey), FieldValue(form, PasswordKey),
               FieldValue(form, ConfirmKey))
  }

  function FormOf(b: SignUpBody): Form {
    map[LoginKey := b.username, EmailKey := b.email, PasswordKey := b.password, ConfirmKey := b.confirmPassword]
  }

  /** The request loses nothing: it is built back from its own form, and two forms
      give the same request exactly when their four fields agree. */
  lemma RequestRoundTrip(b: SignUpBody, f: Form, g: Form)
    ensures Request(FormOf(b)) == b
    ensures Request(f) == Request(g) <==> forall key :: key in Validation ==> FieldValue(f, key) == FieldValue(g, key)
  {
    assert Validation.Keys == {LoginKey, EmailKey, PasswordKey, ConfirmKey};
  }

  /** The submit handler for an answer `outcome`: success switches to the login
      page; a 400 with a body sets the body's first messages as field errors;
      anything else does nothing. */
  method Submit(form: Form, outcome: Outcome) returns (request: SignUpBody, effects: seq<Effect>)
    ensures request == Request(form)
    ensures outcome.Ok? ==> effects == [ModalChange(Navigate(Some(Registration), SignedUp))]
    ensures outcome.Ok? ==> effects == [ModalChange(Some(Login))]
    ensures !outcome.Ok? ==>
      match ExternalErrors(outcome)
      case Some(errs) => effects == [SetExternalErrors(errs)]
      case None => effects == []
  {
    request := Request(form);
    match outcome {
      case Ok(_) =>
        effects := [ModalChange(Some(Login))];
      case HttpError(status, body) =>
        if status == 400 && body.Some? {
          var serverErrors := CollectServerErrors(body.value);
          effects := [SetExternalErrors(serverErrors)];
        } else {
          effects := [];
        }
      case NoResponse =>
        effects := [];
    }
  }

  /** The password-visibility flags. */
  datatype Shown = Shown(password: bool, confirmPassword: bool)

  /** `toogleShown(key)`: flips one flag and keeps the other. */
  function Toggle(s: Shown, confirm: bool): (t: Shown)
    ensures confirm ==> t.confirmPassword == !s.confirmPassword && t.password == s.password
    ensures !confirm ==> t.password == !s.password && t.confirmPassword == s.confirmPassword
  {
    if confirm then s.(confirmPassword := !s.confirmPassword) else s.(password := !s.password)
  }

  /** Two clicks on the same eye icon restore the flags. */
  lemma ToggleTwice(s: Shown, confirm: bool)
    ensures Toggle(Toggle(s, confirm), confirm) == s
  {
  }
}
