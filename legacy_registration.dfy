/** The hand-written registration form of the header (`RegistrationModal`): six
    checks run one after another on submit, each failing check adds one to
    `errorsCount` and writes a message into the `errors` map, and the request is
    sent only when no check failed. The second check writes its message onto
    `username`, not onto `email`. */
module LegacyRegistration {
  import opened Common

  datatype Field = Username | Email | Password | RepeatPassword

  datatype FormState = FormState(username: string, email: string, password: string, repeatPassword: string)

  const RequiredMessage := "Не заполнено обязательное поле"
  const EmailFormatMessage := "Некорректный формат E-mail"
  const MismatchMessage := "The passwords do not match"
  const SomethingWentWrong := "Что-то пошло не так"

  /** `{ confirmPassword: formState.repeatPassword, ...formState }` */
  datatype RegistrationBody = RegistrationBody(
    confirmPassword: string, username: string, email: string, password: string, repeatPassword: string)

  function Value(f: FormState, k: Field): string {
    match k
    case Username => f.username
    case Email => f.email
    case Password => f.password
    case RepeatPassword => f.repeatPassword
  }

  function WithValue(f: FormState, k: Field, v: string): (g: FormState)
    ensures Value(g, k) == v
    ensures forall j :: j != k ==> Value(g, j) == Value(f, j)
  {
    match k
    case Username => f.(username := v)
    case Email => f.(email := v)
    case Password => f.(password := v)
    case RepeatPassword => f.(repeatPassword := v)
  }

  /** The `errors` map after the six checks, in source order, starting from `prev`. */
  function SubmitErrors(f: FormState, prev: map<Field, string>): map<Field, string> {
    var e1 := if f.username == "" then prev[Username := RequiredMessage] else prev;
    var e2 := if f.email == "" then e1[Username := RequiredMessage] else e1;
    var e3 := if f.password == "" then e2[Password := RequiredMessage] else e2;
    var e4 := if f.repeatPassword == "" then e3[RepeatPassword := RequiredMessage] else e3;
    var e5 := if !HasEmailShape(f.email) then e4[Email := EmailFormatMessage] else e4;
    if f.password != f.repeatPassword then e5[RepeatPassword := MismatchMessage] else e5
  }

  /** The final value of `errorsCount`: how many of the six checks failed. */
  function FailedChecks(f: FormState): (n: nat)
    ensures n <= 6
    ensures n == 0 <==>
      f.username != "" && f.email != "" && f.password != "" && f.repeatPassword != ""
      && HasEmailShape(f.email) && f.password == f.repeatPassword
  {
    (if f.username == "" then 1 else 0) + (if f.email == "" then 1 else 0)
    + (if f.password == "" then 1 else 0) + (if f.repeatPassword == "" then 1 else 0)
    + (if !HasEmailShape(f.email) then 1 else 0) + (if f.password != f.repeatPassword then 1 else 0)
  }

  /** The request carries every form field unchanged, plus `confirmPassword`
      equal to `repeatPassword`. */
  function Body(f: FormState): (b: RegistrationBody)
    ensures FormState(b.username, b.email, b.password, b.repeatPassword) == f
    ensures b.confirmPassword == f.repeatPassword
  {
    RegistrationBody(f.repeatPassword, f.username, f.email, f.password, f.repeatPassword)
  }

  /** The submit button's `disabled` expression. */
  predicate SubmitDisabled(f: FormState, errors: map<Field, string>, pending: bool) {
    f.username == "" || f.password == "" || f.email == "" || f.repeatPassword == ""
    || |errors| > 0 || pending
  }

  /** A missing e-mail records the required-field message on `username`, and the
      only message `email` ever receives is the format message. */
  lemma MissingEmailBlamesUsername(f: FormState, prev: map<Field, string>)
    requires f.email == ""
    ensures SubmitErrors(f, prev)[Username] == RequiredMessage
    ensures SubmitErrors(f, prev)[Email] == EmailFormatMessage
  {
  }

  /** The keys the failing checks write. */
  function WrittenFields(f: FormState): set<Field> {
    (if f.username == "" || f.email == "" then {Username} else {})
    + (if f.password == "" then {Password} else {})
    + (if f.repeatPassword == "" || f.password != f.repeatPassword then {RepeatPassword} else {})
    + (if !HasEmailShape(f.email) then {Email} else {})
  }

  /** What each key holds after submit: `username` gets the required message for
      an empty username or e-mail, `email` only ever the format message, the
      mismatch message overrides the required one on `repeatPassword`, and
      errors no check touched are kept. */
  lemma SubmitErrorsByField(f: FormState, prev: map<Field, string>)
    ensures var e := SubmitErrors(f, prev);
      && e.Keys == prev.Keys + WrittenFields(f)
      && (forall k :: k in prev && k !in WrittenFields(f) ==> e[k] == prev[k])
      && (Username in WrittenFields(f) ==> e[Username] == RequiredMessage)
      && (Password in WrittenFields(f) ==> e[Password] == RequiredMessage)
      && (Email in WrittenFields(f) ==> e[Email] == EmailFormatMessage)
      && (f.password != f.repeatPassword ==> e[RepeatPassword] == MismatchMessage)
      && (f.repeatPassword == "" && f.password == "" ==> e[RepeatPassword] == RequiredMessage)
  {
  }

  /** A submit that finds an error leaves the button disabled until a field is edited. */
  lemma FailedSubmitDisables(f: FormState, prev: map<Field, string>, pending: bool)
    requires FailedChecks(f) > 0
    ensures SubmitDisabled(f, SubmitErrors(f, prev), pending)
  {
    SubmitErrorsByField(f, prev);
    assert WrittenFields(f) != {};
  }

  /** An enabled button means every check passes on submit, so the request is sent. */
  lemma EnabledSubmitSends(f: FormState, errors: map<Field, string>)
    requires !SubmitDisabled(f, errors, false)
    ensures FailedChecks(f) == 0 <==> HasEmailShape(f.email) && f.password == f.repeatPassword
    ensures FailedChecks(f) == 0 ==> SubmitErrors(f, errors) == errors
  {
  }

  class RegistrationModal {
    var form: FormState
    var errors: map<Field, string>

    /** Fields the user never edited are `undefined` in the source; here they are "". */
    constructor ()
      ensures form == FormState("", "", "", "") && errors == map[]
    {
      form := FormState("", "", "", "");
      errors := map[];
    }

    /** `handleInputChange`: sets the field and clears only that field's error. */
    method HandleInputChange(value: string, key: Field)
      modifies this
      ensures form == WithValue(old(form), key, value)
      ensures errors == old(errors) - {key}
    {
      form := WithValue(form, key, value);
      errors := errors - {key};
    }

    /** `handleSubmit`: runs the checks, counting failures; when none failed sends
        the body and hands the returned token to `handleSuccessSubmit`, or alerts
        when the request fails. */
    method HandleSubmit(response: Outcome)
      returns (errorsCount: nat, request: Option<RegistrationBody>, handedToken: Option<string>, alert: Option<string>)
      modifies this`errors
      ensures errors == SubmitErrors(form, old(errors))
      ensures errorsCount == FailedChecks(form)
      ensures request == if errorsCount == 0 then Some(Body(form)) else None
      ensures handedToken == if request.Some? && response.Ok? then Some(response.token) else None
      ensures alert == if request.Some? && !response.Ok? then Some(SomethingWentWrong) else None
    {
      errorsCount := 0;
      if form.username == "" {
        errorsCount := errorsCount + 1;
        errors := errors[Username := RequiredMessage];
      }
      if form.email == "" {
        errorsCount := errorsCount + 1;
        errors := errors[Username := RequiredMessage];
      }
      if form.password == "" {
        errorsCount := errorsCount + 1;
        errors := errors[Password := RequiredMessage];
      }
      if form.repeatPassword == "" {
        errorsCount := errorsCount + 1;
        errors := errors[RepeatPassword := RequiredMessage];
      }
      if !('@' in form.email) || !('.' in form.email) {
        errorsCount := errorsCount + 1;
        errors := errors[Email := EmailFormatMessage];
      }
      if form.password != form.repeatPassword {
        errorsCount := errorsCount + 1;
        errors := errors[RepeatPassword := MismatchMessage];
      }
      if errorsCount > 0 {
        request, handedToken, alert := None, None, None;
        return;
      }
      request := Some(Body(form));
      handedToken := if response.Ok? then Some(response.token) else None;
      alert := if response.Ok? then None else Some(SomethingWentWrong);
    }

    function Disabled(pending: bool): bool
      reads this
    {
      SubmitDisabled(form, errors, pending)
    }
  }
}
