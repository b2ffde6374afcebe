/** The three steps of the stand-alone password-recovery dialog: the e-mail
    step, the confirmation-code step and the new-password step. Each holds its
    own input state; the request outcomes are parameters and the next step is
    returned as the value handed to `onNextStep`. */
module PasswordRecovery {
  import opened Common

  const EmailFormatMessage := "Некорректный формат E-mail"
  const SomethingWentWrong := "Что-то пошло не так"
  const WrongCodeMessage := "Неверный код"
  const MismatchAlert := "The passwords do not match"

  /** The e-mail step's check `!email || !email.includes('@') || !email.includes('.')`,
      negated. The emptiness test adds nothing: an e-mail with an '@' is never empty. */
  function EmailAccepted(email: string): (ok: bool)
    ensures ok <==> HasEmailShape(email)
  {
    !(email == "" || !('@' in email) || !('.' in email))
  }

  class EmailStep {
    var email: string
    var error: string

    constructor ()
      ensures email == "" && error == ""
    {
      email := "";
      error := "";
    }

    /** Typing sets the e-mail and clears the error. */
    method Edit(value: string)
      modifies this
      ensures email == value && error == ""
    {
      email := value;
      error := "";
    }

    function Disabled(pending: bool): bool
      reads this
    {
      email == "" || error != "" || pending
    }

    /** `handleSubmit`: a malformed e-mail sets the error and sends nothing, which
        also disables the button; otherwise the reset request is sent, and the
        e-mail goes on to the next step only if it succeeds. */
    method Submit(resetSucceeds: bool) returns (request: Option<string>, next: Option<string>, alert: Option<string>)
      modifies this`error
      ensures !HasEmailShape(email) ==>
        request == None && next == None && alert == None && error == EmailFormatMessage && Disabled(false)
      ensures HasEmailShape(email) ==> request == Some(email) && error == old(error)
      ensures next.Some? <==> HasEmailShape(email) && resetSucceeds
      ensures next.Some? ==> next.value == email
      ensures alert.Some? <==> HasEmailShape(email) && !resetSucceeds
      ensures alert.Some? ==> alert.value == SomethingWentWrong
    {
      request, next, alert := None, None, None;
      if !EmailAccepted(email) {
        error := EmailFormatMessage;
        return;
      }
      request := Some(email);
      if resetSucceeds {
        next := Some(email);
      } else {
        alert := Some(SomethingWentWrong);
      }
    }
  }

  /** `AuthService.passwordResetConfirm`'s argument. */
  datatype ConfirmBody = ConfirmBody(code: string, token: string)

  class CodeStep {
    const token: string
    var code: string
    var error: string

    constructor (token0: string)
      ensures token == token0 && code == "" && error == ""
    {
      token := token0;
      code := "";
      error := "";
    }

    /** Typing sets the code and clears the error. */
    method Edit(value: string)
      modifies this
      ensures code == value && error == ""
    {
      code := value;
      error := "";
    }

    function Disabled(pending: bool): bool
      reads this
    {
      code == "" || error != "" || pending
    }

    /** `handleSubmit`: the request always carries the current code and the given
        token; a confirmed code goes on to the next step unchanged, a rejected one
        sets 'Неверный код', which disables the button until the next edit. */
    method Submit(confirmed: bool) returns (request: ConfirmBody, next: Option<string>)
      modifies this`error
      ensures request == ConfirmBody(code, token)
      ensures confirmed ==> next == Some(code) && error == old(error)
      ensures !confirmed ==> next == None && error == WrongCodeMessage && Disabled(false)
    {
      request := ConfirmBody(code, token);
      if confirmed {
        next := Some(code);
      } else {
        next := None;
        error := WrongCodeMessage;
      }
    }
  }

  class NewPasswordForm {
    var password: string
    var repeatPassword: string
    var shownPassword: bool
    var shownRepeatPassword: bool

    /** The form starts as `{}`: the strings are modelled as "" and the flags as false. */
    constructor ()
      ensures password == "" && repeatPassword == "" && !shownPassword && !shownRepeatPassword
    {
      password := "";
      repeatPassword := "";
      shownPassword := false;
      shownRepeatPassword := false;
    }

    method EditPassword(value: string)
      modifies this`password
      ensures password == value
    {
      password := value;
    }

    method EditRepeatPassword(value: string)
      modifies this`repeatPassword
      ensures repeatPassword == value
    {
      repeatPassword := value;
    }

    method TogglePassword()
      modifies this`shownPassword
      ensures shownPassword == !old(shownPassword)
    {
      shownPassword := !shownPassword;
    }

    method ToggleRepeatPassword()
      modifies this`shownRepeatPassword
      ensures shownRepeatPassword == !old(shownRepeatPassword)
    {
      shownRepeatPassword := !shownRepeatPassword;
    }

    function Disabled(): bool
      reads this
    {
      password == "" || repeatPassword == ""
    }

    /** The button's click: mismatched passwords raise an alert and go nowhere;
        matching ones hand the password to the next step. Behind an enabled button
        that password is never empty. */
    method Submit() returns (next: Option<string>, alert: Option<string>)
      ensures next.Some? <==> password == repeatPassword
      ensures next.Some? ==> next.value == password && alert == None
      ensures next.None? ==> alert == Some(MismatchAlert)
      ensures !Disabled() && next.Some? ==> next.value != ""
    {
      if password != repeatPassword {
        return None, Some(MismatchAlert);
      }
      return Some(password), None;
    }
  }
}
