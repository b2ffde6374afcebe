/** The hand-written login form of the header (`LoginModal`): submit refuses
    when a field is empty, otherwise sends `identity`/`password` and hands the
    returned token to `handleSuccessSubmit`. */
module LegacyLogin {
  import opened Common

  datatype Field = LoginField | PasswordField

  const MissingFieldsMessage := "Не все обязательные поля заполнены"

  datatype LoginBody = LoginBody(identity: string, password: string)

  /** The check at the top of `onSubmit`: both fields are filled in. */
  predicate Admits(login: string, password: string) {
    |login| != 0 && |password| != 0
  }

  /** The submit button's `disabled` expression. */
  predicate SubmitDisabled(login: string, password: string, pending: bool) {
    login == "" || password == "" || pending
  }

  /** The button and the submit check agree: while no request is pending the
      button is enabled exactly when submit would send a request. */
  lemma DisabledMatchesCheck(login: string, password: string)
    ensures !SubmitDisabled(login, password, false) <==> Admits(login, password)
    ensures SubmitDisabled(login, password, true)
  {
  }

  class LoginModal {
    var login: string
    var password: string
    var loginError: string

    /** Fields the user never edited are `undefined` in the source; here they are "". */
    constructor ()
      ensures login == "" && password == "" && loginError == ""
    {
      login, password, loginError := "", "", "";
    }

    /** `handleInputChange`: updates only that field and clears `loginError`. */
    method HandleInputChange(value: string, key: Field)
      modifies this
      ensures key == LoginField ==> login == value && password == old(password)
      ensures key == PasswordField ==> password == value && login == old(login)
      ensures loginError == ""
    {
      if key == LoginField {
        login := value;
      } else {
        password := value;
      }
      loginError := "";
    }

    /** `onSubmit`: an empty field sets the message and sends nothing; otherwise
        the request carries `identity` = login and the password, and on success
        the returned token is handed on. */
    method OnSubmit(response: Outcome) returns (request: Option<LoginBody>, handedToken: Option<string>)
      modifies this`loginError
      ensures !Admits(login, password) ==>
        request == None && handedToken == None && loginError == MissingFieldsMessage
      ensures Admits(login, password) ==>
        && request == Some(LoginBody(login, password)) && loginError == old(loginError)
        && handedToken == (if response.Ok? then Some(response.token) else None)
    {
      if |login| == 0 || |password| == 0 {
        loginError := MissingFieldsMessage;
        request, handedToken := None, None;
        return;
      }
      request := Some(LoginBody(login, password));
      handedToken := if response.Ok? then Some(response.token) else None;
    }

    function Disabled(pending: bool): bool
      reads this
    {
      SubmitDisabled(login, password, pending)
    }
  }
}
