/** The password-recovery page of the authorization modal: a two-step machine
    (`sendMassage`, then `successNotification`) driven by the status of the reset
    request, and the `stepData` table that gives each step its text, button and
    action. */
module RecoveryFlow {
  import opened Common
  import opened AuthPages

  datatype Step = SendMassage | SuccessNotification

  /** What `AuthService.passwordReset` gives back: a status, or a thrown error. */
  datatype ResetResponse = Status(code: int) | Thrown

  const InvalidEmailAlert := "Please enter a valid email address."

  /** The `switch (data.status)`: 204 advances, any other status or an exception
      leaves the step where it was. */
  function NextStep(step: Step, response: ResetResponse): (next: Step)
    ensures next == SuccessNotification <==> step == SuccessNotification || response == Status(204)
    ensures response != Status(204) ==> next == step
  {
    match response
    case Status(204) => SuccessNotification
    case _ => step
  }

  /** The alert raised for an answered request that was not 204; none for 204 or
      an exception. */
  function ResetAlert(response: ResetResponse): (alert: Option<string>)
    ensures alert.Some? <==> response.Status? && response.code != 204
    ensures alert.Some? ==> alert.value == InvalidEmailAlert
  {
    match response
    case Status(204) => None
    case Status(_) => Some(InvalidEmailAlert)
    case Thrown => None
  }

  datatype ButtonAction = SendLetter | CloseModal

  datatype StepEntry = StepEntry(notification: string, disabled: bool, buttonValue: string, buttonAction: ButtonAction)

  function StepData(step: Step, email: string): (e: StepEntry)
    ensures e.disabled <==> step == SendMassage && email == ""
    ensures e.buttonAction == CloseModal <==> step == SuccessNotification
  {
    match step
    case SendMassage =>
      StepEntry("Password must be at least 8 characters long.", email == "", "Send a letter", SendLetter)
    case SuccessNotification =>
      StepEntry("An email with a link to the password reset form has been sent to your email.", false,
                "Continue", CloseModal)
  }

  /** The button's `disabled || isPending`. */
  predicate ButtonDisabled(step: Step, email: string, pending: bool) {
    StepData(step, email).disabled || pending
  }

  /** The e-mail input is rendered only in the first step. */
  predicate EmailInputShown(step: Step) {
    step == SendMassage
  }

  /** The button can be pressed exactly when nothing is pending and either the
      letter has been sent or an e-mail has been typed; the closing action is the
      wrapper's `recovery` → null transition. */
  lemma ButtonEnabledIff(step: Step, email: string, pending: bool)
    ensures !ButtonDisabled(step, email, pending) <==> !pending && (step == SuccessNotification || email != "")
    ensures StepData(step, email).buttonAction == CloseModal ==> Navigate(Some(Recovery), RecoveryContinue) == None
  {
  }

  /** The step after a series of answers: the notification step is reached by a
      204 and, once reached, never left. */
  function Replay(step: Step, responses: seq<ResetResponse>): (last: Step)
    decreases |responses|
    ensures last == SuccessNotification <==>
      step == SuccessNotification || exists i :: 0 <= i < |responses| && responses[i] == Status(204)
  {
    if |responses| == 0 then step
    else
      var r := Replay(NextStep(step, responses[0]), responses[1..]);
      assert forall i :: 1 <= i < |responses| ==> responses[i] == responses[1..][i - 1];
      assert (exists i :: 1 <= i < |responses| && responses[i] == Status(204))
         <==> (exists j :: 0 <= j < |responses[1..]| && responses[1..][j] == Status(204));
      r
  }

  class RecoveryModal {
    var email: string
    var step: Step

    /** The form starts as `{}`; its `email` is modelled as "". */
    constructor ()
      ensures email == "" && step == SendMassage
    {
      email := "";
      step := SendMassage;
    }

    /** Typing into the e-mail input, which exists only in the first step. */
    method EditEmail(value: string)
      modifies this`email
      ensures email == if EmailInputShown(step) then value else old(email)
    {
      if EmailInputShown(step) {
        email := value;
      }
    }

    /** A click on the step's button. A disabled button does nothing; in the first
        step it sends the reset request for the current e-mail and advances on
        204; in the second it closes the modal. */
    method PressButton(pending: bool, response: ResetResponse)
      returns (request: Option<string>, alert: Option<string>, modalChange: Option<TLogin>)
      modifies this`step
      ensures ButtonDisabled(old(step), email, pending) ==>
        request == None && alert == None && modalChange == None && step == old(step)
      ensures !ButtonDisabled(old(step), email, pending) && old(step) == SendMassage ==>
        && request == Some(email) && email != ""
        && step == NextStep(old(step), response) && alert == ResetAlert(response) && modalChange == None
      ensures !ButtonDisabled(old(step), email, pending) && old(step) == SuccessNotification ==>
        request == None && alert == None && modalChange == Some(None) && step == old(step)
    {
      request, alert, modalChange := None, None, None;
      if ButtonDisabled(step, email, pending) {
        return;
      }
      match StepData(step, email).buttonAction {
        case SendLetter =>
          request := Some(email);
          match response {
            case Status(code) =>
              if code == 204 {
                step := SuccessNotification;
              } else {
                alert := Some(InvalidEmailAlert);
              }
            case Thrown =>
          }
        case CloseModal =>
          modalChange := Some(None);
      }
    }
  }
}
