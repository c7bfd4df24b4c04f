/** The sign-up form (src/app/register/page.tsx): the state steps of
    `onSubmit` and the mapping from the CMS's error to the message shown.
    The POST to the CMS is a parameter: how it ended. */
module RegisterPage {
  import opened Common

  /** `err.response.data.error`, with its `message` possibly missing. */
  datatype BackendError = BackendError(message: Option<string>)

  /** How `fetcher.post('/api/auth/local/register', …)` ended: it resolved
      (with or without `data`), or it rejected, carrying the CMS's error
      object when the response had one. */
  datatype PostOutcome = Resolved(hasData: bool) | Rejected(backendError: Option<BackendError>)

  /** What the `catch` block does: set a message, or itself throw (reading
      `.includes` of a missing message), leaving `error` unset. */
  datatype CatchResult = SetError(text: string) | CatchThrows

  const EmailTaken := "Email is already taken"
  const UsernameTaken := "Username is already taken"
  const RegistrationFailed := "Registration failed"
  const Unexpected := "An unexpected error occurred"
  const RegisteredRedirect := "/login?message=Registration successful! Please sign in."
  const RedirectDelayMs := 2000

  /** Lines 54-65. */
  function ClassifyError(backendError: Option<BackendError>): (r: CatchResult)
    ensures r.SetError? ==> r.text != ""
    ensures r.CatchThrows? <==> backendError.Some? && backendError.value.message.None?
  {
    match backendError
    case None => SetError(Unexpected)
    case Some(BackendError(None)) => CatchThrows
    case Some(BackendError(Some(m))) =>
      if Contains(m, "email") then SetError(EmailTaken)
      else if Contains(m, "username") then SetError(UsernameTaken)
      else if m != "" then SetError(m)
      else SetError(RegistrationFailed)
  }

  /** The cases of the mapping: 'email' is tested first (case-sensitive),
      then 'username'; any other message is shown verbatim, an empty one
      as 'Registration failed'; no CMS error at all is 'unexpected'. */
  lemma ClassifyErrorCases(m: string)
    ensures ClassifyError(None) == SetError(Unexpected)
    ensures Contains(m, "email") ==> ClassifyError(Some(BackendError(Some(m)))) == SetError(EmailTaken)
    ensures !Contains(m, "email") && Contains(m, "username") ==> ClassifyError(Some(BackendError(Some(m)))) == SetError(UsernameTaken)
    ensures !Contains(m, "email") && !Contains(m, "username") && m != "" ==> ClassifyError(Some(BackendError(Some(m)))) == SetError(m)
    ensures ClassifyError(Some(BackendError(Some("")))) == SetError(RegistrationFailed)
  {
  }

  /** A message naming both fields is reported as an email clash. */
  lemma EmailBeforeUsername()
    ensures ClassifyError(Some(BackendError(Some("email or username are already taken")))) == SetError(EmailTaken)
  {
    var m := "email or username are already taken";
    ContainsAt(m, "email", 0);
  }

  /** The tests are case-sensitive: 'Email' alone is not an email clash. */
  lemma CaseSensitive()
    ensures ClassifyError(Some(BackendError(Some("Email")))) == SetError("Email")
  {
    var m := "Email";
    ShorterNotContains(m[1..], "email");
    assert m[0] != "email"[0];
    ShorterNotContains(m, "username");
  }

  /** The form's state. `scheduledRedirect` is the navigation the 2000 ms
      timer will perform. */
  class RegisterForm {
    var isLoading: bool
    var error: Option<string>
    var success: bool
    var scheduledRedirect: Option<string>

    constructor()
      ensures !isLoading && error.None? && !success && scheduledRedirect.None?
    {
      isLoading := false;
      error := None;
      success := false;
      scheduledRedirect := None;
    }

    /** Lines 32-33: before the request. */
    method BeginSubmit()
      modifies this
      ensures isLoading && error.None?
      ensures success == old(success) && scheduledRedirect == old(scheduledRedirect)
    {
      isLoading := true;
      error := None;
    }

    /** Lines 35-68: after the request; `rejected` tells whether the
        `onSubmit` promise itself rejects (the catch block threw). */
    method FinishSubmit(outcome: PostOutcome) returns (rejected: bool)
      modifies this
      ensures !isLoading
      ensures rejected <==> outcome.Rejected? && ClassifyError(outcome.backendError).CatchThrows?
      ensures success == (old(success) || outcome == Resolved(true))
      ensures scheduledRedirect == if outcome == Resolved(true) then Some(RegisteredRedirect) else old(scheduledRedirect)
      ensures error == match outcome
        case Resolved(_) => old(error)
        case Rejected(e) => if ClassifyError(e).SetError? then Some(ClassifyError(e).text) else old(error)
    {
      rejected := false;
      match outcome {
        case Resolved(hasData) =>
          if hasData {
            success := true;
            scheduledRedirect := Some(RegisteredRedirect);
          }
        case Rejected(e) =>
          match ClassifyError(e) {
            case SetError(text) => error := Some(text);
            case CatchThrows => rejected := true;
          }
      }
      isLoading := false;
    }

    /** `onSubmit`: both steps. */
    method OnSubmit(outcome: PostOutcome) returns (rejected: bool)
      modifies this
      ensures !isLoading
      ensures rejected <==> outcome.Rejected? && ClassifyError(outcome.backendError).CatchThrows?
      ensures success == (old(success) || outcome == Resolved(true))
      ensures scheduledRedirect == if outcome == Resolved(true) then Some(RegisteredRedirect) else old(scheduledRedirect)
      ensures outcome.Rejected? && ClassifyError(outcome.backendError).SetError? ==>
        error == Some(ClassifyError(outcome.backendError).text)
      ensures !(outcome.Rejected? && ClassifyError(outcome.backendError).SetError?) ==> error.None?
    {
      BeginSubmit();
      rejected := FinishSubmit(outcome);
    }
  }
}
