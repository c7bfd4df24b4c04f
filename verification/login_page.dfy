/** The sign-in form (src/app/login/page.tsx): the state steps of
    `onSubmit` given what `signIn('credentials', …)` ended with. The session
    read after a successful sign-in is only logged and is not modelled. */
module LoginPage {
  import opened Common
  import opened Claims
  import Middleware

  /** The result object of `signIn` (`error` set on a refused sign-in). */
  datatype SignInResult = SignInResult(error: Option<string>, ok: bool)

  /** How the call ended: it threw, or resolved with a result that may be
      undefined. */
  datatype SignInOutcome = Threw | Resolved(result: Option<SignInResult>)

  const InvalidCredentials := "Invalid email or password"
  const Unexpected := "An unexpected error occurred"
  const AfterLogin := "/dashboard"

  /** `result?.error` is truthy. */
  predicate HasError(r: Option<SignInResult>) {
    r.Some? && r.value.error.Some? && r.value.error.value != ""
  }

  /** `result?.ok` is truthy. */
  predicate IsOk(r: Option<SignInResult>) {
    r.Some? && r.value.ok
  }

  /** The form's state; `navigation` is the last `router.push` target and
      `refreshed` whether `router.refresh()` was called. */
  class LoginForm {
    var isLoading: bool
    var error: Option<string>
    var navigation: Option<string>
    var refreshed: bool

    constructor()
      ensures !isLoading && error.None? && navigation.None? && !refreshed
    {
      isLoading := false;
      error := None;
      navigation := None;
      refreshed := false;
    }

    /** Lines 30-31: before the call. */
    method BeginSubmit()
      modifies this
      ensures isLoading && error.None?
      ensures navigation == old(navigation) && refreshed == old(refreshed)
    {
      isLoading := true;
      error := None;
    }

    /** Lines 33-56: after the call. */
    method FinishSubmit(outcome: SignInOutcome)
      modifies this
      ensures !isLoading
      ensures outcome.Threw? ==> error == Some(Unexpected)
      ensures outcome.Resolved? && HasError(outcome.result) ==> error == Some(InvalidCredentials)
      ensures !(outcome.Threw? || HasError(outcome.result)) ==> error == old(error)
      ensures outcome.Resolved? && !HasError(outcome.result) && IsOk(outcome.result) ==>
        navigation == Some(AfterLogin) && refreshed
      ensures !(outcome.Resolved? && !HasError(outcome.result) && IsOk(outcome.result)) ==>
        navigation == old(navigation) && refreshed == old(refreshed)
    {
      match outcome {
        case Threw =>
          error := Some(Unexpected);
        case Resolved(result) =>
          if HasError(result) {
            error := Some(InvalidCredentials);
          } else if IsOk(result) {
            navigation := Some(AfterLogin);
            refreshed := true;
          }
      }
      isLoading := false;
    }

    /** `onSubmit`: both steps. */
    method OnSubmit(outcome: SignInOutcome)
      modifies this
      ensures !isLoading
      ensures error.Some? <==> outcome.Threw? || HasError(outcome.result)
      ensures error.Some? ==> error.value in {Unexpected, InvalidCredentials}
      ensures navigation.Some? && navigation != old(navigation) ==> navigation == Some(AfterLogin)
      ensures error.Some? ==> navigation == old(navigation)
      ensures outcome.Resolved? && !HasError(outcome.result) && IsOk(outcome.result) ==>
        navigation == Some(AfterLogin) && refreshed
      ensures !(outcome.Resolved? && !HasError(outcome.result) && IsOk(outcome.result)) ==>
        navigation == old(navigation) && refreshed == old(refreshed)
    {
      BeginSubmit();
      FinishSubmit(outcome);
    }
  }

  /** The destination after signing in is fixed: a visitor the middleware
      sent to the login page from a protected path (with that path as
      `callbackUrl`) lands on '/dashboard', which is in another section of
      the middleware's table unless the path was under '/dashboard'. */
  lemma CallbackUrlIgnored(pathname: string)
    requires Middleware.FindPrefix(Middleware.ProtectedRoutes, pathname).Some?
    ensures Middleware.Evaluate(pathname, None) == Middleware.RedirectToLogin(pathname)
    ensures Middleware.FindPrefix(Middleware.ProtectedRoutes, AfterLogin) == Some(0)
    ensures Middleware.FindPrefix(Middleware.ProtectedRoutes, pathname) != Some(0) ==>
      Middleware.FindPrefix(Middleware.ProtectedRoutes, AfterLogin) != Middleware.FindPrefix(Middleware.ProtectedRoutes, pathname)
  {
    Middleware.MatchIsUnique(AfterLogin, 0);
  }
}
