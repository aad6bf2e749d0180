/**
 * The login page's decisions: the validation chain in front of the email sign-in, the mapping of
 * sign-in failures to messages, the Login button's enabled rule, and the page's `error`/`isLoading`
 * state through the email flow and the Google flow, which lets a Google account in only when its
 * user document exists and is marked active.
 */
module LoginPage {
  import opened Wrappers
  import opened Text
  import opened DocumentStore
  import opened Auth

  const EmailEmpty: string := "Email cannot be empty"
  const EmailInvalid: string := "Please enter a valid email address"
  const PasswordEmpty: string := "Password cannot be empty"

  const InvalidCredentials: string := "Invalid email or password"
  const NetworkFailure: string := "Network error. Please check your connection"
  const RateLimited: string := "Too many failed attempts. Please try again later"
  const AccountNotFound: string := "Account not found. Please sign up first."

  /**
   * The validation `when`, first failing rule first. `emailValid` is the answer of the platform's
   * e-mail address pattern for `email`.
   */
  function LoginValidationError(email: string, password: string, emailValid: bool): Option<string> {
    if IsBlank(email) then Some(EmailEmpty)
    else if !emailValid then Some(EmailInvalid)
    else if IsBlank(password) then Some(PasswordEmpty)
    else None
  }

  /** Each message is reported exactly when the earlier rules pass and its own fails. */
  lemma LoginValidationOrder(email: string, password: string, emailValid: bool)
    ensures var v := LoginValidationError(email, password, emailValid);
      && (v == Some(EmailEmpty) <==> IsBlank(email))
      && (v == Some(EmailInvalid) <==> !IsBlank(email) && !emailValid)
      && (v == Some(PasswordEmpty) <==> !IsBlank(email) && emailValid && IsBlank(password))
      && (v == None <==> !IsBlank(email) && emailValid && !IsBlank(password))
  {
  }

  /** The mapping of a sign-in failure to the message shown, first match first. */
  function LoginFailureMessage(e: Exception): string {
    if MessageContains(e, "no user record") || MessageContains(e, "invalid-credential")
       || MessageContains(e, "wrong-password") then InvalidCredentials
    else if MessageContains(e, "network error") then NetworkFailure
    else if MessageContains(e, "too-many-requests") then RateLimited
    else MessageOr(e, "Login failed")
  }

  /**
   * An unknown user, a rejected credential and a wrong password all read "Invalid email or password",
   * ahead of the network and rate messages; any other failure shows its own message, or
   * "Login failed" when it has none.
   */
  lemma LoginFailureMessageSpec(e: Exception)
    ensures var credential := MessageContains(e, "no user record") || MessageContains(e, "invalid-credential")
                              || MessageContains(e, "wrong-password");
      && (credential ==> LoginFailureMessage(e) == InvalidCredentials)
      && (!credential && MessageContains(e, "network error") ==> LoginFailureMessage(e) == NetworkFailure)
      && (!credential && !MessageContains(e, "network error") && MessageContains(e, "too-many-requests")
          ==> LoginFailureMessage(e) == RateLimited)
      && (!credential && !MessageContains(e, "network error") && !MessageContains(e, "too-many-requests")
          ==> LoginFailureMessage(e) == (if e.Message().Some? then e.Message().value else "Login failed"))
    ensures e.Message().None? ==> LoginFailureMessage(e) == "Login failed"
  {
  }

  /** The Login button is enabled when nothing is loading and both fields are non-empty. */
  predicate LoginButtonEnabled(isLoading: bool, email: string, password: string) {
    !isLoading && |email| > 0 && |password| > 0
  }

  /**
   * Any input that passes validation also enables the button when nothing is loading; the converse
   * fails: a whitespace-only email enables the button and is then rejected as empty.
   */
  lemma ValidInputEnablesButton(email: string, password: string, emailValid: bool)
    ensures LoginValidationError(email, password, emailValid) == None ==> LoginButtonEnabled(false, email, password)
    ensures LoginButtonEnabled(false, " ", password) <==> |password| > 0
    ensures LoginValidationError(" ", password, emailValid) == Some(EmailEmpty)
  {
    if LoginValidationError(email, password, emailValid) == None {
      assert email != [] && password != [];
    }
    assert IsWhitespace(" "[0]);
  }

  /**
   * The user document read of the Google flow: `Success(true)` when the document exists and its
   * `isActive` is `true`; `getBoolean` throws on an `isActive` that holds another kind of value.
   */
  function GoogleAccountActive(document: Option<Fields>): (r: Result<bool, Exception>)
    ensures r == Success(true) <==>
      document.Some? && "isActive" in document.value && document.value["isActive"] == BoolValue(true)
    ensures document.None? ==> r == Success(false)
  {
    if document.None? then Success(false)
    else
      var flag :- GetBoolean(document.value, "isActive");
      Success(flag == Some(true))
  }

  /** How each step of the Google flow came back. */
  datatype GoogleLogin =
    | PickerCancelled                   // the activity result is not OK
    | AccountFailed(failure: Exception)  // `getResult` throws the picker's `ApiException`
    | SignInFailed(failure: Exception)   // `signInWithCredential` fails
    | NoUser                             // the sign-in result has no user
    | ReadFailed(failure: Exception)     // reading the user document fails
    | DocumentRead(document: Option<Fields>) // the user document, `None` when it does not exist

  /**
   * Where the Google flow ends: the page's `error` and whether it logs in and whether the fresh
   * auth account is deleted and signed out again; or an exception thrown out of the read's listener.
   */
  datatype GoogleEnd =
    | Finished(error: Option<string>, loggedIn: bool, accountRemoved: bool)
    | Uncaught(exception: Exception)

  /** The Google flow's end, from the page's error before it; loading always stops where it finishes. */
  function GoogleLoginEnd(error: Option<string>, flow: GoogleLogin): GoogleEnd {
    match flow
    case PickerCancelled => Finished(error, false, false)
    case AccountFailed(e) => Finished(Some("Google Sign-In failed: " + MessageText(e)), false, false)
    case SignInFailed(e) => Finished(Some(MessageOr(e, "Google Sign-In failed")), false, false)
    case NoUser => Finished(Some("Failed to get user information"), false, false)
    case ReadFailed(e) => Finished(Some("Failed to verify account: " + MessageText(e)), false, true)
    case DocumentRead(document) =>
      match GoogleAccountActive(document)
      case Success(true) => Finished(error, true, false)
      case Success(false) => Finished(Some(AccountNotFound), false, true)
      case Failure(e) => Uncaught(e)
  }

  /**
   * A Google login goes through exactly when the user document exists with `isActive` true; a
   * missing document or one not marked active shows "Account not found. Please sign up first." and
   * removes the account; the account is removed only after a successful sign-in whose check failed.
   */
  lemma GoogleLoginSpec(error: Option<string>, flow: GoogleLogin)
    ensures var r := GoogleLoginEnd(error, flow);
      && (r.Finished? && r.loggedIn <==>
            flow.DocumentRead? && flow.document.Some? && "isActive" in flow.document.value
            && flow.document.value["isActive"] == BoolValue(true))
      && (flow.DocumentRead? && flow.document.None? ==> r == Finished(Some(AccountNotFound), false, true))
      && ((flow.DocumentRead? && flow.document.Some? && "isActive" in flow.document.value
           && flow.document.value["isActive"] in {BoolValue(false), NullValue}) ==>
            r == Finished(Some(AccountNotFound), false, true))
      && (flow.DocumentRead? && flow.document.Some? && "isActive" !in flow.document.value ==>
            r == Finished(Some(AccountNotFound), false, true))
      && (r.Finished? && r.accountRemoved ==> flow.ReadFailed? || flow.DocumentRead?)
      && (r.Uncaught? ==> flow.DocumentRead?)
  {
  }

  /** The page's remembered state. */
  class LoginForm {
    var email: string
    var password: string
    var error: Option<string>
    var isLoading: bool

    constructor ()
      ensures email == "" && password == "" && error == None && !isLoading
    {
      email, password := "", "";
      error := None;
      isLoading := false;
    }

    /** The email field's `onValueChange`: the new text, and the error cleared. */
    method OnEmailChange(value: string)
      modifies this
      ensures email == value && error == None
      ensures password == old(password) && isLoading == old(isLoading)
    {
      email := value;
      error := None;
    }

    /** The password field's `onValueChange`: the new text, and the error cleared. */
    method OnPasswordChange(value: string)
      modifies this
      ensures password == value && error == None
      ensures email == old(email) && isLoading == old(isLoading)
    {
      password := value;
      error := None;
    }

    /**
     * The Login button: a failed rule shows its message and changes nothing else; otherwise loading
     * starts, the error is cleared and the sign-in is made with the current email and password.
     */
    method OnLoginClick(emailValid: bool) returns (signIn: Option<(string, string)>)
      modifies this
      ensures var v := LoginValidationError(email, password, emailValid);
        && (v.Some? ==> error == v && isLoading == old(isLoading) && signIn == None)
        && (v.None? ==> error == None && isLoading && signIn == Some((email, password)))
      ensures email == old(email) && password == old(password)
    {
      if IsBlank(email) {
        error := Some(EmailEmpty);
      } else if !emailValid {
        error := Some(EmailInvalid);
      } else if IsBlank(password) {
        error := Some(PasswordEmpty);
      } else {
        isLoading := true;
        error := None;
        return Some((email, password));
      }
      return None;
    }

    /** The sign-in's completion: loading stops; success moves on, failure shows the mapped message. */
    method OnSignInCompleted(outcome: Outcome<Exception>) returns (loggedIn: bool)
      modifies this
      ensures !isLoading
      ensures loggedIn <==> outcome.Pass?
      ensures outcome.Pass? ==> error == old(error)
      ensures outcome.Fail? ==> error == Some(LoginFailureMessage(outcome.error))
      ensures email == old(email) && password == old(password)
    {
      isLoading := false;
      match outcome
      case Pass =>
        return true;
      case Fail(e) =>
        error := Some(LoginFailureMessage(e));
        return false;
    }

    /**
     * The Google launcher's callback, run to the end of the flow: loading stops and the error is the
     * flow's; an exception thrown out of the document listener leaves the page loading, with its error.
     */
    method OnGoogleResult(flow: GoogleLogin) returns (end: GoogleEnd)
      modifies this
      ensures end == GoogleLoginEnd(old(error), flow)
      ensures end.Finished? ==> error == end.error && !isLoading
      ensures end.Uncaught? ==> error == old(error) && isLoading
      ensures email == old(email) && password == old(password)
    {
      end := GoogleLoginEnd(error, flow);
      match flow {
        case PickerCancelled =>
          isLoading := false;
        case AccountFailed(e) =>
          isLoading := false;
          error := Some("Google Sign-In failed: " + MessageText(e));
        case SignInFailed(e) =>
          isLoading := false;
          error := Some(MessageOr(e, "Google Sign-In failed"));
        case NoUser =>
          isLoading := false;
          error := Some("Failed to get user information");
        case ReadFailed(e) =>
          isLoading := false;
          error := Some("Failed to verify account: " + MessageText(e));
        case DocumentRead(document) =>
          isLoading := true;
          var active := GoogleAccountActive(document);
          if active.Success? {
            isLoading := false;
            if !active.value {
              error := Some(AccountNotFound);
            }
          }
      }
    }
  }
}
