/**
 * The sign-up page's decisions: the validation chain in front of account creation, the mapping of
 * creation failures to messages, and the page's `error`/`isLoading` state through the email flow
 * (create the account, then store the username in its profile) and the Google flow.
 */
module SignUp {
  import opened Wrappers
  import opened Text
  import opened DocumentStore
  import opened Auth

  const EmailEmpty: string := "Email cannot be empty"
  const UsernameEmpty: string := "Username cannot be empty"
  const PasswordEmpty: string := "Password cannot be empty"
  const PasswordShort: string := "Password must be at least 6 characters"
  const PasswordsDiffer: string := "Passwords do not match"

  /** The shortest password the page accepts. */
  const MinPasswordLength: nat := 6

  /** The validation `when`: the first failing rule gives the message; `None` lets the sign-up start. */
  function SignUpValidationError(email: string, username: string, password: string, confirmPassword: string)
    : Option<string>
  {
    if IsBlank(email) then Some(EmailEmpty)
    else if IsBlank(username) then Some(UsernameEmpty)
    else if IsBlank(password) then Some(PasswordEmpty)
    else if |password| < MinPasswordLength then Some(PasswordShort)
    else if password != confirmPassword then Some(PasswordsDiffer)
    else None
  }

  /**
   * The rules in their order: each message is reported exactly when every earlier rule passes and
   * its own fails, and the sign-up starts exactly when all five pass.
   */
  lemma SignUpValidationOrder(email: string, username: string, password: string, confirmPassword: string)
    ensures var v := SignUpValidationError(email, username, password, confirmPassword);
      && (v == Some(EmailEmpty) <==> IsBlank(email))
      && (v == Some(UsernameEmpty) <==> !IsBlank(email) && IsBlank(username))
      && (v == Some(PasswordEmpty) <==> !IsBlank(email) && !IsBlank(username) && IsBlank(password))
      && (v == Some(PasswordShort) <==>
            !IsBlank(email) && !IsBlank(username) && !IsBlank(password) && |password| < MinPasswordLength)
      && (v == Some(PasswordsDiffer) <==>
            !IsBlank(email) && !IsBlank(username) && !IsBlank(password) && |password| >= MinPasswordLength
            && password != confirmPassword)
      && (v == None <==>
            !IsBlank(email) && !IsBlank(username) && !IsBlank(password) && |password| >= MinPasswordLength
            && password == confirmPassword)
  {
  }

  /**
   * A password of only whitespace is reported as empty whatever its length, never as too short;
   * and an accepted password is at least six characters long and holds a non-whitespace character.
   */
  lemma WhitespacePasswordIsEmpty(email: string, username: string, password: string, confirmPassword: string)
    requires !IsBlank(email) && !IsBlank(username)
    ensures (forall i :: 0 <= i < |password| ==> IsWhitespace(password[i])) ==>
      SignUpValidationError(email, username, password, confirmPassword) == Some(PasswordEmpty)
    ensures SignUpValidationError(email, username, password, confirmPassword) == None ==>
      |password| >= MinPasswordLength && exists i :: 0 <= i < |password| && !IsWhitespace(password[i])
  {
  }

  /** The mapping of an account-creation failure to the message shown, first match first. */
  function SignUpFailureMessage(e: Exception): string {
    if MessageContains(e, "email address is already in use") then "This email is already registered"
    else if MessageContains(e, "email address is badly formatted") then "Invalid email address"
    else MessageOr(e, "Sign up failed")
  }

  /**
   * A taken address and a malformed address get their own messages, the taken address first when a
   * message names both; any other failure shows its message, or "Sign up failed" when it has none.
   */
  lemma SignUpFailureMessageSpec(e: Exception)
    ensures MessageContains(e, "email address is already in use") ==>
      SignUpFailureMessage(e) == "This email is already registered"
    ensures !MessageContains(e, "email address is already in use") && MessageContains(e, "email address is badly formatted")
      ==> SignUpFailureMessage(e) == "Invalid email address"
    ensures !MessageContains(e, "email address is already in use") && !MessageContains(e, "email address is badly formatted")
      ==> SignUpFailureMessage(e) == (if e.Message().Some? then e.Message().value else "Sign up failed")
    ensures e.Message().None? ==> SignUpFailureMessage(e) == "Sign up failed"
  {
  }

  /** The message a failed profile update shows. */
  function ProfileFailureMessage(e: Exception): (r: string)
    ensures e.Message().Some? ==> r == "Failed to set username: " + e.Message().value
    ensures e.Message().None? ==> r == "Failed to set username: null"
  {
    "Failed to set username: " + MessageText(e)
  }

  /** How the Google account picker came back, and what the credential sign-in did. */
  datatype GoogleSignUp =
    | PickerCancelled                  // the activity result is not OK
    | AccountFailed(failure: Exception) // `getResult` throws the picker's `ApiException`
    | SignInFailed(failure: Exception)  // `signInWithCredential` fails
    | SignedIn                          // `signInWithCredential` succeeds

  /** The page's two remembered flags after the Google flow, and whether it moves on. */
  datatype GoogleEnd = GoogleEnd(error: Option<string>, isLoading: bool, signedUp: bool)

  /** The Google flow: a cancelled picker changes nothing; every other end stops loading. */
  function GoogleSignUpEnd(error: Option<string>, isLoading: bool, flow: GoogleSignUp): GoogleEnd {
    match flow
    case PickerCancelled => GoogleEnd(error, isLoading, false)
    case AccountFailed(e) => GoogleEnd(Some("Google Sign-In failed: " + MessageText(e)), false, false)
    case SignInFailed(e) => GoogleEnd(Some(MessageOr(e, "Google Sign-In failed")), false, false)
    case SignedIn => GoogleEnd(error, false, true)
  }

  /** Only a completed credential sign-in moves on; it keeps the error, and only the cancel keeps loading. */
  lemma GoogleSignUpSpec(error: Option<string>, isLoading: bool, flow: GoogleSignUp)
    ensures var r := GoogleSignUpEnd(error, isLoading, flow);
      && (r.signedUp <==> flow.SignedIn?)
      && (r.signedUp ==> r.error == error)
      && (r.isLoading <==> flow.PickerCancelled? && isLoading)
      && (r.error != error ==> flow.AccountFailed? || flow.SignInFailed?)
  {
  }

  /** The page's remembered state. */
  class SignUpForm {
    var email: string
    var username: string
    var password: string
    var confirmPassword: string
    var error: Option<string>
    var isLoading: bool

    constructor ()
      ensures email == "" && username == "" && password == "" && confirmPassword == ""
      ensures error == None && !isLoading
    {
      email, username, password, confirmPassword := "", "", "", "";
      error := None;
      isLoading := false;
    }

    /** The four text fields' `onValueChange`: only the edited field changes. */
    method OnEmailChange(value: string)
      modifies this
      ensures email == value
      ensures username == old(username) && password == old(password) && confirmPassword == old(confirmPassword)
      ensures error == old(error) && isLoading == old(isLoading)
    {
      email := value;
    }

    method OnUsernameChange(value: string)
      modifies this
      ensures username == value
      ensures email == old(email) && password == old(password) && confirmPassword == old(confirmPassword)
      ensures error == old(error) && isLoading == old(isLoading)
    {
      username := value;
    }

    method OnPasswordChange(value: string)
      modifies this
      ensures password == value
      ensures email == old(email) && username == old(username) && confirmPassword == old(confirmPassword)
      ensures error == old(error) && isLoading == old(isLoading)
    {
      password := value;
    }

    method OnConfirmPasswordChange(value: string)
      modifies this
      ensures confirmPassword == value
      ensures email == old(email) && username == old(username) && password == old(password)
      ensures error == old(error) && isLoading == old(isLoading)
    {
      confirmPassword := value;
    }

    /**
     * The Sign Up button: a failed rule shows its message and changes nothing else; otherwise loading
     * starts, the error is cleared, and `create` holds the email and password the account is created with.
     */
    method OnSignUpClick() returns (create: Option<(string, string)>)
      modifies this
      ensures var v := SignUpValidationError(email, username, password, confirmPassword);
        && (v.Some? ==> error == v && isLoading == old(isLoading) && create == None)
        && (v.None? ==> error == None && isLoading && create == Some((email, password)))
      ensures email == old(email) && username == old(username)
      ensures password == old(password) && confirmPassword == old(confirmPassword)
    {
      if IsBlank(email) {
        error := Some(EmailEmpty);
      } else if IsBlank(username) {
        error := Some(UsernameEmpty);
      } else if IsBlank(password) {
        error := Some(PasswordEmpty);
      } else if |password| < MinPasswordLength {
        error := Some(PasswordShort);
      } else if password != confirmPassword {
        error := Some(PasswordsDiffer);
      } else {
        isLoading := true;
        error := None;
        return Some((email, password));
      }
      return None;
    }

    /** Account creation failed: loading stops and the mapped message is shown. */
    method OnCreateFailed(e: Exception)
      modifies this
      ensures error == Some(SignUpFailureMessage(e)) && !isLoading
      ensures email == old(email) && username == old(username)
      ensures password == old(password) && confirmPassword == old(confirmPassword)
    {
      isLoading := false;
      error := Some(SignUpFailureMessage(e));
    }

    /**
     * Account creation succeeded: the profile update is sent with the username as display name when
     * the result has a user; with no user nothing happens, so the page stays loading.
     */
    method OnCreateSucceeded(user: Option<User>) returns (displayName: Option<string>)
      ensures user.Some? <==> displayName == Some(username)
      ensures user.None? <==> displayName == None
    {
      if user.Some? {
        return Some(username);
      }
      return None;
    }

    /** The profile update's completion: success stops loading and moves on; failure shows its message. */
    method OnProfileUpdated(outcome: Outcome<Exception>) returns (signedUp: bool)
      modifies this
      ensures !isLoading
      ensures signedUp <==> outcome.Pass?
      ensures outcome.Pass? ==> error == old(error)
      ensures outcome.Fail? ==> error == Some(ProfileFailureMessage(outcome.error))
      ensures email == old(email) && username == old(username)
      ensures password == old(password) && confirmPassword == old(confirmPassword)
    {
      isLoading := false;
      match outcome
      case Pass =>
        return true;
      case Fail(e) =>
        error := Some(ProfileFailureMessage(e));
        return false;
    }

    /** The Google launcher's callback. */
    method OnGoogleResult(flow: GoogleSignUp) returns (signedUp: bool)
      modifies this
      ensures GoogleEnd(error, isLoading, signedUp) == GoogleSignUpEnd(old(error), old(isLoading), flow)
      ensures email == old(email) && username == old(username)
      ensures password == old(password) && confirmPassword == old(confirmPassword)
    {
      signedUp := false;
      match flow
      case PickerCancelled =>
      case AccountFailed(e) =>
        isLoading := false;
        error := Some("Google Sign-In failed: " + MessageText(e));
      case SignInFailed(e) =>
        isLoading := false;
        error := Some(MessageOr(e, "Google Sign-In failed"));
      case SignedIn =>
        isLoading := false;
        signedUp := true;
    }
  }
}
