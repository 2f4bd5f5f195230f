/**
 * The sign-in page's submit handler and the mapping from a sign-in error
 * message to the text shown.
 */
module SignInPage {
  import opened Wrappers
  import opened Text
  import opened Auth

  const InvalidCredentialsText: string := "Invalid email or password. Please check your credentials and try again."
  const NotConfirmedText: string := "Please check your email and confirm your account before signing in."
  const TooManyRequestsText: string := "Too many login attempts. Please wait a moment before trying again."
  const SignInFailedText: string := "Failed to sign in. Please try again."

  /** The text shown for a sign-in error message: the first known phrase the message
    * contains decides; otherwise the message itself, or a default when it is empty. */
  function SignInErrorText(message: string): (r: string)
    ensures HasSubstring(message, "Invalid login credentials") ==> r == InvalidCredentialsText
    ensures !HasSubstring(message, "Invalid login credentials") && HasSubstring(message, "Email not confirmed") ==>
              r == NotConfirmedText
    ensures (!HasSubstring(message, "Invalid login credentials") && !HasSubstring(message, "Email not confirmed")
             && HasSubstring(message, "Too many requests")) ==> r == TooManyRequestsText
    ensures (!HasSubstring(message, "Invalid login credentials") && !HasSubstring(message, "Email not confirmed")
             && !HasSubstring(message, "Too many requests")) ==> r == (if message != "" then message else SignInFailedText)
  {
    if HasSubstring(message, "Invalid login credentials") then InvalidCredentialsText
    else if HasSubstring(message, "Email not confirmed") then NotConfirmedText
    else if HasSubstring(message, "Too many requests") then TooManyRequestsText
    else if message != "" then message
    else SignInFailedText
  }

  /** An error is never shown as an empty text, and a message that names none of the known
    * phrases is shown as it is. */
  lemma SignInErrorTextShape(message: string)
    ensures SignInErrorText(message) != ""
    ensures message != "" && !HasSubstring(message, "Invalid login credentials")
            && !HasSubstring(message, "Email not confirmed") && !HasSubstring(message, "Too many requests")
            ==> SignInErrorText(message) == message
  {
  }

  /** The page's state: the error shown, the loading flag, the sign-in calls made and where
    * it navigated. */
  class SignInPageState {
    var error: string
    var isLoading: bool
    var signInCalls: seq<(string, string)>
    var navigatedTo: Option<string>

    constructor()
      ensures error == "" && !isLoading && signInCalls == [] && navigatedTo == None
    {
      error, isLoading, signInCalls, navigatedTo := "", false, [], None;
    }

    /** `handleSubmit`: one `signIn` call; success navigates to the module page and leaves
      * the page loading, an error or a throw stops loading and shows a text. */
    method HandleSubmit(email: string, password: string, outcome: AuthOutcome)
      modifies this
      ensures signInCalls == old(signInCalls) + [(email, password)]
      ensures outcome.AuthOk? ==> error == "" && isLoading && navigatedTo == Some(ModuleRoute)
      ensures outcome.AuthError? ==>
                error == SignInErrorText(outcome.message) && !isLoading && navigatedTo == old(navigatedTo)
      ensures outcome.AuthThrew? ==> error == UnexpectedErrorText && !isLoading && navigatedTo == old(navigatedTo)
    {
      isLoading := true;
      error := "";
      signInCalls := signInCalls + [(email, password)];
      match outcome {
        case AuthOk =>
          navigatedTo := Some(ModuleRoute);
        case AuthError(m) =>
          isLoading := false;
          error := SignInErrorText(m);
        case AuthThrew =>
          isLoading := false;
          error := UnexpectedErrorText;
      }
    }
  }
}
