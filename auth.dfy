/**
 * What an authentication call (`signUp`, `signIn`) resolves to, as the
 * sign-up and sign-in pages see it.
 */
module Auth {
  /** The call returned no error, returned an error with a message, or threw. */
  datatype AuthOutcome = AuthOk | AuthError(message: string) | AuthThrew

  const UnexpectedErrorText: string := "An unexpected error occurred. Please try again."

  /** The route a successful submission navigates to. */
  const ModuleRoute: string := "/module"
}
