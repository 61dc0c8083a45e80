/**
 * Classification of identity-provider errors into user-facing messages
 * (`handleAuthError`).
 */
module AuthErrors {

  /** A provider error as thrown: the empty string stands for an absent
      (or otherwise falsy) `code` or `message`. */
  datatype ProviderError = ProviderError(code: string, message: string)

  /** What the session store reports: `{ code, message }`. */
  datatype AuthError = AuthError(code: string, message: string)

  const DefaultMessage: string := "An error occurred. Please try again."
  const UnknownCode: string := "unknown"

  /** The closed table of codes with a fixed message, as a reference for the
      switch in `HandleAuthError`. */
  const KnownMessages: map<string, string> := map[
    "auth/email-already-in-use" := "This email is already registered. Please login instead.",
    "auth/invalid-email" := "Invalid email address.",
    "auth/operation-not-allowed" := "Email/password authentication is not enabled.",
    "auth/weak-password" := "Password is too weak. Please use at least 6 characters.",
    "auth/user-disabled" := "This account has been disabled.",
    "auth/user-not-found" := "No account found with this email.",
    "auth/wrong-password" := "Incorrect password.",
    "auth/invalid-credential" := "Invalid email or password.",
    "auth/too-many-requests" := "Too many failed attempts. Please try again later."
  ]

  /** `handleAuthError(err)`: `code` is `err.code || 'unknown'`; a listed
      code takes its fixed message, any other the provider's own message or,
      failing that, the default. */
  function HandleAuthError(err: ProviderError): (r: AuthError)
    ensures r.code == if err.code == "" then UnknownCode else err.code
    ensures r.code in KnownMessages ==> r.message == KnownMessages[r.code]
    ensures r.code !in KnownMessages ==> r.message == if err.message == "" then DefaultMessage else err.message
    ensures r.message != ""
  {
    var code := if err.code == "" then UnknownCode else err.code;
    var message :=
      match code
      case "auth/email-already-in-use" => "This email is already registered. Please login instead."
      case "auth/invalid-email" => "Invalid email address."
      case "auth/operation-not-allowed" => "Email/password authentication is not enabled."
      case "auth/weak-password" => "Password is too weak. Please use at least 6 characters."
      case "auth/user-disabled" => "This account has been disabled."
      case "auth/user-not-found" => "No account found with this email."
      case "auth/wrong-password" => "Incorrect password."
      case "auth/invalid-credential" => "Invalid email or password."
      case "auth/too-many-requests" => "Too many failed attempts. Please try again later."
      case _ => if err.message == "" then DefaultMessage else err.message;
    AuthError(code, message)
  }

  /** No listed message is the default, and the `unknown` code is not
      listed. */
  lemma KnownMessagesTable()
    ensures UnknownCode !in KnownMessages
    ensures forall c :: c in KnownMessages ==> KnownMessages[c] != DefaultMessage
  {
  }
}
