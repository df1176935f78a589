/** What the three authentication forms share: the errors the identity
    provider rejects with, the user record they store, and the calls they make. */
module Auth {

  /** A rejection from the identity provider; the forms read `code` and show `message`. */
  datatype AuthError = AuthError(code: string, message: string)

  /** The record stored under `users/<uid>`. */
  datatype UserRecord = UserRecord(username: string, email: string, roles: map<string, string>)

  datatype Provider = Google | Facebook | Twitter

  /** One call into the identity provider or into `users/<uid>`. */
  datatype AuthRequest =
    | CreateUserWithEmailAndPassword(email: string, password: string)
    | SetUser(uid: string, record: UserRecord)
    | SendEmailVerification
    | SignInWithEmailAndPassword(email: string, password: string)
    | SignInWithProvider(provider: Provider)
    | PasswordReset(email: string)

  /** The `catch` handlers' rewrite: an error with the given code gets the
      fixed explanatory text as its message; any other error is kept as it is. */
  function RewriteMessage(e: AuthError, code: string, text: string): (r: AuthError)
    ensures r.code == e.code
    ensures e.code == code ==> r.message == text
    ensures e.code != code ==> r == e
  {
    if e.code == code then e.(message := text) else e
  }
}
