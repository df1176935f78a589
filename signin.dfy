/** The sign-in forms: email and password, and one button per social
    provider (Google, Facebook, Twitter) that also stores a profile record. */
module SignIn {
  import opened Values
  import opened Auth

  const ERROR_CODE_ACCOUNT_EXISTS: string := "auth/account-exists-with-different-credential"

  const ERROR_MSG_ACCOUNT_EXISTS: string :=
    "\nAn account with an E-Mail address to\n"
    + "this social account already exists. Please login from\n"
    + "this account instead and associate your social accounts on\n"
    + "your personal account page.\n"

  // ---------------------------------------------------------------------
  // Email and password

  datatype FormValues = FormValues(email: string, password: string)

  const INITIAL_STATE: FormValues := FormValues("", "")

  datatype Field = Email | Password

  function FieldOf(v: FormValues, f: Field): (r: string)
  {
    match f
    case Email => v.email
    case Password => v.password
  }

  /** `onChange`: the named field takes the typed value; the other is kept. */
  function WithField(v: FormValues, f: Field, value: string): (r: FormValues)
    ensures FieldOf(r, f) == value
    ensures forall g :: g != f ==> FieldOf(r, g) == FieldOf(v, g)
  {
    match f
    case Email => v.(email := value)
    case Password => v.(password := value)
  }

  /** The submit button is disabled exactly when this holds. */
  function IsInvalid(v: FormValues): (r: bool)
    ensures !r <==> v.email != "" && v.password != ""
  {
    v.password == "" || v.email == ""
  }

  /** A blank (initial or reset) form may not be submitted, and neither may
      one with only one of the two fields filled in. */
  lemma BlankIsInvalid(v: FormValues)
    ensures IsInvalid(INITIAL_STATE)
    ensures IsInvalid(WithField(INITIAL_STATE, Email, v.email))
    ensures IsInvalid(WithField(INITIAL_STATE, Password, v.password))
  {
  }

  class SignInForm {
    var values: FormValues
    var error: Option<AuthError>
    var requests: seq<AuthRequest>

    constructor ()
      ensures values == INITIAL_STATE && error == None && requests == []
    {
      values := INITIAL_STATE;
      error := None;
      requests := [];
    }

    method Change(f: Field, value: string)
      modifies this
      ensures values == WithField(old(values), f, value)
      ensures error == old(error) && requests == old(requests)
    {
      values := WithField(values, f, value);
    }

    method Submit()
      modifies this
      ensures requests == old(requests) + [SignInWithEmailAndPassword(old(values).email, old(values).password)]
      ensures values == old(values) && error == old(error)
    {
      requests := requests + [SignInWithEmailAndPassword(values.email, values.password)];
    }

    /** Signed in: the form is blank again; an earlier error stays. */
    method Succeeded()
      modifies this
      ensures values == INITIAL_STATE
      ensures error == old(error) && requests == old(requests)
    {
      values := INITIAL_STATE;
    }

    /** Rejected: the error is shown as it came (no rewrite here) and the form keeps its values. */
    method Failed(e: AuthError)
      modifies this
      ensures error == Some(e)
      ensures values == old(values) && requests == old(requests)
    {
      error := Some(e);
    }
  }

  // ---------------------------------------------------------------------
  // Social providers

  /** What a provider's sign-in resolves with: `user` and
      `additionalUserInfo.profile`. */
  datatype SocialAuthUser = SocialAuthUser(
    uid: string, displayName: string, email: string,
    profileName: string, profileEmail: string)

  /** The record stored for a social account: Google's comes from `user`,
      Facebook's and Twitter's from the provider's profile; none has a role. */
  function ProfileRecord(p: Provider, u: SocialAuthUser): (r: UserRecord)
    ensures r.roles == map[]
    ensures p == Google ==> r.username == u.displayName && r.email == u.email
    ensures p != Google ==> r.username == u.profileName && r.email == u.profileEmail
  {
    match p
    case Google => UserRecord(u.displayName, u.email, map[])
    case Facebook => UserRecord(u.profileName, u.profileEmail, map[])
    case Twitter => UserRecord(u.profileName, u.profileEmail, map[])
  }

  /** The social `catch` rewrite. */
  function RewriteSocialError(e: AuthError): (r: AuthError)
    ensures r.code == e.code
    ensures e.code == ERROR_CODE_ACCOUNT_EXISTS ==> r.message == ERROR_MSG_ACCOUNT_EXISTS
    ensures e.code != ERROR_CODE_ACCOUNT_EXISTS ==> r == e
  {
    RewriteMessage(e, ERROR_CODE_ACCOUNT_EXISTS, ERROR_MSG_ACCOUNT_EXISTS)
  }

  /** The social forms' `error` cell: `null`, a rejection, or the object
      `{error: null}` that a success stores. */
  datatype SocialError = NoError | Rejected(error: AuthError) | NullErrorObject

  /** The error paragraph, shown when `error` is truthy, and the text it holds.
      The success object is truthy but has no `message`, so it shows an empty paragraph. */
  function ErrorParagraph(e: SocialError): (r: Option<string>)
    ensures r.None? <==> e.NoError?
    ensures e.Rejected? ==> r == Some(e.error.message)
    ensures e.NullErrorObject? ==> r == Some("")
  {
    match e
    case NoError => None
    case Rejected(err) => Some(err.message)
    case NullErrorObject => Some("")
  }

  /** A success leaves an (empty) error paragraph on the form. */
  lemma SuccessShowsEmptyParagraph()
    ensures ErrorParagraph(NullErrorObject).Some?
    ensures ErrorParagraph(NullErrorObject) != ErrorParagraph(NoError)
  {
  }

  class SocialSignIn {
    const provider: Provider
    var error: SocialError
    var requests: seq<AuthRequest>

    constructor (p: Provider)
      ensures provider == p && error == NoError && requests == []
    {
      provider := p;
      error := NoError;
      requests := [];
    }

    method Submit()
      modifies this
      ensures requests == old(requests) + [SignInWithProvider(provider)]
      ensures error == old(error)
    {
      requests := requests + [SignInWithProvider(provider)];
    }

    /** The provider signed the user in: store the profile record under the uid. */
    method SignedIn(u: SocialAuthUser)
      modifies this
      ensures requests == old(requests) + [SetUser(u.uid, ProfileRecord(provider, u))]
      ensures error == old(error)
    {
      requests := requests + [SetUser(u.uid, ProfileRecord(provider, u))];
    }

    /** The profile was stored: `error` becomes `{error: null}`, not `null`. */
    method UserStored()
      modifies this
      ensures error == NullErrorObject && requests == old(requests)
    {
      error := NullErrorObject;
    }

    /** Some step failed: show the (rewritten) error. */
    method Failed(e: AuthError)
      modifies this
      ensures error == Rejected(RewriteSocialError(e)) && requests == old(requests)
    {
      var err := e;
      if err.code == ERROR_CODE_ACCOUNT_EXISTS {
        err := err.(message := ERROR_MSG_ACCOUNT_EXISTS);
      }
      error := Rejected(err);
    }
  }

  /** A Facebook sign-in: the profile's name is stored, and the form then
      shows an empty error paragraph. */
  method FacebookScenario()
  {
    var form := new SocialSignIn(Facebook);
    form.Submit();
    form.SignedIn(SocialAuthUser("u1", "Display", "d@example.com", "Profile", "p@example.com"));
    form.UserStored();
    assert form.requests == [
      SignInWithProvider(Facebook),
      SetUser("u1", UserRecord("Profile", "p@example.com", map[]))];
    assert ErrorParagraph(form.error) == Some("");
  }
}
