/** The sign-up form: username, email, two passwords and an admin checkbox;
    on submit it creates the account, stores the user record with its roles,
    sends the verification email and resets the form. */
module SignUp {
  import opened Values
  import opened Auth

  /** The admin role's name (the roles constants are not part of this model). */
  const ADMIN: string := "ADMIN"

  const ERROR_CODE_ACCOUNT_EXISTS: string := "auth/email-already-in-use"

  const ERROR_MSG_ACCOUNT_EXISTS: string :=
    "\nAn account with this E-Mail address already exists.\n"
    + "Try to login with this account instead. If you think the\n"
    + "account is already used from one of the social logins, try\n"
    + "to sign-in with one of them. Afterward, associate your accounts\n"
    + "on your personal account page.\n"

  datatype FormValues = FormValues(
    username: string, email: string, passwordOne: string, passwordTwo: string, isAdmin: bool)

  const INITIAL_FORM_VALUES: FormValues := FormValues("", "", "", "", false)

  /** The `name`s of the form's text inputs and of its checkbox. */
  datatype TextField = Username | Email | PasswordOne | PasswordTwo
  datatype CheckboxField = IsAdmin

  function TextOf(v: FormValues, f: TextField): (r: string)
  {
    match f
    case Username => v.username
    case Email => v.email
    case PasswordOne => v.passwordOne
    case PasswordTwo => v.passwordTwo
  }

  /** `onChange`: the named text field takes the typed value; the rest is kept. */
  function WithText(v: FormValues, f: TextField, value: string): (r: FormValues)
    ensures TextOf(r, f) == value
    ensures forall g :: g != f ==> TextOf(r, g) == TextOf(v, g)
    ensures r.isAdmin == v.isAdmin
  {
    match f
    case Username => v.(username := value)
    case Email => v.(email := value)
    case PasswordOne => v.(passwordOne := value)
    case PasswordTwo => v.(passwordTwo := value)
  }

  /** `onChangeCheckbox`: the named checkbox takes its new state; the rest is kept. */
  function WithCheckbox(v: FormValues, f: CheckboxField, checked: bool): (r: FormValues)
    ensures r.isAdmin == checked
    ensures forall g :: TextOf(r, g) == TextOf(v, g)
  {
    match f
    case IsAdmin => v.(isAdmin := checked)
  }

  /** The submit button is disabled exactly when this holds. */
  function IsInvalid(v: FormValues): (r: bool)
    ensures !r <==> v.username != "" && v.email != "" && v.passwordOne != "" && v.passwordOne == v.passwordTwo
  {
    v.passwordOne != v.passwordTwo || v.passwordOne == "" || v.email == "" || v.username == ""
  }

  /** A blank (initial or reset) form may not be submitted, however the admin
      checkbox is set. */
  lemma BlankIsInvalid(isAdmin: bool)
    ensures IsInvalid(INITIAL_FORM_VALUES.(isAdmin := isAdmin))
  {
  }

  /** Ticking or clearing the admin checkbox never enables or disables submitting. */
  lemma CheckboxKeepsValidity(v: FormValues, f: CheckboxField, checked: bool)
    ensures IsInvalid(WithCheckbox(v, f, checked)) == IsInvalid(v)
  {
    assert TextOf(WithCheckbox(v, f, checked), Username) == v.username;
    assert TextOf(WithCheckbox(v, f, checked), Email) == v.email;
    assert TextOf(WithCheckbox(v, f, checked), PasswordOne) == v.passwordOne;
    assert TextOf(WithCheckbox(v, f, checked), PasswordTwo) == v.passwordTwo;
  }

  /** The roles object: `{ADMIN: ADMIN}` for an admin, `{}` otherwise. */
  function Roles(isAdmin: bool): (r: map<string, string>)
    ensures ADMIN in r <==> isAdmin
    ensures forall k :: k in r ==> k == ADMIN && r[k] == ADMIN
  {
    if isAdmin then map[ADMIN := ADMIN] else map[]
  }

  /** The record stored for a new account: `{username, email, roles}`. */
  function UserRecordOf(v: FormValues): (r: UserRecord)
    ensures r.username == v.username && r.email == v.email
    ensures r.roles == Roles(v.isAdmin)
  {
    UserRecord(v.username, v.email, Roles(v.isAdmin))
  }

  /** Neither password reaches the stored record. */
  lemma NoPasswordStored(v: FormValues, p1: string, p2: string)
    ensures UserRecordOf(v.(passwordOne := p1, passwordTwo := p2)) == UserRecordOf(v)
  {
  }

  /** The sign-up `catch` rewrite. */
  function RewriteError(e: AuthError): (r: AuthError)
    ensures r.code == e.code
    ensures e.code == ERROR_CODE_ACCOUNT_EXISTS ==> r.message == ERROR_MSG_ACCOUNT_EXISTS
    ensures e.code != ERROR_CODE_ACCOUNT_EXISTS ==> r == e
  {
    RewriteMessage(e, ERROR_CODE_ACCOUNT_EXISTS, ERROR_MSG_ACCOUNT_EXISTS)
  }

  /** The form's two state cells and the calls it has made. Each step of the
      submit chain is an event: the account is created, the user record is
      stored, the verification email is sent, or some step fails. */
  class SignUpForm {
    var values: FormValues
    var error: Option<AuthError>
    var requests: seq<AuthRequest>

    constructor ()
      ensures values == INITIAL_FORM_VALUES && error == None && requests == []
    {
      values := INITIAL_FORM_VALUES;
      error := None;
      requests := [];
    }

    method Change(f: TextField, value: string)
      modifies this
      ensures values == WithText(old(values), f, value)
      ensures error == old(error) && requests == old(requests)
    {
      values := WithText(values, f, value);
    }

    method ChangeCheckbox(f: CheckboxField, checked: bool)
      modifies this
      ensures values == WithCheckbox(old(values), f, checked)
      ensures error == old(error) && requests == old(requests)
    {
      values := WithCheckbox(values, f, checked);
    }

    /** `onSubmit`: build the roles in place, ask for the account, and return
        the record the chain will store once the account exists. */
    method Submit() returns (pending: UserRecord)
      modifies this
      ensures pending == UserRecordOf(old(values))
      ensures requests == old(requests) + [CreateUserWithEmailAndPassword(old(values).email, old(values).passwordOne)]
      ensures values == old(values) && error == old(error)
    {
      var roles: map<string, string> := map[];
      if values.isAdmin {
        roles := roles[ADMIN := ADMIN];
      }
      requests := requests + [CreateUserWithEmailAndPassword(values.email, values.passwordOne)];
      pending := UserRecord(values.username, values.email, roles);
    }

    /** The account was created: store the user record under its uid. */
    method AccountCreated(uid: string, pending: UserRecord)
      modifies this
      ensures requests == old(requests) + [SetUser(uid, pending)]
      ensures values == old(values) && error == old(error)
    {
      requests := requests + [SetUser(uid, pending)];
    }

    /** The user record was stored: send the verification email. */
    method UserStored()
      modifies this
      ensures requests == old(requests) + [SendEmailVerification]
      ensures values == old(values) && error == old(error)
    {
      requests := requests + [SendEmailVerification];
    }

    /** The whole chain succeeded: the form is blank again; an earlier error stays. */
    method VerificationSent()
      modifies this
      ensures values == INITIAL_FORM_VALUES
      ensures error == old(error) && requests == old(requests)
    {
      values := INITIAL_FORM_VALUES;
    }

    /** Some step failed: show the (rewritten) error; the form keeps its values. */
    method Failed(e: AuthError)
      modifies this
      ensures error == Some(RewriteError(e))
      ensures values == old(values) && requests == old(requests)
    {
      var err := e;
      if err.code == ERROR_CODE_ACCOUNT_EXISTS {
        err := err.(message := ERROR_MSG_ACCOUNT_EXISTS);
      }
      error := Some(err);
    }

    predicate SubmitDisabled()
      reads this
    {
      IsInvalid(values)
    }
  }

  /** A successful sign-up: the calls go out in order, the admin role is
      stored, no password is, and the form ends blank and disabled. */
  method SignUpScenario()
  {
    var form := new SignUpForm();
    form.Change(Username, "ada");
    form.Change(Email, "ada@example.com");
    form.Change(PasswordOne, "pw");
    form.Change(PasswordTwo, "pw");
    form.ChangeCheckbox(IsAdmin, true);
    assert !form.SubmitDisabled();
    var pending := form.Submit();
    assert pending == UserRecord("ada", "ada@example.com", map[ADMIN := ADMIN]);
    form.AccountCreated("u1", pending);
    form.UserStored();
    form.VerificationSent();
    assert form.requests == [
      CreateUserWithEmailAndPassword("ada@example.com", "pw"),
      SetUser("u1", UserRecord("ada", "ada@example.com", map[ADMIN := ADMIN])),
      SendEmailVerification];
    assert form.values == INITIAL_FORM_VALUES && form.SubmitDisabled();
  }
}
