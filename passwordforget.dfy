/** The password-reset form: one email field; a success clears it and shows
    the "check your email" notice, a failure shows the error. */
module PasswordForget {
  import opened Values
  import opened Auth

  datatype FormValues = FormValues(email: string)

  const INITIAL_STATE: FormValues := FormValues("")

  datatype Field = Email

  /** The submit button is disabled exactly when this holds. */
  function IsInvalid(v: FormValues): (r: bool)
    ensures !r <==> v.email != ""
  {
    v.email == ""
  }

  /** The form's three state cells. */
  datatype State = State(values: FormValues, error: Option<AuthError>, submitted: bool)

  const INITIAL: State := State(INITIAL_STATE, None, false)

  /** What can happen to the form: typing, or the reset request's outcome. */
  datatype Event = Change(field: Field, value: string) | ResetSent | ResetFailed(error: AuthError)

  /** One step: typing replaces the email, a sent reset blanks the form and
      raises the notice, a failed one records the error; nothing else changes. */
  function Next(s: State, e: Event): (r: State)
    ensures r.values == (match e
      case Change(_, value) => FormValues(value)
      case ResetSent => INITIAL_STATE
      case ResetFailed(_) => s.values)
    ensures r.submitted <==> s.submitted || e == ResetSent
    ensures r.error == (if e.ResetFailed? then Some(e.error) else s.error)
  {
    match e
    case Change(Email, value) => s.(values := s.values.(email := value))
    case ResetSent => s.(values := INITIAL_STATE, submitted := true)
    case ResetFailed(err) => s.(error := Some(err))
  }

  function Run(s: State, events: seq<Event>): (r: State)
    decreases |events|
  {
    if events == [] then s else Run(Next(s, events[0]), events[1..])
  }

  /** A blank form may not be submitted, and a sent reset makes it blank
      again whatever was typed. */
  lemma BlankIsInvalid(s: State)
    ensures IsInvalid(INITIAL.values)
    ensures IsInvalid(Next(s, ResetSent).values)
  {
  }

  /** Nothing the form does resets `submitted` or clears `error`. */
  lemma {:induction false} NoticesStay(s: State, events: seq<Event>)
    ensures s.submitted ==> Run(s, events).submitted
    ensures s.error.Some? ==> Run(s, events).error.Some?
    decreases |events|
  {
    if events != [] {
      NoticesStay(Next(s, events[0]), events[1..]);
    }
  }

  /** The success notice shows exactly when it already did or some reset was sent. */
  lemma {:induction false} SubmittedIffSent(s: State, events: seq<Event>)
    ensures Run(s, events).submitted <==> s.submitted || ResetSent in events
    decreases |events|
  {
    if events != [] {
      SubmittedIffSent(Next(s, events[0]), events[1..]);
      assert events == [events[0]] + events[1..];
      NoticesStay(Next(s, events[0]), events[1..]);
    }
  }

  /** A failure followed by a success shows both notices at once. */
  lemma BothNotices(err: AuthError)
    ensures var s := Run(INITIAL, [ResetFailed(err), ResetSent]);
      s.submitted && s.error == Some(err) && s.values == INITIAL_STATE
  {
    var events := [ResetFailed(err), ResetSent];
    var s1 := Next(INITIAL, events[0]);
    assert events[1..] == [ResetSent];
    assert Run(s1, [ResetSent]) == Run(Next(s1, ResetSent), []);
  }

  class PasswordForgetForm {
    var values: FormValues
    var error: Option<AuthError>
    var submitted: bool
    var requests: seq<AuthRequest>

    function CurrentState(): (s: State)
      reads this
    {
      State(values, error, submitted)
    }

    constructor ()
      ensures CurrentState() == INITIAL && requests == []
    {
      values := INITIAL_STATE;
      error := None;
      submitted := false;
      requests := [];
    }

    /** `onChange`: only the named field. */
    method Change(f: Field, value: string)
      modifies this
      ensures CurrentState() == Next(old(CurrentState()), Event.Change(f, value))
      ensures values.email == value && error == old(error) && submitted == old(submitted)
      ensures requests == old(requests)
    {
      values := values.(email := value);
    }

    method Submit()
      modifies this
      ensures requests == old(requests) + [PasswordReset(old(values).email)]
      ensures CurrentState() == old(CurrentState())
    {
      requests := requests + [PasswordReset(values.email)];
    }

    /** The reset email went out: blank the form and show the notice; an earlier error stays. */
    method Succeeded()
      modifies this
      ensures CurrentState() == Next(old(CurrentState()), ResetSent)
      ensures values == INITIAL_STATE && submitted && error == old(error)
      ensures requests == old(requests)
    {
      values := INITIAL_STATE;
      submitted := true;
    }

    /** The reset was rejected: show the error; the form and the notice stay. */
    method Failed(e: AuthError)
      modifies this
      ensures CurrentState() == Next(old(CurrentState()), ResetFailed(e))
      ensures error == Some(e) && values == old(values) && submitted == old(submitted)
      ensures requests == old(requests)
    {
      error := Some(e);
    }

    predicate SubmitDisabled()
      reads this
    {
      IsInvalid(values)
    }
  }

  /** A reset request: the button is enabled once an email is typed; after
      success the notice shows and the blank form is disabled again. */
  method PasswordResetScenario()
  {
    var form := new PasswordForgetForm();
    assert form.SubmitDisabled();
    form.Change(Email, "ada@example.com");
    assert !form.SubmitDisabled();
    form.Submit();
    form.Succeeded();
    assert form.requests == [PasswordReset("ada@example.com")];
    assert form.submitted && form.error == None && form.SubmitDisabled();
  }
}
