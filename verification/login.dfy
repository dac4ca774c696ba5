/** The login screen's hook (`screens/Login/useLogin.ts`): the form state
    and `handleLogin`, which checks the fields, calls the login service with
    the trimmed credentials and navigates to the feed on success. The
    service call's settlement is a parameter; the navigation is its target
    route. */
module LoginScreen {
  import opened Base
  import opened Text
  import ErrorService
  import AuthService

  /** The hook's four pieces of state. */
  datatype LoginForm = LoginForm(username: string, password: string, isLoading: bool, error: Option<string>)

  /** The state on mount. */
  const InitialForm := LoginForm("", "", false, None)

  /** The message for a missing field. */
  const MissingFieldsMessage := "Please enter both username and password"

  /** The message when the service fails with something that is not an `Error`. */
  const FallbackMessage := "Login failed"

  /** The route a successful login replaces the screen with. */
  const FeedRoute := "Feed"

  datatype Credentials = Credentials(username: string, password: string)

  /** How the awaited `login` call settled. */
  datatype LoginReply = LoggedIn | Failed(thrown: ErrorService.Thrown)

  /** `handleLogin` up to the awaited call: a blank field sets the fixed
      error and stops; otherwise loading starts, the error clears and the
      trimmed credentials are sent. */
  function StartLogin(f: LoginForm): (r: (LoginForm, Option<Credentials>))
    ensures r.1.None? <==> AllSpace(f.username) || AllSpace(f.password)
    ensures r.1.None? ==> r.0 == f.(error := Some(MissingFieldsMessage))
    ensures r.1.Some? ==>
      && r.1.value == Credentials(Trim(f.username), Trim(f.password))
      && r.1.value.username != "" && r.1.value.password != ""
      && r.0 == f.(isLoading := true, error := None)
  {
    if Trim(f.username) == "" || Trim(f.password) == "" then
      (f.(error := Some(MissingFieldsMessage)), None)
    else
      (f.(isLoading := true, error := None), Some(Credentials(Trim(f.username), Trim(f.password))))
  }

  /** The message shown for a failed call: the `Error`'s own message, or the
      fallback text for any other thrown value. */
  function FailureMessage(t: ErrorService.Thrown): (m: string)
    ensures t.ErrorValue? ==> m == t.message
    ensures t.OtherValue? ==> m == FallbackMessage
  {
    match t
    case ErrorValue(message) => message
    case OtherValue(_) => FallbackMessage
  }

  /** `handleLogin` after the awaited call: success navigates to the feed,
      failure records the message; loading ends either way. */
  function FinishLogin(f: LoginForm, reply: LoginReply): (r: (LoginForm, Option<string>))
    ensures !r.0.isLoading
    ensures r.1.Some? <==> reply.LoggedIn?
    ensures r.1.Some? ==> r.1.value == FeedRoute && r.0 == f.(isLoading := false)
    ensures reply.Failed? ==> r.0 == f.(isLoading := false, error := Some(FailureMessage(reply.thrown)))
  {
    match reply
    case LoggedIn => (f.(isLoading := false), Some(FeedRoute))
    case Failed(t) => (f.(isLoading := false, error := Some(FailureMessage(t))), None)
  }

  /** One run of `handleLogin`: the form afterwards, the service call made,
      and the route navigated to. */
  datatype LoginRun = LoginRun(form: LoginForm, call: Option<Credentials>, navigateTo: Option<string>)

  /** `handleLogin` from start to finish, the call settling as `reply`. */
  function HandleLogin(f: LoginForm, reply: LoginReply): (run: LoginRun)
    ensures run.call == StartLogin(f).1
    ensures run.call.None? ==> run.form == StartLogin(f).0 && run.navigateTo.None?
    ensures run.call.Some? ==> (run.form, run.navigateTo) == FinishLogin(StartLogin(f).0, reply)
  {
    var (pending, call) := StartLogin(f);
    if call.None? then LoginRun(pending, None, None)
    else
      var (done, route) := FinishLogin(pending, reply);
      LoginRun(done, call, route)
  }

  /** A blank field never reaches the service: the fixed message shows, no
      navigation happens, and the fields and loading flag stay as they
      were. */
  lemma BlankFieldMakesNoCall(f: LoginForm, reply: LoginReply)
    requires AllSpace(f.username) || AllSpace(f.password)
    ensures var run := HandleLogin(f, reply);
      && run.call.None? && run.navigateTo.None?
      && run.form.error == Some(MissingFieldsMessage)
      && run.form.username == f.username && run.form.password == f.password
      && run.form.isLoading == f.isLoading
  {
  }

  /** With both fields filled, the trimmed credentials are sent, loading
      has ended, and exactly one of navigation and an error message
      results: navigation to the feed on success with no error left, the
      failure's message otherwise. */
  lemma FilledFormOutcome(f: LoginForm, reply: LoginReply)
    requires !AllSpace(f.username) && !AllSpace(f.password)
    ensures var run := HandleLogin(f, reply);
      && run.call == Some(Credentials(Trim(f.username), Trim(f.password)))
      && !run.form.isLoading
      && (run.navigateTo.Some? <==> run.form.error.None?)
      && (reply.LoggedIn? ==> run.navigateTo == Some(FeedRoute))
      && (reply.Failed? ==> run.form.error == Some(FailureMessage(reply.thrown)))
  {
  }

  /** Against the mock service, a filled form always logs in, and as the
      user whose name is the typed username trimmed. */
  lemma MockServiceLogsInTypedName(f: LoginForm, now: nat)
    requires !AllSpace(f.username) && !AllSpace(f.password)
    ensures var creds := StartLogin(f).1.value;
      && AuthService.Login(Some(creds.username), now).Resolved?
      && AuthService.Login(Some(creds.username), now).session.user.username == Trim(f.username)
  {
    var u := Trim(f.username);
    TrimIdempotent(f.username);
    assert !AllSpace(u) by {
      assert !IsSpace(u[0]);
    }
  }

  /** Typing surrounding blanks does not change what is sent. */
  lemma SurroundingBlanksIgnored(f: LoginForm, g: LoginForm)
    requires Trim(f.username) == Trim(g.username) && Trim(f.password) == Trim(g.password)
    ensures StartLogin(f).1 == StartLogin(g).1
  {
  }
}
