/** The stand-alone login screen and session restore: the app shows the
    login form until it holds both a token and a user id; the form posts to
    the login or signup endpoint and turns the reply into a session or an
    error message. */
module LegacyApp {
  import opened Wrappers
  import opened JsText
  import Api

  datatype AppState = AppState(userToken: Option<string>, userId: Option<string>, storage: map<string, string>)

  const TokenKey: string := "token"
  const UserIdKey: string := "user_id"

  /** A storage entry that exists and is non-empty. */
  predicate HasEntry(storage: map<string, string>, key: string) {
    key in storage && storage[key] != []
  }

  /** The app on mount: both state fields start empty, and the effect copies
      the stored token and user id in only when both are present and
      non-empty. */
  function Mount(storage: map<string, string>): (s: AppState)
    ensures s.storage == storage
    ensures HasEntry(storage, TokenKey) && HasEntry(storage, UserIdKey) ==>
      s.userToken == Some(storage[TokenKey]) && s.userId == Some(storage[UserIdKey])
    ensures !(HasEntry(storage, TokenKey) && HasEntry(storage, UserIdKey)) ==>
      s.userToken.None? && s.userId.None?
  {
    if TokenKey in storage && Truthy(storage[TokenKey]) && UserIdKey in storage && Truthy(storage[UserIdKey]) then
      AppState(Some(storage[TokenKey]), Some(storage[UserIdKey]), storage)
    else
      AppState(None, None, storage)
  }

  /** The login form is shown while either field is missing or empty. */
  predicate ShowsLoginForm(s: AppState): (b: bool)
    ensures !b <==> s.userToken.Some? && s.userToken.value != [] && s.userId.Some? && s.userId.value != []
  {
    !TruthyOpt(s.userToken) || !TruthyOpt(s.userId)
  }

  /** `handleLogin`: both storage entries and both state fields take the
      given values; the rest of storage is kept. */
  function HandleLogin(s: AppState, token: string, userId: string): (r: AppState)
    ensures r.userToken == Some(token) && r.userId == Some(userId)
    ensures r.storage.Keys == s.storage.Keys + {TokenKey, UserIdKey}
    ensures r.storage[TokenKey] == token && r.storage[UserIdKey] == userId
    ensures forall k | k in s.storage && k != TokenKey && k != UserIdKey :: r.storage[k] == s.storage[k]
  {
    AppState(Some(token), Some(userId), s.storage[TokenKey := token][UserIdKey := userId])
  }

  /** A reload after logging in with a non-empty token and user id restores
      the same session and skips the login form. */
  lemma ReloadRestoresLogin(s: AppState, token: string, userId: string)
    requires token != [] && userId != []
    ensures var r := Mount(HandleLogin(s, token, userId).storage);
      r.userToken == Some(token) && r.userId == Some(userId) && !ShowsLoginForm(r)
  {
  }

  // -------------------------------------------------------------- the form

  datatype LoginForm = LoginForm(email: string, password: string, name: string, isSignup: bool, error: string)

  const LoginUrl: string := "http://localhost:8000/api/auth/login"
  const SignupUrl: string := "http://localhost:8000/api/auth/signup"
  const LoginFailed: string := "Login failed"
  const NetworkFailureMessage: string := "Network error. Please try again."

  /** The mode switch flips between logging in and signing up. */
  function ToggleMode(f: LoginForm): (r: LoginForm)
    ensures r.isSignup == !f.isSignup
    ensures r.(isSignup := f.isSignup) == f
  {
    f.(isSignup := !f.isSignup)
  }

  datatype FormRequest = FormRequest(url: string, verb: Api.Method, headers: Api.Headers, body: Api.JsonObject)

  /** The form's POST: the signup endpoint iff signing up, and only the
      signup body carries `full_name`. No bearer token is sent. */
  function RequestOf(f: LoginForm): (r: FormRequest)
    ensures r.url == (if f.isSignup then SignupUrl else LoginUrl) && r.verb == Api.POST
    ensures r.headers == map[Api.ContentType := Api.JsonMediaType]
    ensures Api.Lookup(r.body, "email") == Some(Api.JStr(f.email))
    ensures Api.Lookup(r.body, "password") == Some(Api.JStr(f.password))
    ensures Api.Lookup(r.body, "full_name").Some? <==> f.isSignup
    ensures f.isSignup ==> Api.Lookup(r.body, "full_name") == Some(Api.JStr(f.name))
    ensures |r.body| == if f.isSignup then 3 else 2
  {
    var credentials := [Api.Field("email", Api.JStr(f.email)), Api.Field("password", Api.JStr(f.password))];
    var body := if f.isSignup then credentials + [Api.Field("full_name", Api.JStr(f.name))] else credentials;
    assert body[1..][1..] == if f.isSignup then [Api.Field("full_name", Api.JStr(f.name))] else [];
    assert Api.Lookup(body[1..], "full_name") == Api.Lookup(body[1..][1..], "full_name");
    FormRequest(if f.isSignup then SignupUrl else LoginUrl, Api.POST, map[Api.ContentType := Api.JsonMediaType], body)
  }

  /** What the form's `fetch` produced: a rejection, an undecodable body, or
      a body that decodes to `null` (whose fields cannot be read) — all
      caught by the handler — or a decoded reply with its `ok` flag,
      `access_token`, `user.id` (absent when `user` is) and `detail`. */
  datatype FormReply =
    | Unreadable
    | Replied(ok: bool, accessToken: string, userId: Option<string>, detail: Option<string>)

  datatype LoginOutcome = LoggedIn(token: string, userId: string) | ShowError(message: string)

  /** An ok reply logs in with its token and user id; any other reply shows
      `detail`, or "Login failed"; anything thrown, including reading the id
      of a missing `user`, shows the network message. */
  function OutcomeOf(reply: FormReply): (o: LoginOutcome)
    ensures o.LoggedIn? <==> reply.Replied? && reply.ok && reply.userId.Some?
    ensures o.LoggedIn? ==> o == LoggedIn(reply.accessToken, reply.userId.value)
    ensures reply.Replied? && !reply.ok ==> o == ShowError(OrElse(reply.detail, LoginFailed))
    ensures reply.Unreadable? || (reply.ok && reply.userId.None?) ==> o == ShowError(NetworkFailureMessage)
    ensures o.ShowError? ==> o.message != []
  {
    match reply
    case Unreadable => ShowError(NetworkFailureMessage)
    case Replied(ok, token, userId, detail) =>
      if ok then
        if userId.Some? then LoggedIn(token, userId.value) else ShowError(NetworkFailureMessage)
      else
        ShowError(OrElse(detail, LoginFailed))
  }

  /** The form's submit handler: the error is cleared, then either
      `onLogin` runs (`handleLogin` of the app) or the message is shown and
      the app is untouched. */
  function HandleSubmit(app: AppState, f: LoginForm, reply: FormReply): (r: (AppState, LoginForm))
    ensures r.1.(error := f.error) == f
    ensures var o := OutcomeOf(reply);
      && (o.LoggedIn? ==> r.0 == HandleLogin(app, o.token, o.userId) && r.1.error == "")
      && (o.ShowError? ==> r.0 == app && r.1.error == o.message)
  {
    var cleared := f.(error := "");
    match OutcomeOf(reply)
    case LoggedIn(token, userId) => (HandleLogin(app, token, userId), cleared)
    case ShowError(message) => (app, cleared.(error := message))
  }

  /** A submit and a page reload: after an ok reply the restored session is
      exactly the one logged in when the token and user id are both
      non-empty, and the login form is back otherwise; after any other reply
      a reload finds the storage the app had. */
  lemma SubmitThenReload(app: AppState, f: LoginForm, reply: FormReply)
    ensures var (after, _) := HandleSubmit(app, f, reply);
      var reloaded := Mount(after.storage);
      var o := OutcomeOf(reply);
      && (o.LoggedIn? ==>
            && (!ShowsLoginForm(reloaded) <==> o.token != [] && o.userId != [])
            && (!ShowsLoginForm(reloaded) ==> reloaded.userToken == Some(o.token) && reloaded.userId == Some(o.userId)))
      && (o.ShowError? ==> reloaded == Mount(app.storage))
  {
    var o := OutcomeOf(reply);
    if o.LoggedIn? {
      var after := HandleLogin(app, o.token, o.userId);
      assert after.storage[TokenKey] == o.token && after.storage[UserIdKey] == o.userId;
    }
  }
}
