/** The session manager: the in-memory current user plus the `token` and
    `user` entries of browser storage. Login and signup go through the
    gateway and, on success, set the user and both storage entries together;
    logout clears them together. JSON encoding and parsing of the stored
    user are parameters (`encode`, `parse`); `hasWindow` says whether a
    browser window, and so storage, exists. */
module Auth {
  import opened Wrappers
  import opened JsText
  import Api

  datatype User = User(id: string, email: string, name: string)

  /** The login/signup reply: `{access_token, token_type, user}`. */
  datatype AuthReply = AuthReply(accessToken: string, tokenType: string, user: User)

  datatype Session = Session(user: Option<User>, storage: map<string, string>)

  /** What a successful login or signup returns to its caller. */
  datatype Credentials = Credentials(user: User, token: string)

  /** The request a login or signup issued, the session after it, and what it
      returned (`None` for `null`). */
  datatype AuthStep = AuthStep(call: Api.Call, session: Session, result: Option<Credentials>)

  const TokenKey: string := "token"
  const UserKey: string := "user"

  /** The constructor: only the user is restored, from a non-empty `user`
      entry that parses; a parse failure leaves it absent, whatever token
      is stored. */
  function Rehydrate(hasWindow: bool, storage: map<string, string>, parse: string -> Option<User>): (s: Session)
    ensures s.storage == storage
    ensures s.user.Some? <==>
      hasWindow && UserKey in storage && storage[UserKey] != [] && parse(storage[UserKey]).Some?
    ensures s.user.Some? ==> s.user == parse(storage[UserKey])
  {
    if hasWindow && UserKey in storage && Truthy(storage[UserKey]) then
      Session(parse(storage[UserKey]), storage)
    else
      Session(None, storage)
  }

  function LoginCall(email: string, password: string): (c: Api.Call)
    ensures c.endpoint == "/api/auth/login" && c.init.verb == Api.POST && c.init.body.Some?
    ensures Api.Lookup(c.init.body.value, "email") == Some(Api.JStr(email))
    ensures Api.Lookup(c.init.body.value, "password") == Some(Api.JStr(password))
    ensures Api.Lookup(c.init.body.value, "full_name").None?
    ensures |c.init.body.value| == 2
    ensures c.init.headers == map[]
  {
    Api.Post("/api/auth/login", [Api.Field("email", Api.JStr(email)), Api.Field("password", Api.JStr(password))])
  }

  function SignupCall(email: string, password: string, name: string): (c: Api.Call)
    ensures c.endpoint == "/api/auth/signup" && c.init.verb == Api.POST && c.init.body.Some?
    ensures Api.Lookup(c.init.body.value, "email") == Some(Api.JStr(email))
    ensures Api.Lookup(c.init.body.value, "password") == Some(Api.JStr(password))
    ensures Api.Lookup(c.init.body.value, "full_name") == Some(Api.JStr(name))
    ensures |c.init.body.value| == 3
    ensures c.init.headers == map[]
  {
    var body := [Api.Field("email", Api.JStr(email)), Api.Field("password", Api.JStr(password)),
                 Api.Field("full_name", Api.JStr(name))];
    assert body[1..][1..] == [Api.Field("full_name", Api.JStr(name))];
    assert Api.Lookup(body[1..][1..], "full_name") == Some(Api.JStr(name));
    assert Api.Lookup(body[1..], "full_name") == Some(Api.JStr(name));
    Api.Post("/api/auth/signup", body)
  }

  /** What login and signup do with the gateway's outcome. A `{data}` with a
      reply sets the user, stores the token and the encoded user, and returns
      both; an `{error}`, an empty `{data}` or a thrown error returns nothing
      and changes nothing. */
  function Complete(s: Session, hasWindow: bool, encode: User -> string,
                    reply: Api.FetchResult<AuthReply>): (r: (Session, Option<Credentials>))
    ensures var o := Api.Classify(reply);
      && (r.1.Some? <==> o.Data? && o.data.Some?)
      && (r.1.None? ==> r.0 == s)
      && (r.1.Some? ==>
            var d := o.data.value;
            && r.1.value == Credentials(d.user, d.accessToken)
            && r.0.user == Some(d.user)
            && (hasWindow ==> r.0.storage == s.storage[TokenKey := d.accessToken][UserKey := encode(d.user)])
            && (!hasWindow ==> r.0.storage == s.storage))
  {
    match Api.Classify(reply)
    case Data(data) =>
      if data.None? then (s, None)
      else
        var d := data.value;
        var storage := if hasWindow then s.storage[TokenKey := d.accessToken][UserKey := encode(d.user)] else s.storage;
        (Session(Some(d.user), storage), Some(Credentials(d.user, d.accessToken)))
    case Error(_) => (s, None)
    case Thrown(_) => (s, None)
  }

  function Login(s: Session, hasWindow: bool, encode: User -> string, email: string, password: string,
                 reply: Api.FetchResult<AuthReply>): (r: AuthStep)
    ensures r.call == LoginCall(email, password)
    ensures (r.session, r.result) == Complete(s, hasWindow, encode, reply)
  {
    var (session, result) := Complete(s, hasWindow, encode, reply);
    AuthStep(LoginCall(email, password), session, result)
  }

  function Signup(s: Session, hasWindow: bool, encode: User -> string, email: string, password: string,
                  name: string, reply: Api.FetchResult<AuthReply>): (r: AuthStep)
    ensures r.call == SignupCall(email, password, name)
    ensures (r.session, r.result) == Complete(s, hasWindow, encode, reply)
  {
    var (session, result) := Complete(s, hasWindow, encode, reply);
    AuthStep(SignupCall(email, password, name), session, result)
  }

  /** Logout: the user and both storage entries are gone, everything else
      in storage is kept. */
  function Logout(s: Session, hasWindow: bool): (r: Session)
    ensures r.user.None?
    ensures hasWindow ==> r.storage.Keys == s.storage.Keys - {TokenKey, UserKey}
    ensures hasWindow ==> forall k | k in r.storage :: r.storage[k] == s.storage[k]
    ensures !hasWindow ==> r.storage == s.storage
  {
    Session(None, if hasWindow then s.storage - {TokenKey, UserKey} else s.storage)
  }

  /** Logging out twice is logging out once. */
  lemma LogoutIdempotent(s: Session, hasWindow: bool)
    ensures Logout(Logout(s, hasWindow), hasWindow) == Logout(s, hasWindow)
  {
  }

  /** `getCurrentUser`: the in-memory user, whatever storage holds. */
  function CurrentUser(s: Session): (u: Option<User>)
    ensures u == s.user
  {
    s.user
  }

  /** Authenticated iff there is a window and a non-empty stored token; the
      in-memory user plays no part. */
  function IsAuthenticated(s: Session, hasWindow: bool): (b: bool)
    ensures b <==> hasWindow && TokenKey in s.storage && s.storage[TokenKey] != []
  {
    hasWindow && TokenKey in s.storage && Truthy(s.storage[TokenKey])
  }

  /** The stored token, or nothing without a window: the same token the
      gateway attaches to its requests. */
  function AuthToken(s: Session, hasWindow: bool): (t: Option<string>)
    ensures t == Api.StoredToken(hasWindow, s.storage)
    ensures t.Some? <==> hasWindow && TokenKey in s.storage
  {
    if hasWindow && TokenKey in s.storage then Some(s.storage[TokenKey]) else None
  }

  /** After a successful login the session is authenticated exactly when the
      returned token is non-empty, and the current user is the returned one. */
  lemma LoginSuccessAuthenticates(s: Session, encode: User -> string, email: string, password: string,
                                  reply: Api.FetchResult<AuthReply>)
    requires Login(s, true, encode, email, password, reply).result.Some?
    ensures var r := Login(s, true, encode, email, password, reply);
      && CurrentUser(r.session) == Some(r.result.value.user)
      && (IsAuthenticated(r.session, true) <==> r.result.value.token != [])
      && AuthToken(r.session, true) == Some(r.result.value.token)
  {
    var r := Login(s, true, encode, email, password, reply);
    assert r.session.storage[TokenKey] == r.result.value.token;
  }

  /** After logout neither the in-memory user nor storage says logged in. */
  lemma LogoutSignsOut(s: Session, hasWindow: bool)
    ensures CurrentUser(Logout(s, hasWindow)).None?
    ensures !IsAuthenticated(Logout(s, hasWindow), hasWindow)
    ensures AuthToken(Logout(s, hasWindow), hasWindow).None?
  {
  }

  /** Logout undoes a login entirely: logging in (successfully or not) and
      then out leaves the same session as logging out directly. */
  lemma LogoutUndoesLogin(s: Session, encode: User -> string, email: string, password: string,
                          reply: Api.FetchResult<AuthReply>)
    ensures Logout(Login(s, true, encode, email, password, reply).session, true) == Logout(s, true)
  {
    var r := Login(s, true, encode, email, password, reply);
    if r.result.Some? {
      assert Logout(r.session, true).storage == Logout(s, true).storage;
    }
  }

  /** Token and user entries are stored or absent together. */
  predicate Paired(storage: map<string, string>) {
    TokenKey in storage <==> UserKey in storage
  }

  /** Login, signup and logout keep the token and user entries paired. */
  lemma OperationsKeepPairing(s: Session, hasWindow: bool, encode: User -> string,
                              reply: Api.FetchResult<AuthReply>)
    requires Paired(s.storage)
    ensures Paired(Complete(s, hasWindow, encode, reply).0.storage)
    ensures Paired(Logout(s, hasWindow).storage)
  {
  }

  /** A page reload after a successful login restores the same user,
      provided parsing reads back what encoding wrote. */
  lemma ReloadRestoresUser(s: Session, encode: User -> string, parse: string -> Option<User>,
                           email: string, password: string, reply: Api.FetchResult<AuthReply>)
    requires Login(s, true, encode, email, password, reply).result.Some?
    requires var u := Login(s, true, encode, email, password, reply).result.value.user;
      encode(u) != [] && parse(encode(u)) == Some(u)
    ensures var r := Login(s, true, encode, email, password, reply);
      Rehydrate(true, r.session.storage, parse).user == r.session.user
  {
  }

  /** After a successful login every gateway request carries the returned
      token as its bearer credential, when that token is non-empty. */
  lemma LoginThenRequestsCarryBearer(s: Session, encode: User -> string, email: string, password: string,
                                     reply: Api.FetchResult<AuthReply>, base: string, call: Api.Call)
    requires Login(s, true, encode, email, password, reply).result.Some?
    requires Login(s, true, encode, email, password, reply).result.value.token != []
    ensures var r := Login(s, true, encode, email, password, reply);
      var request := Api.Prepare(Api.Env(base, true), r.session.storage, call);
      request.headers[Api.Authorization] == "Bearer " + r.result.value.token
  {
  }
}
