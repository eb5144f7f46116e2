/** The chat screen's submit handler as a state machine over (messages,
    input, loading, conversation id). A submit that passes the guards
    appends the user's message, clears the input and starts loading; the
    reply then appends the assistant's answer (or a fixed apology), records
    the conversation id of the first successful reply, and ends loading. */
module ChatPage {
  import opened Wrappers
  import opened JsText
  import Api
  import Auth

  datatype Role = UserRole | AssistantRole

  /** A chat message; its id and timestamp are left out. */
  datatype Message = Message(role: Role, content: string)

  datatype ChatState = ChatState(messages: seq<Message>, input: string, loading: bool, conversationId: Option<string>)

  const Initial: ChatState := ChatState([], "", false, None)

  const ChatUrlPrefix: string := "http://localhost:8000/api/chat/"

  const Apology: string := "Sorry, I encountered an error. Please try again."

  /** What the chat endpoint is sent. */
  datatype ChatRequest = ChatRequest(url: string, verb: Api.Method, headers: Api.Headers, body: Api.JsonObject)

  /** The state after a submit and the request it issued, if any. */
  datatype Submission = Submission(state: ChatState, request: Option<ChatRequest>)

  /** `{conversation_id: conversationId || null, message: input}`. */
  function RequestBody(s: ChatState): (body: Api.JsonObject)
    ensures Api.Lookup(body, "message") == Some(Api.JStr(s.input))
    ensures TruthyOpt(s.conversationId) ==> Api.Lookup(body, "conversation_id") == Some(Api.JStr(s.conversationId.value))
    ensures !TruthyOpt(s.conversationId) ==> Api.Lookup(body, "conversation_id") == Some(Api.JNull)
    ensures |body| == 2
  {
    var id := if TruthyOpt(s.conversationId) then Api.JStr(s.conversationId.value) else Api.JNull;
    var body := [Api.Field("conversation_id", id), Api.Field("message", Api.JStr(s.input))];
    assert Api.Lookup(body[1..], "message") == Some(Api.JStr(s.input));
    body
  }

  /** The request as the page builds it: the token is interpolated from the
      promise `getAuthToken()` returns, not from its value, so the header is
      the same whatever is stored. */
  function RequestAsWritten(s: ChatState, user: Auth.User): (r: ChatRequest)
    ensures r.url == ChatUrlPrefix + user.id && r.verb == Api.POST
    ensures Api.ContentType in r.headers && r.headers[Api.ContentType] == Api.JsonMediaType
    ensures Api.Authorization in r.headers && r.headers[Api.Authorization] == "Bearer [object Promise]"
    ensures r.headers.Keys == {Api.ContentType, Api.Authorization}
    ensures r.body == RequestBody(s)
  {
    ChatRequest(ChatUrlPrefix + user.id, Api.POST,
                map[Api.ContentType := Api.JsonMediaType, Api.Authorization := "Bearer [object Promise]"],
                RequestBody(s))
  }

  /** The request the page means to send: the stored token as bearer
      credential, attached the way the gateway attaches it. */
  function Request(s: ChatState, user: Auth.User, token: Option<string>): (r: ChatRequest)
    ensures r.url == ChatUrlPrefix + user.id && r.verb == Api.POST
    ensures Api.ContentType in r.headers && r.headers[Api.ContentType] == Api.JsonMediaType
    ensures Api.Authorization in r.headers <==> TruthyOpt(token)
    ensures TruthyOpt(token) ==> r.headers[Api.Authorization] == "Bearer " + token.value
    ensures r.headers.Keys == {Api.ContentType} + (if TruthyOpt(token) then {Api.Authorization} else {})
    ensures r.headers == Api.BuildHeaders(map[], token)
    ensures r.body == RequestBody(s)
  {
    ChatRequest(ChatUrlPrefix + user.id, Api.POST, Api.BuildHeaders(map[], token), RequestBody(s))
  }

  /** The as-written header never carries a real token: for every non-empty
      stored token other than the literal text "[object Promise]" it differs
      from the intended one. */
  lemma AsWrittenHeaderIgnoresToken(s: ChatState, user: Auth.User, token: string)
    requires token != [] && token != "[object Promise]"
    ensures RequestAsWritten(s, user).headers[Api.Authorization]
         != Request(s, user, Some(token)).headers[Api.Authorization]
  {
    assert ("Bearer " + token)[7..] == token;
    assert "Bearer [object Promise]"[7..] == "[object Promise]";
  }

  /** The submit handler as written. Blank input or a pending reply:
      nothing happens. No current user: nothing is sent (the page redirects
      to login). Otherwise the raw input becomes a user message, the input is
      cleared, loading starts, and the request is sent with the header the
      page builds from the unawaited promise. */
  function Submit(s: ChatState, currentUser: Option<Auth.User>): (r: Submission)
    ensures IsBlank(s.input) || s.loading || currentUser.None? ==> r == Submission(s, None)
    ensures !(IsBlank(s.input) || s.loading || currentUser.None?) ==>
      && r.state.messages == s.messages + [Message(UserRole, s.input)]
      && r.state.input == "" && r.state.loading
      && r.state.conversationId == s.conversationId
      && r.request == Some(RequestAsWritten(s, currentUser.value))
  {
    if !Truthy(Trim(s.input)) || s.loading then Submission(s, None)
    else if currentUser.None? then Submission(s, None)
    else
      var sent := s.(messages := s.messages + [Message(UserRole, s.input)], input := "", loading := true);
      Submission(sent, Some(RequestAsWritten(s, currentUser.value)))
  }

  /** The submit handler as evidently intended: the same state change and
      the same request, except that the stored token is the bearer
      credential. */
  function SubmitIntended(s: ChatState, currentUser: Option<Auth.User>, token: Option<string>): (r: Submission)
    ensures var w := Submit(s, currentUser);
      && r.state == w.state
      && (r.request.Some? <==> w.request.Some?)
      && (r.request.Some? ==>
            && r.request.value == Request(s, currentUser.value, token)
            && r.request.value.url == w.request.value.url
            && r.request.value.verb == w.request.value.verb
            && r.request.value.body == w.request.value.body
            && r.request.value.headers[Api.ContentType] == w.request.value.headers[Api.ContentType]
            && r.request.value.headers - {Api.Authorization} == w.request.value.headers - {Api.Authorization})
  {
    var w := Submit(s, currentUser);
    if w.request.None? then w
    else
      var q := Request(s, currentUser.value, token);
      JsonOnlyBesidesAuthorization(q.headers);
      JsonOnlyBesidesAuthorization(w.request.value.headers);
      Submission(w.state, Some(q))
  }

  /** A header map holding the JSON Content-Type and at most an
      Authorization header is, once Authorization is removed, the JSON
      Content-Type alone. */
  lemma JsonOnlyBesidesAuthorization(h: Api.Headers)
    requires h.Keys <= {Api.ContentType, Api.Authorization}
    requires Api.ContentType in h && h[Api.ContentType] == Api.JsonMediaType
    ensures h - {Api.Authorization} == map[Api.ContentType := Api.JsonMediaType]
  {
  }

  /** The chat endpoint's reply body. */
  datatype ChatBody = ChatBody(conversationId: string, response: string)

  /** How the page reads a reply: anything but a 2xx whose body decodes to
      an object is a failure (a `null` body fails when its fields are read). */
  datatype Reply = ReplyOk(conversationId: string, text: string) | ReplyErr

  function Interpret(fetched: Api.FetchResult<ChatBody>): (r: Reply)
    ensures r.ReplyOk? <==> fetched.Received? && fetched.response.Ok() && fetched.response.body.Decoded?
    ensures r.ReplyOk? ==> r == ReplyOk(fetched.response.body.payload.conversationId,
                                        fetched.response.body.payload.response)
  {
    match fetched
    case NetworkFailure => ReplyErr
    case Received(response) =>
      if !response.body.Decoded? || !response.Ok() then ReplyErr
      else ReplyOk(response.body.payload.conversationId, response.body.payload.response)
  }

  /** The reply handler: one assistant message is appended (the reply's text,
      or the apology), the conversation id is taken from a successful reply
      only while none is known, and loading ends. */
  function Receive(s: ChatState, reply: Reply): (r: ChatState)
    ensures |r.messages| == |s.messages| + 1 && r.messages[..|s.messages|] == s.messages
    ensures r.messages[|s.messages|].role == AssistantRole
    ensures r.messages[|s.messages|].content == if reply.ReplyOk? then reply.text else Apology
    ensures !r.loading && r.input == s.input
    ensures TruthyOpt(s.conversationId) || reply.ReplyErr? ==> r.conversationId == s.conversationId
    ensures !TruthyOpt(s.conversationId) && reply.ReplyOk? ==> r.conversationId == Some(reply.conversationId)
  {
    match reply
    case ReplyOk(id, text) =>
      s.(messages := s.messages + [Message(AssistantRole, text)],
         conversationId := if TruthyOpt(s.conversationId) then s.conversationId else Some(id),
         loading := false)
    case ReplyErr =>
      s.(messages := s.messages + [Message(AssistantRole, Apology)], loading := false)
  }

  /** The role the message at position `i` has in a well-formed history. */
  function RoleAt(i: nat): Role {
    if i % 2 == 0 then UserRole else AssistantRole
  }

  /** Messages alternate user/assistant starting with the user, and a reply
      is pending exactly when the count is odd. */
  predicate Alternates(s: ChatState) {
    && (forall i | 0 <= i < |s.messages| :: s.messages[i].role == RoleAt(i))
    && (s.loading <==> |s.messages| % 2 == 1)
  }

  /** The chat opens empty, idle and without a conversation, which is a
      well-formed history. */
  lemma InitialAlternates()
    ensures Initial.messages == [] && Initial.input == "" && !Initial.loading && Initial.conversationId.None?
    ensures Alternates(Initial)
  {
  }

  /** Submitting keeps the alternation. */
  lemma SubmitKeepsAlternation(s: ChatState, user: Option<Auth.User>, token: Option<string>)
    requires Alternates(s)
    ensures Alternates(Submit(s, user).state)
    ensures Alternates(SubmitIntended(s, user, token).state)
  {
    var t := Submit(s, user).state;
    if !IsBlank(s.input) && !s.loading && user.Some? {
      SubmitAppends(s, user.value);
      UserTurnKeepsAlternation(s, t, s.input);
    }
  }

  /** Appending a user message to an idle, well-formed history and starting
      to load keeps the alternation. */
  lemma UserTurnKeepsAlternation(s: ChatState, t: ChatState, text: string)
    requires Alternates(s) && !s.loading
    requires t.messages == s.messages + [Message(UserRole, text)] && t.loading
    ensures Alternates(t)
  {
    var n := |s.messages|;
    assert n % 2 == 0;
    forall i | 0 <= i < |t.messages|
      ensures t.messages[i].role == RoleAt(i)
    {
      if i < n {
        assert t.messages[i] == s.messages[i];
      }
    }
  }

  /** Receiving the reply to a pending request keeps the alternation. */
  lemma ReceiveKeepsAlternation(s: ChatState, reply: Reply)
    requires Alternates(s) && s.loading
    ensures Alternates(Receive(s, reply))
  {
    var u := Receive(s, reply);
    var n := |s.messages|;
    assert n % 2 == 1;
    forall i | 0 <= i < |u.messages|
      ensures u.messages[i].role == RoleAt(i)
    {
      if i < n {
        assert u.messages[i] == u.messages[..n][i];
      }
    }
  }

  /** A submit that passes its guards appends the user's message, clears
      the input and starts loading. */
  lemma SubmitAppends(s: ChatState, user: Auth.User)
    requires !IsBlank(s.input) && !s.loading
    ensures var t := Submit(s, Some(user)).state;
      t.messages == s.messages + [Message(UserRole, s.input)] && t.input == "" && t.loading
  {
  }

  /** Receiving appends the assistant's message, ends loading and keeps the
      input. */
  lemma ReceiveAppends(t: ChatState, reply: Reply)
    ensures var r := Receive(t, reply);
      && r.messages == t.messages + [Message(AssistantRole, if reply.ReplyOk? then reply.text else Apology)]
      && !r.loading && r.input == t.input
  {
    var r := Receive(t, reply);
    assert r.messages == r.messages[..|t.messages|] + [r.messages[|t.messages|]];
  }

  /** One completed exchange adds exactly two messages, the user's raw input
      first and the assistant's reply second, and leaves loading off. */
  lemma Exchange(s: ChatState, user: Auth.User, reply: Reply)
    requires !IsBlank(s.input) && !s.loading
    ensures var r := Receive(Submit(s, Some(user)).state, reply);
      && r.messages[..|s.messages|] == s.messages
      && r.messages[|s.messages|..] ==
           [Message(UserRole, s.input), Message(AssistantRole, if reply.ReplyOk? then reply.text else Apology)]
      && !r.loading && r.input == ""
  {
    var u := Message(UserRole, s.input);
    var a := Message(AssistantRole, if reply.ReplyOk? then reply.text else Apology);
    var t := Submit(s, Some(user)).state;
    SubmitAppends(s, user);
    ReceiveAppends(t, reply);
    assert Receive(t, reply).messages == (s.messages + [u]) + [a];
    SplitAfter(s.messages, u, a);
  }

  /** Two messages appended one after the other sit right after the old
      history. */
  lemma SplitAfter(h: seq<Message>, u: Message, a: Message)
    ensures var m := (h + [u]) + [a];
      m[..|h|] == h && m[|h|..] == [u, a]
  {
    var m := (h + [u]) + [a];
    assert m == h + [u, a];
  }

  /** Once a conversation id is known, no submit or reply changes it. */
  lemma ConversationIdIsStable(s: ChatState, user: Option<Auth.User>, reply: Reply)
    requires TruthyOpt(s.conversationId)
    ensures Submit(s, user).state.conversationId == s.conversationId
    ensures Receive(s, reply).conversationId == s.conversationId
  {
  }
}
