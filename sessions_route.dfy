/** `/api/sessions` (api/sessions/route.py): list, save and delete the stored chats. GET
    and DELETE take the code only from a bearer header; POST also accepts it in the body. */
module SessionsRoute {
  import opened Optional
  import opened Records
  import opened Config
  import opened Validators
  import opened Exceptions
  import opened TokenManager
  import opened Http
  import UserService

  datatype SaveSessionRequest = SaveSessionRequest(code: string, title: string, messages: seq<Message>)

  const EMPTY_TITLE: string := "標題不能為空"
  const EMPTY_MESSAGES: string := "對話內容不能為空"
  const SESSIONS_FULL: string := "已達到儲存對話數量上限 (3個)，請先刪除舊的對話。"
  const NOT_SAVED: string := "無法保存對話"
  const NOT_DELETED: string := "無法刪除對話"
  const TITLE_MAX_LENGTH: nat := 100

  /** `{"role": m.role, "content": sanitize_input(m.content, max_length=500)}` */
  function SanitizeMessage(m: Message): Message {
    Message(m.role, SanitizeInput(m.content, CHAT_MESSAGE_MAX_LENGTH))
  }

  /** The `sanitized_messages` loop. */
  method SanitizeMessages(messages: seq<Message>) returns (sanitized: seq<Message>)
    ensures |sanitized| == |messages|
    ensures forall i :: 0 <= i < |messages| ==> sanitized[i] == SanitizeMessage(messages[i])
  {
    sanitized := [];
    for i := 0 to |messages|
      invariant |sanitized| == i
      invariant forall j :: 0 <= j < i ==> sanitized[j] == SanitizeMessage(messages[j])
    {
      var content := SanitizeInput(messages[i].content, CHAT_MESSAGE_MAX_LENGTH);
      sanitized := sanitized + [Message(messages[i].role, content)];
    }
  }

  /** Sanitising keeps every role as sent, bounds every content by 500 characters, may
      leave a content empty, and changes nothing on a second pass. */
  lemma SanitizedMessageFacts(m: Message)
    ensures SanitizeMessage(m).role == m.role
    ensures |SanitizeMessage(m).content| <= CHAT_MESSAGE_MAX_LENGTH
    ensures SanitizeMessage(SanitizeMessage(m)) == SanitizeMessage(m)
    ensures m.content == "" ==> SanitizeMessage(m).content == ""
  {
    SanitizeIdempotent(m.content, CHAT_MESSAGE_MAX_LENGTH);
  }

  /** The error a strictly parsed header raises before the token is looked at, if any. */
  function HeaderError(u: Uuid4, header: Option<string>): (r: Option<Response>)
    ensures r.Some? <==> !ParseAuthorization(header).Bearer?
    ensures r.Some? ==> r.value.status == 400
  {
    match ParseAuthorization(header)
    case NoHeader => Some(Raise(Validation(u, MISSING_HEADER)))
    case BadScheme => Some(Raise(Validation(u, BAD_HEADER)))
    case Bearer(_) => None
  }

  /** `get_sessions(authorization)` */
  method GetSessions(store: UserService.UserStore, tokens: TokenStore, header: Option<string>, now: real, u: Uuid4)
    returns (resp: Response)
    modifies store, tokens
    ensures HeaderError(u, header).Some? ==>
      resp == HeaderError(u, header).value && store.users == old(store.users) && tokens.blacklist == old(tokens.blacklist)
    ensures HeaderError(u, header).None? ==>
      var code := SanitizeInput(ParseAuthorization(header).token, ACCESS_CODE_MAX_LENGTH);
      && store.users == UsersAfterValidation(old(store.users), old(tokens.blacklist), code, now)
      && tokens.blacklist == BlacklistAfterValidation(old(tokens.blacklist), code, now)
      && (TokenValid(old(store.users), old(tokens.blacklist), code, now) ==>
            code in old(store.users) && resp == Response(200, SessionList(old(store.users)[code].chatSessions)))
      && (!TokenValid(old(store.users), old(tokens.blacklist), code, now) ==> resp == Raise(Authentication(u, TOKEN_REJECTED)))
  {
    var auth := ParseAuthorization(header);
    if auth.NoHeader? {
      return Raise(Validation(u, MISSING_HEADER));
    }
    if auth.BadScheme? {
      return Raise(Validation(u, BAD_HEADER));
    }
    var code := SanitizeInput(auth.token, ACCESS_CODE_MAX_LENGTH);
    SanitizeIdempotent(auth.token, ACCESS_CODE_MAX_LENGTH);
    var valid := tokens.ValidateToken(store, code, now);
    if !valid {
      return Raise(Authentication(u, TOKEN_REJECTED));
    }
    var sessions := store.GetUserSessions(code);
    resp := Response(200, SessionList(sessions));
  }

  /** The checks `save_session` makes after the token has been accepted: the title,
      the message list and the capacity, in this order. */
  function SaveSessionError(u: Uuid4, req: SaveSessionRequest, stored: seq<Session>): (r: Option<Response>)
    ensures r.None? <==> SanitizeInput(req.title, TITLE_MAX_LENGTH) != "" && req.messages != [] && |stored| < MAX_SESSIONS_PER_USER
    ensures r.Some? ==> r.value.status == 400
    ensures SanitizeInput(req.title, TITLE_MAX_LENGTH) == "" ==> r == Some(Raise(Validation(u, EMPTY_TITLE)))
  {
    if SanitizeInput(req.title, TITLE_MAX_LENGTH) == "" then Some(Raise(Validation(u, EMPTY_TITLE)))
    else if |req.messages| == 0 then Some(Raise(Validation(u, EMPTY_MESSAGES)))
    else if |stored| >= MAX_SESSIONS_PER_USER then Some(Raise(Validation(u, SESSIONS_FULL)))
    else None
  }

  /** The session `save_session` appends. */
  function NewSession(sessionUuid: Uuid4, req: SaveSessionRequest): (s: Session)
    ensures |s.id| == 36 && |s.title| <= TITLE_MAX_LENGTH && |s.messages| == |req.messages|
    ensures forall i :: 0 <= i < |req.messages| ==> s.messages[i] == SanitizeMessage(req.messages[i])
  {
    Session(UuidString(sessionUuid), SanitizeInput(req.title, TITLE_MAX_LENGTH),
            seq(|req.messages|, i requires 0 <= i < |req.messages| => SanitizeMessage(req.messages[i])))
  }

  /** What the part of `save_session` after the token check answers, and the users
      store it leaves, for a known code. */
  function StoreOutcome(users: Users, code: string, req: SaveSessionRequest, u: Uuid4, sessionUuid: Uuid4): (r: (Response, Users))
    requires code in users
    ensures r.1.Keys == users.Keys
    ensures forall c :: c in users && c != code ==> r.1[c] == users[c]
    ensures r.0.status == 200 <==> SaveSessionError(u, req, users[code].chatSessions).None?
    ensures r.0.status == 200 ==>
      && r.0.body == SessionSaved(UuidString(sessionUuid))
      && r.1[code] == users[code].(chatSessions := users[code].chatSessions + [NewSession(sessionUuid, req)])
    ensures r.0.status != 200 ==> r.1 == users
  {
    var failure := SaveSessionError(u, req, users[code].chatSessions);
    if failure.Some? then (failure.value, users)
    else
      var record := users[code];
      (Response(200, SessionSaved(UuidString(sessionUuid))),
       users[code := record.(chatSessions := record.chatSessions + [NewSession(sessionUuid, req)])])
  }

  /** `save_session(req, authorization)`; `u` makes the error id, `sessionUuid` the new session's id. */
  method SaveSession(store: UserService.UserStore, tokens: TokenStore, header: Option<string>, req: SaveSessionRequest,
                     now: real, u: Uuid4, sessionUuid: Uuid4)
    returns (resp: Response)
    modifies store, tokens
    ensures var code := RequestCode(header, req.code);
      && (code == "" ==>
            resp == Raise(Validation(u, MISSING_CODE)) && store.users == old(store.users) && tokens.blacklist == old(tokens.blacklist))
      && (code != "" ==> tokens.blacklist == BlacklistAfterValidation(old(tokens.blacklist), code, now))
      && (code != "" && !TokenValid(old(store.users), old(tokens.blacklist), code, now) ==>
            resp == Raise(Authentication(u, TOKEN_REJECTED))
            && store.users == UsersAfterValidation(old(store.users), old(tokens.blacklist), code, now))
      && (code != "" && TokenValid(old(store.users), old(tokens.blacklist), code, now) ==>
            var validated := UsersAfterValidation(old(store.users), old(tokens.blacklist), code, now);
            code in validated && (resp, store.users) == StoreOutcome(validated, code, req, u, sessionUuid))
  {
    var code := RequestCode(header, req.code);
    if code == "" {
      return Raise(Validation(u, MISSING_CODE));
    }
    var valid := tokens.ValidateToken(store, code, now);
    if !valid {
      return Raise(Authentication(u, TOKEN_REJECTED));
    }
    resp := StoreSession(store, code, req, u, sessionUuid);
  }

  /** The part of `save_session` after the token has been accepted. */
  method StoreSession(store: UserService.UserStore, code: string, req: SaveSessionRequest, u: Uuid4, sessionUuid: Uuid4)
    returns (resp: Response)
    requires code in store.users
    modifies store
    ensures (resp, store.users) == StoreOutcome(old(store.users), code, req, u, sessionUuid)
  {
    var title := SanitizeInput(req.title, TITLE_MAX_LENGTH);
    if title == "" {
      return Raise(Validation(u, EMPTY_TITLE));
    }
    if |req.messages| == 0 {
      return Raise(Validation(u, EMPTY_MESSAGES));
    }
    var sanitized := SanitizeMessages(req.messages);
    var sessions := store.GetUserSessions(code);
    if |sessions| >= MAX_SESSIONS_PER_USER {
      return Raise(Validation(u, SESSIONS_FULL));
    }
    var session := Session(UuidString(sessionUuid), title, sanitized);
    assert session == NewSession(sessionUuid, req);
    var added := store.AddSession(code, session);
    if added {
      resp := Response(200, SessionSaved(session.id));
    } else {
      resp := Raise(Validation(u, NOT_SAVED));
    }
  }

  /** Whichever way the code arrives, an accepted save never leaves a user above the limit. */
  lemma SavedSessionWithinLimit(stored: seq<Session>, u: Uuid4, req: SaveSessionRequest, s: Session)
    requires SaveSessionError(u, req, stored).None?
    ensures |stored + [s]| <= MAX_SESSIONS_PER_USER
  {
  }

  /** `delete_session_endpoint(session_id, authorization)` */
  method DeleteSessionEndpoint(store: UserService.UserStore, tokens: TokenStore, sessionId: string, header: Option<string>,
                               now: real, u: Uuid4)
    returns (resp: Response)
    modifies store, tokens
    ensures HeaderError(u, header).Some? ==>
      resp == HeaderError(u, header).value && store.users == old(store.users) && tokens.blacklist == old(tokens.blacklist)
    ensures HeaderError(u, header).None? ==>
      var code := SanitizeInput(ParseAuthorization(header).token, ACCESS_CODE_MAX_LENGTH);
      var validated := UsersAfterValidation(old(store.users), old(tokens.blacklist), code, now);
      && tokens.blacklist == BlacklistAfterValidation(old(tokens.blacklist), code, now)
      && (!TokenValid(old(store.users), old(tokens.blacklist), code, now) ==>
            resp == Raise(Authentication(u, TOKEN_REJECTED)) && store.users == validated)
      && (TokenValid(old(store.users), old(tokens.blacklist), code, now) ==>
            && code in validated
            && resp == Response(200, Done(None))
            && store.users == validated[code := validated[code].(chatSessions := UserService.WithoutSession(validated[code].chatSessions, sessionId))])
  {
    var auth := ParseAuthorization(header);
    if auth.NoHeader? {
      return Raise(Validation(u, MISSING_HEADER));
    }
    if auth.BadScheme? {
      return Raise(Validation(u, BAD_HEADER));
    }
    var code := SanitizeInput(auth.token, ACCESS_CODE_MAX_LENGTH);
    SanitizeIdempotent(auth.token, ACCESS_CODE_MAX_LENGTH);
    var valid := tokens.ValidateToken(store, code, now);
    if !valid {
      return Raise(Authentication(u, TOKEN_REJECTED));
    }
    var deleted := store.DeleteSession(code, sessionId);
    if deleted {
      resp := Response(200, Done(None));
    } else {
      resp := Raise(Validation(u, NOT_DELETED));
    }
  }
}
