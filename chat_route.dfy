/** `POST /api/chat` and `POST /api/logout` (api/chat/route.py). */
module ChatRoute {
  import opened Optional
  import opened Records
  import opened PyStr
  import opened Config
  import opened Validators
  import opened Catalogue
  import opened TokenManager
  import opened ChatService
  import opened Http
  import UserService

  datatype ChatRequest = ChatRequest(message: string, code: string, history: seq<Message>)

  /** One item of the model's response stream; `text` may be missing. */
  datatype Chunk = Chunk(text: Option<string>)

  /** The language-model client: the response stream for a prompt. */
  type Llm = string -> seq<Chunk>

  const EMPTY_MESSAGE: string := "訊息不能為空"
  const EMPTY_CODE: string := "存取代碼不能為空"
  const UNKNOWN_CODE: string := "無效的存取代碼。"
  const NO_CLIENT: string := "找不到 Gemini API Key"
  const LOGGED_OUT: string := "已成功登出"

  // ---------------------------------------------------------------------------
  // Stream filtering

  /** `if chunk.text: yield chunk.text` */
  predicate Yields(c: Chunk) {
    c.text.Some? && c.text.value != ""
  }

  /** The texts the stream generator yields, in order. */
  function YieldedTexts(chunks: seq<Chunk>): (r: seq<string>)
    ensures |r| <= |chunks|
    ensures forall i :: 0 <= i < |r| ==> r[i] != ""
  {
    if chunks == [] then []
    else
      var last := chunks[|chunks| - 1];
      YieldedTexts(chunks[..|chunks| - 1]) + (if Yields(last) then [last.text.value] else [])
  }

  /** The text of a chunk, a missing text read as empty. */
  function TextOf(c: Chunk): string {
    if c.text.Some? then c.text.value else ""
  }

  /** All chunk texts, one after the other. */
  function AllText(chunks: seq<Chunk>): string {
    if chunks == [] then "" else AllText(chunks[..|chunks| - 1]) + TextOf(chunks[|chunks| - 1])
  }

  /** The filter loses no text: the streamed body is the in-order concatenation of all
      chunk texts. */
  lemma {:induction false} StreamedIsAllText(chunks: seq<Chunk>)
    ensures Concat(YieldedTexts(chunks)) == AllText(chunks)
  {
    if chunks != [] {
      var init, last := chunks[..|chunks| - 1], chunks[|chunks| - 1];
      StreamedIsAllText(init);
      if Yields(last) {
        ConcatAppend(YieldedTexts(init), last.text.value);
      } else {
        assert YieldedTexts(init) + [] == YieldedTexts(init);
        assert TextOf(last) == "";
      }
    }
  }

  /** `stream_generator()`, collected. */
  method StreamChunks(chunks: seq<Chunk>) returns (yielded: seq<string>)
    ensures yielded == YieldedTexts(chunks)
  {
    yielded := [];
    var i := 0;
    while i < |chunks|
      invariant 0 <= i <= |chunks|
      invariant yielded == YieldedTexts(chunks[..i])
    {
      assert chunks[..i + 1][..i] == chunks[..i];
      var chunk := chunks[i];
      if chunk.text.Some? && chunk.text.value != "" {
        yielded := yielded + [chunk.text.value];
      }
      i := i + 1;
    }
    assert chunks[..i] == chunks;
  }

  // ---------------------------------------------------------------------------
  // Chat

  /** The sanitised message and code the checks look at. */
  function ChatMessage(req: ChatRequest): string { SanitizeInput(req.message, CHAT_MESSAGE_MAX_LENGTH) }

  function ChatCode(req: ChatRequest): string { SanitizeInput(req.code, ACCESS_CODE_MAX_LENGTH) }

  /** The chat route's checks, in their order, for the stores as they are on arrival:
      the rejection, or `None` when the prompt is built. */
  function ChatCheck(users: Users, blacklist: Blacklist, req: ChatRequest, hasClient: bool, now: real): (r: Option<Response>)
    ensures r.Some? ==> r.value.body.Error?
    ensures r.None? <==> ChatMessage(req) != "" && ChatCode(req) != "" && TokenValid(users, blacklist, ChatCode(req), now) && hasClient
    ensures r.Some? && r.value.status == 400 <==> ChatMessage(req) == "" || ChatCode(req) == ""
    ensures r.Some? && r.value.status == 401 <==>
      ChatMessage(req) != "" && ChatCode(req) != "" && !TokenValid(users, blacklist, ChatCode(req), now)
    ensures r.Some? && r.value.status == 500 <==>
      ChatMessage(req) != "" && ChatCode(req) != "" && TokenValid(users, blacklist, ChatCode(req), now) && !hasClient
  {
    var message, code := ChatMessage(req), ChatCode(req);
    SanitizeIdempotent(req.code, ACCESS_CODE_MAX_LENGTH);
    if message == "" then Some(Reject(400, EMPTY_MESSAGE))
    else if code == "" then Some(Reject(400, EMPTY_CODE))
    else if !TokenValid(users, blacklist, code, now) then Some(Reject(401, TOKEN_REJECTED))
    else if code !in UsersAfterValidation(users, blacklist, code, now) then Some(Reject(401, UNKNOWN_CODE))
    else if !hasClient then Some(Reject(500, NO_CLIENT))
    else None
  }

  /** The prompt for a request that passed the checks, given the candidates' JSON text. */
  function ChatPrompt(users: Users, req: ChatRequest, songsContext: string): string {
    var code := ChatCode(req);
    var profile := if code in users then users[code].profile else None;
    BuildChatPrompt(ChatMessage(req), BuildProfileContext(profile), HistoryContext(req.history), songsContext)
  }

  /** `chat(req, client, collection, all_songs)`. `dumps` is `json.dumps(..., ensure_ascii=False)`. */
  method Chat(store: UserService.UserStore, tokens: TokenStore, req: ChatRequest, client: Option<Llm>,
              collection: Option<Collection>, allSongs: seq<Song>, dumps: seq<Song> -> string, now: real)
    returns (resp: Response, candidates: seq<Song>)
    modifies store, tokens
    ensures var check := ChatCheck(old(store.users), old(tokens.blacklist), req, client.Some?, now);
      && (check.Some? ==> resp == check.value)
      && (check.None? ==>
            && IsCandidateList(candidates, collection, ChatMessage(req), allSongs)
            && resp == Response(200, Stream(Concat(YieldedTexts(client.value(ChatPrompt(old(store.users), req, dumps(candidates))))))))
    ensures ChatMessage(req) == "" || ChatCode(req) == "" ==>
      store.users == old(store.users) && tokens.blacklist == old(tokens.blacklist)
    ensures ChatMessage(req) != "" && ChatCode(req) != "" ==>
      && store.users == UsersAfterValidation(old(store.users), old(tokens.blacklist), ChatCode(req), now)
      && tokens.blacklist == BlacklistAfterValidation(old(tokens.blacklist), ChatCode(req), now)
  {
    ghost var users0, blacklist0 := store.users, tokens.blacklist;
    candidates := [];
    var message := SanitizeInput(req.message, CHAT_MESSAGE_MAX_LENGTH);
    var code := SanitizeInput(req.code, ACCESS_CODE_MAX_LENGTH);
    if message == "" {
      return Reject(400, EMPTY_MESSAGE), candidates;
    }
    if code == "" {
      return Reject(400, EMPTY_CODE), candidates;
    }
    var valid := tokens.ValidateToken(store, code, now);
    if !valid {
      return Reject(401, TOKEN_REJECTED), candidates;
    }
    if code !in store.users {
      return Reject(401, UNKNOWN_CODE), candidates;
    }
    if client.None? {
      return Reject(500, NO_CLIENT), candidates;
    }
    var profile := store.GetUserProfile(code);
    assert profile == (if code in users0 then users0[code].profile else None);
    resp, candidates := Answer(message, profile, req.history, client.value, collection, allSongs, dumps);
  }

  /** The part of `chat` after the checks: contexts, candidates, prompt and stream. */
  method Answer(message: string, profile: Option<Profile>, history: seq<Message>, llm: Llm,
                collection: Option<Collection>, allSongs: seq<Song>, dumps: seq<Song> -> string)
    returns (resp: Response, candidates: seq<Song>)
    ensures IsCandidateList(candidates, collection, message, allSongs)
    ensures resp == Response(200, Stream(Concat(YieldedTexts(llm(
      BuildChatPrompt(message, BuildProfileContext(profile), HistoryContext(history), dumps(candidates)))))))
  {
    var profileContext := BuildProfileContext(profile);
    var historyContext := BuildHistoryContext(history);
    candidates := GetCandidateSongs(message, collection, allSongs);
    var songsContext := dumps(candidates);
    var prompt := BuildChatPrompt(message, profileContext, historyContext, songsContext);
    var yielded := StreamChunks(llm(prompt));
    resp := Response(200, Stream(Concat(yielded)));
  }

  /** The second "unknown code" check of the route never fires: a code that validates
      is in the store, and validation only ever adds a creation time. */
  lemma SecondUnknownCheckUnreachable(users: Users, blacklist: Blacklist, req: ChatRequest, now: real)
    requires ChatCode(req) != "" && TokenValid(users, blacklist, ChatCode(req), now)
    ensures ChatCode(req) in UsersAfterValidation(users, blacklist, ChatCode(req), now)
  {
    SanitizeIdempotent(req.code, ACCESS_CODE_MAX_LENGTH);
  }

  /** The history's roles are not checked: any role other than `"user"` reads as the advisor. */
  lemma AnyRoleAccepted(users: Users, blacklist: Blacklist, req: ChatRequest, now: real, hasClient: bool)
    ensures forall m :: m in req.history && m.role != "user" ==> RoleLabel(m.role) == ADVISOR_LABEL
    ensures ChatCheck(users, blacklist, req, hasClient, now) == ChatCheck(users, blacklist, req.(history := []), hasClient, now)
  {
  }

  // ---------------------------------------------------------------------------
  // Logout

  /** `logout(code)`: blacklists a known code; no expiry or earlier entry is looked at. */
  method Logout(store: UserService.UserStore, tokens: TokenStore, raw: string, now: real) returns (resp: Response)
    modifies tokens
    ensures var code := SanitizeInput(raw, ACCESS_CODE_MAX_LENGTH);
      && (code == "" ==> resp == Reject(400, EMPTY_CODE) && tokens.blacklist == old(tokens.blacklist))
      && (code != "" && code !in store.users ==> resp == Reject(401, UNKNOWN_CODE) && tokens.blacklist == old(tokens.blacklist))
      && (code != "" && code in store.users ==>
            resp == Response(200, Done(Some(LOGGED_OUT))) && tokens.blacklist == old(tokens.blacklist)[code := now])
  {
    var code := SanitizeInput(raw, ACCESS_CODE_MAX_LENGTH);
    if code == "" {
      return Reject(400, EMPTY_CODE);
    }
    var users := store.users;
    if code !in users {
      return Reject(401, UNKNOWN_CODE);
    }
    tokens.AddToTokenBlacklist(code, now);
    resp := Response(200, Done(Some(LOGGED_OUT)));
  }

  /** After logging out at `loggedOut`, the code is refused by every route for the next
      seven days, whatever its record says. */
  lemma LoggedOutCodeRefused(users: Users, blacklist: Blacklist, raw: string, loggedOut: real, later: real)
    requires loggedOut <= later <= loggedOut + EXPIRY_SECONDS
    ensures !TokenValid(users, blacklist[SanitizeInput(raw, ACCESS_CODE_MAX_LENGTH) := loggedOut], raw, later)
  {
  }
}
