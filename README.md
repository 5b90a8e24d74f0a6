# Taiko Advisor, modelled in Dafny

Taiko Advisor is a recommendation assistant for the rhythm game *Taiko no Tatsujin*. This project models its core in Dafny and proves properties of that model. The core has four parts:

- **Access-code lifecycle.** A player logs in with a whitelisted access code. The code is sanitised, then either validated or refused. A code expires `TOKEN_EXPIRY_DAYS` after its `created_at`, and logging out puts it on a blacklist. Records written before timestamps existed are backfilled on their first validation.
- **Per-user stores.** Each user has a profile and up to `MAX_SESSIONS_PER_USER` saved chat sessions, reached through the `/api/profile` and `/api/sessions` routes.
- **The chat route.** It checks the request and takes candidate songs from the vector index. When the index yields nothing, it falls back to a random sample of the catalogue. It then assembles the prompt from the profile, the history and the candidates, and streams the model's non-empty chunks back.
- **Three offline scripts.**
  - The wiki scraper numbers rows into catalogue songs, adding Inner Oni (ura) entries, and merges them into the existing catalogue by title.
  - The tag generator resets AI features, fetches details, parses the model's comma-separated tags and adds a BPM band tag.
  - The index builder turns every song into an id, a document and metadata, and upserts them in batches of `CHROMA_BATCH_SIZE`.

How the model is built:

- **Mutable stores are classes.** The whole-file JSON stores are `UserService.UserStore` (the users map) and `TokenManager.TokenStore` (the blacklist map). Their methods carry `modifies` clauses and state the complete new state.
- **Classes model only what changes in place.** The vector collection is `InitChroma.IndexStore`. Every route is a method over the stores, and pure outcome functions (`ProfileRoute.ProfileOutcome`, `SessionsRoute.StoreOutcome`, `TokenManager.UsersAfterValidation`, …) say what the new state is.
- **Loop bodies are methods proved against functions.** Where the source loops (the row scraper, the merge, the tag pass, the history builder, the chunk stream, the index builder, the batch loop), the model has a method with a loop that is proved equal to a specification function. The properties are proved as lemmas about that function.
- **Python's string operations are written out in `PyStr`.** These are `strip`, `split()`, `split(sep)`, `join`, slicing, `str(int)` and line splitting.
- **Outside behaviour becomes parameters.** The clock (`now`), UUIDs, randomness, the LLM, the vector index's ranking, `json.dumps`/`json.loads`, the detail-page fetch and the wiki fetch are all parameters.

## Model

| member | source | states |
|---|---|---|
| Validators.RemoveControlChars | lib/auth/validators.py:27 | the result holds no character of `[\x00-\x1f\x7f-\x9f]`, only characters of the input, and equals a text that had none |
| Validators.SanitizeInput | lib/auth/validators.py:7-32 | empty in, empty out; the result is at most `max_length` long, holds no control character, no newline or tab, and has no whitespace at either end |
| Validators.CollapseWithoutNewlines | lib/auth/validators.py:30 | the `\n{3,}` collapse leaves newline-free text unchanged |
| Validators.SanitizeSkipsCollapse | lib/auth/validators.py:24-32 | because `\n` is removed as a control character first, sanitising is truncate, filter, strip |
| Validators.SanitizeFixedPoint | lib/auth/validators.py:7-32 | the sanitiser returns its input unchanged exactly when the input is within the limit, control-free and unpadded |
| Validators.SanitizeIdempotent | lib/auth/validators.py:7-32 | sanitising twice with one limit is sanitising once |
| Validators.SanitizeWithWiderLimit | lib/auth/validators.py:7-32 | re-sanitising with a wider limit changes nothing |
| Validators.SanitizeLongRun | tests/test_validators.py:22-24 | 600 letters sanitised with limit 50 give the first 50 |
| Validators.ValidateRequiredField | lib/auth/validators.py:35-47 | empty value gives `(False, field+"不能為空")`; a value that sanitises to nothing gives `(False, field+"包含無效字符")`; otherwise `(True, cleaned)`, valid exactly when the cleaned value is non-empty |
| Exceptions.UuidString | lib/exceptions.py:12 | `str(uuid4())` is 36 characters with dashes at 8, 13, 18, 23 and version digit `4` at 14 |
| Exceptions.ErrorId | lib/exceptions.py:12 | `str(uuid4())[:8].upper()` is eight characters, the upper-case hex digits of the UUID's first 32 bits |
| Exceptions.ErrorIdInjective | lib/exceptions.py:12 | two UUIDs give the same error id exactly when their first eight hex digits agree |
| Exceptions.TaikoAdvisorException | lib/exceptions.py:7-13 | an exception keeps its message and status code (default 500) and carries the error id of its UUID |
| Exceptions.Authentication | lib/exceptions.py:16-19 | status 401, default message `認證失敗` |
| Exceptions.Validation | lib/exceptions.py:22-25 | status 400 with the given message |
| Exceptions.ResourceNotFound | lib/exceptions.py:28-31 | status 404, default message `資源不存在` |
| Exceptions.RateLimit | lib/exceptions.py:34-37 | status 429, default message `請求過於頻繁，請稍後再試` |
| Exceptions.SubclassesWellFormed | lib/exceptions.py:7-37 | every exception class yields a 4xx/5xx status and an eight-digit upper-case hex error id |
| TokenManager.AfterBlacklistCheck | lib/auth/token_manager.py:33-49 | the blacklist check keeps every other entry and keeps the code's own entry exactly when it is still within the expiry window |
| TokenManager.BlacklistAfterValidation | lib/auth/token_manager.py:59-75 | validation only ever removes blacklist entries, never changes one, and never removes an entry other than the sanitised code's |
| TokenManager.UsersAfterValidation | lib/auth/token_manager.py:78-90 | validation keeps every user's profile and sessions; the only record it changes is the sanitised code's, whose missing `created_at` becomes `now`, and only when the code is valid |
| TokenManager.TokenStore.IsTokenBlacklisted | lib/auth/token_manager.py:33-49 | answers true exactly when the code's entry is younger than the expiry period, and prunes an expired entry |
| TokenManager.TokenStore.AddToTokenBlacklist | lib/auth/token_manager.py:52-56 | the blacklist afterwards maps the code to `now` and is otherwise unchanged |
| TokenManager.TokenStore.ValidateToken | lib/auth/token_manager.py:59-97 | the answer is `TokenValid` of the old state; blacklist and users change as the two functions above say |
| TokenManager.ValidityIgnoresPadding | lib/auth/token_manager.py:69 | a code is valid exactly when its sanitised form is |
| TokenManager.ValidityWindow | lib/auth/token_manager.py:74-97 | for a known, timestamped, clean code: valid iff not revoked and `now <= created_at + TOKEN_EXPIRY_DAYS*86400` |
| TokenManager.UnknownCodeInvalid | lib/auth/token_manager.py:78-80 | a code that is not a user is never valid |
| TokenManager.RevocationIsPermanent | lib/auth/token_manager.py:52-56 | once a code is blacklisted at a time after its creation it is refused at every later time |
| TokenManager.StaleEntryPruned | lib/auth/token_manager.py:43-47 | an expired blacklist entry is removed by validation |
| TokenManager.LegacyRecordRevives | lib/auth/token_manager.py:40-90 | for every clean code whose record has no `created_at`: blacklisting it at `loggedOut` refuses it at `loggedOut`, and it validates again at any time after the blacklist entry has expired |
| TokenManager.BackfillStartsWindow | lib/auth/token_manager.py:86-90 | the first validation of a record without `created_at` starts its expiry window at that moment |
| UserService.WithoutSession | lib/services/user_service.py:103 | the filtered list is no longer than the original and holds only sessions of the original with a different id |
| UserService.WithoutSessionKeeps | lib/services/user_service.py:103 | a session survives the filter exactly when it was in the list and its id differs |
| UserService.WithoutSessionUnchanged | lib/services/user_service.py:103 | the filter changes nothing exactly when no session has the id |
| UserService.WithoutSessionAppend | lib/services/user_service.py:103 | the filter distributes over concatenation, so the order of the kept sessions is preserved |
| UserService.UserStore.GetUser | lib/services/user_service.py:24-27 | `Some` of the record exactly when the code is a user |
| UserService.UserStore.UserExists | lib/services/user_service.py:30-33 | true exactly when `get_user` finds a record |
| UserService.UserStore.CreateUser | lib/services/user_service.py:36-48 | creates `{created_at: now, profile: None, chat_sessions: []}` exactly when the code is new; otherwise nothing changes |
| UserService.UserStore.UpdateUserProfile | lib/services/user_service.py:51-59 | replaces only that user's profile, and only when the user exists |
| UserService.UserStore.GetUserProfile | lib/services/user_service.py:62-68 | `None` for an unknown code, else the stored profile |
| UserService.UserStore.GetUserSessions | lib/services/user_service.py:71-77 | `[]` for an unknown code, else the stored sessions |
| UserService.UserStore.AddSession | lib/services/user_service.py:80-93 | appends exactly when the user exists and has fewer than `MAX_SESSIONS_PER_USER` sessions; otherwise nothing changes; the per-user limit is preserved |
| UserService.UserStore.DeleteSession | lib/services/user_service.py:96-107 | for a known user, removes every session with the id and answers true; for an unknown code, answers false and changes nothing |
| Http.Raise | server.py:125-135 | a raised exception answers with its own status code and `{"error": message, "error_id": id}` |
| Http.RaisedCarriesErrorId | server.py:125-135 | a raised validation or authentication error answers 400 or 401 with its message and an eight-digit upper-case hex error id |
| Http.ParseAuthorization | api/profile/route.py:98-103 | no header or an empty one is "missing"; a Bearer token is a non-empty word without whitespace |
| Http.BearerRoundTrip | api/profile/route.py:101-103 | `"<bearer in any case> <token>"` parses back to the token |
| Http.BareTokenIsBadScheme | api/profile/route.py:102 | a header of a single word is refused as a bad format |
| Http.ThreeWordsIsBadScheme | api/profile/route.py:102 | a header of three words is refused as a bad format |
| Http.HeaderCode | api/profile/route.py:43-47 | the header's code is empty unless the header is a Bearer header, is within `ACCESS_CODE_MAX_LENGTH`, and is already sanitised |
| Http.RequestCode | api/profile/route.py:42-51 | the code is the header's code or the sanitised body code, empty only when both are, and always sanitised |
| Http.HeaderTakesPrecedence | api/profile/route.py:43-47 | a clean Bearer token wins over whatever the body holds |
| Http.BodyCodeFallback | api/profile/route.py:49-51 | without a usable header the body's code is used |
| LoginRoute.LoginResponse | api/login/route.py:19-56 | 400 exactly when the code sanitises to nothing, 200 exactly when the code is valid ignoring the blacklist, else 401; a 200 tells whether a profile is still needed, the profile and `expires_in` |
| LoginRoute.Login | api/login/route.py:19-56 | the answer is `LoginResponse` of the old users; the users change only by the `created_at` backfill |
| LoginRoute.LoginIsWhitelist | api/login/route.py:31-33 | login never creates a user, and an unknown code is never accepted |
| LoginRoute.LoginIgnoresBlacklist | api/login/route.py:29-47 | login accepts a logged-out code that `validate_token` refuses |
| LoginRoute.ExpiredLoginKeepsRecord | api/login/route.py:44-47 | an expired code is answered 401 `存取代碼已過期，請重新申請` and its record is kept |
| LoginRoute.FirstLoginBackfills | api/login/route.py:39-42 | the first login of a record without `created_at` succeeds and stamps it with `now` |
| ProfileRoute.StoredProfile | api/profile/route.py:77-82 | the stored profile has exactly the keys `name`, `level`, `star_pref`, `style` with the cleaned values |
| ProfileRoute.CheckProfile | api/profile/route.py:61-82 | valid exactly when name and level both sanitise to something; the name's message comes first; a valid result is the sanitised four fields |
| ProfileRoute.RequiredFieldMessages | api/profile/route.py:61-71 | an empty name, a name of only invalid characters and an empty level each raise their own message |
| ProfileRoute.SavedProfileShowsAsSaved | api/profile/route.py:73-82 | every saved value is already clean, so the chat prompt shows it exactly as saved |
| ProfileRoute.ProfileOutcome | api/profile/route.py:60-86 | a failed field check raises 400 with its message and leaves the users; otherwise the user's profile is replaced and the answer is `個人資料已儲存！` |
| ProfileRoute.SaveProfile | api/profile/route.py:33-88 | missing code raises 400 and changes nothing; a refused code raises 401; a valid code goes on to `ProfileOutcome`; blacklist and users change as token validation says |
| ProfileRoute.StoreProfile | api/profile/route.py:60-88 | the state and answer are `ProfileOutcome` of the validated users |
| ProfileRoute.GetProfile | api/profile/route.py:91-112 | a missing header or a bad format raises 400 and changes nothing; otherwise the answer is the stored profile when the code is valid, 401 when it is not |
| SessionsRoute.SanitizeMessages | api/sessions/route.py:97-101 | one sanitised message per input message, in order, keeping each role |
| SessionsRoute.SanitizedMessageFacts | api/sessions/route.py:100-101 | a sanitised message keeps its role, is at most `CHAT_MESSAGE_MAX_LENGTH` long, is a fixed point, and stays empty when it was empty |
| SessionsRoute.HeaderError | api/sessions/route.py:44-50 | a 400 error exactly when the header is missing or is not two words starting with `bearer` |
| SessionsRoute.GetSessions | api/sessions/route.py:38-59 | header errors change nothing; otherwise a valid code gets its stored sessions and a refused one raises 401; the stores change as token validation says |
| SessionsRoute.SaveSessionError | api/sessions/route.py:89-108 | no error exactly when the title sanitises to something, there is a message and the user holds fewer than `MAX_SESSIONS_PER_USER` sessions; an empty title raises `標題不能為空` first |
| SessionsRoute.NewSession | api/sessions/route.py:110-115 | the new session has a 36-character UUID id, a title of at most 100 characters and the sanitised messages |
| SessionsRoute.StoreOutcome | api/sessions/route.py:89-121 | only the caller's record can change; the answer is 200 with the new id exactly when no check fails, and the new session is then appended; on failure nothing changes |
| SessionsRoute.SaveSession | api/sessions/route.py:62-121 | missing code raises 400 and changes nothing; a refused code raises 401; a valid code goes on to `StoreOutcome` |
| SessionsRoute.StoreSession | api/sessions/route.py:89-121 | the state and answer are `StoreOutcome` of the validated users |
| SessionsRoute.SavedSessionWithinLimit | api/sessions/route.py:103-108 | a save that passes the checks keeps the user within `MAX_SESSIONS_PER_USER` |
| SessionsRoute.DeleteSessionEndpoint | api/sessions/route.py:124-148 | header errors change nothing; a refused code raises 401; a valid code has every session with that id removed and gets `{"success": true}` |
| ChatService.QueryHits | lib/services/chat_service.py:28 | the query fails exactly when the index raises; otherwise it is the first `CHROMA_QUERY_LIMIT` entries of the ranking, all of them when there are fewer |
| ChatService.FirstFailure | lib/services/chat_service.py:30-39 | the position of the first undecodable payload: none before it, and the one at it fails |
| ChatService.DecodedSongsBeforeFailure | lib/services/chat_service.py:30-39 | the decoding loop keeps exactly the truthy payloads before the first payload whose decoding raises |
| ChatService.IndexedCandidates | lib/services/chat_service.py:25-39 | the index never yields more than `CHROMA_QUERY_LIMIT` candidates |
| ChatService.Pick | lib/services/chat_service.py:43 | picking positions yields the songs at those positions, in that order |
| ChatService.Sample | lib/services/chat_service.py:43 | `random.sample`: `k` songs taken from `k` distinct positions of the list |
| ChatService.GetCandidateSongs | lib/services/chat_service.py:15-46 | the result is the index's candidates when there are any, else a sample of `min(FALLBACK_SONGS_COUNT, len(all_songs))` songs |
| ChatService.CandidateBounds | lib/services/chat_service.py:15-46 | at most `CHROMA_QUERY_LIMIT` candidates; when the index yields none the fallback has `min(FALLBACK_SONGS_COUNT, len(all_songs))` songs from the list, and none when the list is empty |
| ChatService.FailureFirstFallsBack | lib/services/chat_service.py:33-39 | when the first payload cannot be decoded the whole query yields nothing, so the fallback runs |
| ChatService.ProfileField | lib/services/chat_service.py:56-59 | a profile value in the prompt is at most 50 characters and holds no newline |
| ChatService.ProfileFieldValue | lib/services/chat_service.py:56-59 | a missing key shows the default; a clean stored value shows itself |
| ChatService.BuildProfileContext | lib/services/chat_service.py:49-66 | the context is empty exactly when there is no profile or it is empty |
| ChatService.ProfileContextLayout | lib/services/chat_service.py:61-66 | a non-empty profile gives the header line, the four labelled lines, and a final newline |
| ChatService.RoleLabel | lib/services/chat_service.py:78 | the label is `玩家: ` exactly when the role is `user`, else `顧問: ` |
| ChatService.HistoryLineParts | lib/services/chat_service.py:78-80 | each history line is the role label followed by the content sanitised to 500 characters |
| ChatService.HistoryContext | lib/services/chat_service.py:69-83 | the history context is empty exactly when there is no history |
| ChatService.BuildHistoryContext | lib/services/chat_service.py:69-83 | the loop builds exactly the history context |
| ChatService.HistoryContextLayout | lib/services/chat_service.py:76-81 | a non-empty history gives the header line, one line per message in order, and a blank line |
| ChatService.ChatPromptEndsWithRequest | lib/services/chat_service.py:111-113 | the prompt always ends with the request header, the message and a newline |
| ChatService.ChatPromptLayout | lib/services/chat_service.py:95-113 | the prompt's lines are the persona and task, the profile context, the history context, the rules, the songs section and the request section, in that order |
| ChatService.ChatPromptLastLines | lib/services/chat_service.py:111-113 | for a one-line message the last lines are the request header, the message and an empty line |
| ChatRoute.YieldedTexts | api/chat/route.py:85-87 | only non-empty chunk texts are yielded, at most one per chunk |
| ChatRoute.StreamedIsAllText | api/chat/route.py:85-87 | the streamed body is the concatenation of every chunk's text, since skipped chunks contribute nothing |
| ChatRoute.StreamChunks | api/chat/route.py:80-87 | the generator loop yields exactly the non-empty chunk texts, in order |
| ChatRoute.ChatCheck | api/chat/route.py:48-65 | the prompt is built exactly when message and code sanitise to something, the code is valid and a client exists; otherwise 400 for an empty message or code, 401 for a refused code, 500 without a client |
| ChatRoute.Chat | api/chat/route.py:38-94 | a failed check answers its rejection; otherwise the candidates are a candidate list for the message and the answer streams the model's reply to the assembled prompt; the stores change only by token validation, and not at all before it |
| ChatRoute.Answer | api/chat/route.py:67-89 | the prompt is assembled from the sanitised message, the profile and history contexts and the dumped candidates, and the reply is streamed |
| ChatRoute.SecondUnknownCheckUnreachable | api/chat/route.py:60-62 | a code that passed validation is always a user afterwards, so the second unknown-code check never fires |
| ChatRoute.AnyRoleAccepted | api/chat/route.py:27-35 | the history's roles are never checked: any role other than `user` is shown as the advisor, and history never changes the checks' outcome |
| ChatRoute.Logout | api/chat/route.py:97-114 | an empty code answers 400 and an unknown code 401, both leaving the blacklist; a known code is blacklisted at `now` and answered `已成功登出` |
| ChatRoute.LoggedOutCodeRefused | api/chat/route.py:112 | a logged-out code is refused for the whole expiry period after logout |
| GenerateTags.NumbersIffDigit | generate_tags.py:121-124 | `re.findall(r"\d+(?:\.\d+)?")` finds nothing exactly when the text holds no digit |
| GenerateTags.LeadingNumber | generate_tags.py:121 | a digit run followed by a non-digit, non-dot character is read as one whole number |
| GenerateTags.RangeNumbers | generate_tags.py:121 | `"a-b"` yields the two numbers `a` and `b` |
| GenerateTags.MaxOf | generate_tags.py:126 | the maximum is one of the numbers and no number exceeds it |
| GenerateTags.Classify | generate_tags.py:128-135 | `低BPM` iff below 160, `一般速度` iff 160 to 220, `高BPM` iff above 220 and below 260, `超高BPM` iff 260 or more |
| GenerateTags.ClassifyMonotone | generate_tags.py:128-135 | a faster BPM never gets a slower band |
| GenerateTags.BpmTag | generate_tags.py:109-139 | `None` exactly when the BPM text holds no digit; otherwise one of the four tags |
| GenerateTags.RangeTakesLarger | generate_tags.py:121-135 | a BPM range is classified by its larger end |
| GenerateTags.RangeExample | generate_tags.py:109-139 | `"150-200"` is `一般速度` |
| GenerateTags.KeptTags | generate_tags.py:101 | the kept tags are stripped and non-empty, at most one per piece |
| GenerateTags.ParseTags | generate_tags.py:89-106 | a failed call gives `["API錯誤"]`; a reply gives at most four stripped, non-empty tags without a comma |
| GenerateTags.ParseReply | generate_tags.py:99-103 | a reply is read by replacing `，` with `,`, stripping, splitting on `,`, keeping stripped non-empty pieces, and taking the first four |
| GenerateTags.TagsRoundTrip | generate_tags.py:99-103 | clean tags joined by commas parse back to their first four |
| GenerateTags.JoinedTagsSplit | generate_tags.py:101 | clean tags joined by commas split back to themselves |
| GenerateTags.EmptyReply | generate_tags.py:99-103 | an empty reply gives no tags |
| GenerateTags.FirstTags | generate_tags.py:103 | `tags[:4]` is a prefix of at most four, all of them when there are four or fewer |
| GenerateTags.ResetFeatures | generate_tags.py:157-162 | only `Inner Oni` and `人工處理` survive, with no new duplicates |
| GenerateTags.ResetKeepsOrder | generate_tags.py:161 | the reset distributes over concatenation, so the survivors keep their order |
| GenerateTags.MarkManual | generate_tags.py:190-192 | `人工處理` is present afterwards, appended only when it was missing |
| GenerateTags.AddTags | generate_tags.py:203-205 | the old features stay first; a tag is added when it is new and not the BPM tag; no duplicates are introduced |
| GenerateTags.Merged | generate_tags.py:198-210 | the old features then the new tags then the BPM tag: membership exactly as the loop says, no duplicates, and a new truthy BPM tag comes last |
| GenerateTags.MergeFeatures | generate_tags.py:198-210 | the two loops build exactly `Merged` |
| GenerateTags.ProcessSong | generate_tags.py:151-213 | only features, `max_combo` and `strategy_text` change; kept features survive; no duplicates; an unchanged song has only its features reset; a song with strategy text is always changed |
| GenerateTags.CompleteSongNotFetched | generate_tags.py:164-177 | a song with strategy text and a non-zero combo is never fetched again |
| GenerateTags.ShortTextSkipsModel | generate_tags.py:164-193 | a strategy text shorter than 50 characters, whether stored or fetched earlier in the same pass, never reaches the model and marks the song `人工處理` |
| GenerateTags.FailedCallTagged | generate_tags.py:164-210 | when the model call on the strategy text (stored or just fetched) fails, `API錯誤` is among the song's new features |
| GenerateTags.TagSong | generate_tags.py:151-213 | the per-song pass computes exactly `ProcessSong` |
| GenerateTags.TaggedSongs | generate_tags.py:151-213 | one processed song per input song, in order |
| GenerateTags.TagSongs | generate_tags.py:142-215 | the loop yields the processed songs and counts exactly the changed ones |
| Scraper.StarPrefixIgnored | scraper.py:97 | the optional `★`, `★×` or `★x` prefix of `(?:★[×x]?)?(\d+)` never changes which number is found: it is the first digit run |
| Scraper.FirstNumberIffDigit | scraper.py:97-99 | a difficulty number is found exactly when the cell text holds a digit |
| Scraper.RowSongs | scraper.py:72-154 | a row gives no song exactly when it has fewer than 5 cells or its title is empty, `曲名`, the category or limited; otherwise one entry with the title and no features, and a second ` (Inner Oni)` entry with feature `Inner Oni` exactly when cell 8 exists and holds a digit; ids count on from the next id, genre is the category |
| Scraper.UraIffDigit | scraper.py:125-133 | a row has an Inner Oni chart exactly when cell 8 exists and holds a digit, because a `★` without a digit never matches |
| Scraper.RowOutcomes | scraper.py:85-86 | a header row and a limited row give nothing; a row whose cell 8 has no digit gives only the base entry |
| Scraper.NumberedAppend | scraper.py:71-154 | adding one row's entries, numbered from the running counter, extends the numbering of the rows before it |
| Scraper.NumberedIds | scraper.py:107 | when every row numbers its entries consecutively, so does the whole table |
| Scraper.CategorySongs | scraper.py:34 | a category's songs have ids `prefix + 1`, `prefix + 2`, … in order and its genre |
| Scraper.InnerOniFollowsBase | scraper.py:139-154 | every ` (Inner Oni)` entry directly follows its base entry, with the next id |
| Scraper.PageSongs | scraper.py:41-71 | a failed fetch or a table of fewer than 5 rows gives nothing; otherwise the rows after the two header rows are numbered from `prefix + 1` |
| Scraper.ScrapeRow | scraper.py:72-154 | the row loop body appends exactly `RowSongs` |
| Scraper.ScrapeRows | scraper.py:71-154 | the row loop yields exactly the numbered entries of all rows |
| Scraper.ScrapeCategory | scraper.py:41-160 | one category's pass yields exactly `PageSongs` |
| Scraper.ScrapeWiki | scraper.py:11-163 | the category loop yields the nine categories' songs in order |
| Scraper.DropLimited | scraper.py:177 | exactly the songs whose title is not limited survive |
| Scraper.IndexByTitle | scraper.py:180 | the dictionary is a valid title index whose keys are exactly the non-empty titles |
| Scraper.InsertKeepsValid | scraper.py:180 | inserting an unlimited song keeps the index valid and adds its title when non-empty |
| Scraper.StepKeepsValid | scraper.py:184-200 | one merge step keeps the index valid |
| Scraper.MergeAll | scraper.py:184-200 | the merge keeps the index valid, only appends titles, counts every considered song once as added or updated, counts as added exactly the new titles, and changes only bpm, difficulty and a non-empty detail url of an existing record |
| Scraper.MergeOrder | scraper.py:197-203 | the final order is the old titles followed by each new title the first time it is seen |
| Scraper.Values | scraper.py:203 | one record per title of the order, each under its own title |
| Scraper.MergedTitles | scraper.py:176-203 | the merged list holds each title once, and no empty or limited title |
| Scraper.MergeOne | scraper.py:185-200 | the loop body computes exactly one merge step |
| Scraper.MergeSongs | scraper.py:165-208 | the final list and both counts are those of `MergeAll` started from the de-limited existing songs |
| InitChroma.DocumentLayout | init_chroma.py:31-45 | the document reads back as its labelled lines: seven, and an eighth `最大連擊數 (Max Combo)` line exactly when `max_combo` is non-zero |
| InitChroma.NatToStringInjective | init_chroma.py:29 | `str` of a natural number determines the number |
| InitChroma.IntToStringInjective | init_chroma.py:29 | `str` of an integer determines the integer |
| InitChroma.IndexRecords | init_chroma.py:27-51 | one record per song, in order: its id string, its document and its metadata |
| InitChroma.DistinctEntryIds | init_chroma.py:29 | songs with distinct ids get distinct entry ids |
| InitChroma.BuildEntries | init_chroma.py:22-51 | the loop builds three parallel lists that together are exactly `IndexRecords` |
| InitChroma.Batches | init_chroma.py:59-61 | batch `k` is `[500k, min(500k + 500, n))`, and there are just enough batches to reach `n` |
| InitChroma.BatchesPartition | init_chroma.py:59-68 | the batches are non-empty, hold at most 500 entries, follow each other without gap from 0 to `n`, and put every index in exactly one batch |
| InitChroma.UpsertAll | init_chroma.py:63-68 | upserting adds exactly the records' ids to the keys |
| InitChroma.UpsertAllAppend | init_chroma.py:60-68 | upserting in two batches is upserting everything at once |
| InitChroma.UpsertAllLast | init_chroma.py:63-68 | an id holds the last record written under it |
| InitChroma.IndexStore.Upsert | init_chroma.py:63-68 | `collection.upsert` succeeds exactly when the batch's ids are distinct, and then writes its records over the collection; a refused call writes nothing |
| InitChroma.UpsertInBatches | init_chroma.py:57-68 | the batch loop succeeds exactly when no batch repeats an id, and then leaves the collection as one upsert of every record would; otherwise it stops at the first refused batch, whose start is the number of records written, and every batch before it was accepted |
| InitChroma.UpsertBatch | init_chroma.py:60-68 | one pass of the loop: batch `k` ends at `min(500k + 500, n)`, is accepted exactly when its ids are distinct, and then extends the records written so far by that batch; a refused batch leaves the collection as it was |
| InitChroma.DistinctBatches | init_chroma.py:59-68 | ids distinct overall are distinct within every batch |
| InitChroma.RepeatInBatchFails | init_chroma.py:59-68 | two equal ids at positions in the same batch make the batch loop fail |
| InitChroma.InitIndex | init_chroma.py:22-68 | building the entries and upserting them in batches succeeds exactly when no batch of entry ids repeats one, and the collection then holds `IndexRecords` upserted; on failure it holds the records before the refused batch |
| InitChroma.DistinctSongsIndexed | init_chroma.py:27-68 | a catalogue with distinct song ids is always indexed in full |
| InitChroma.IndexedSong | init_chroma.py:27-68 | a song whose id no later song repeats is stored under its id with its own document and metadata, and a round-tripping serialiser lets the retriever decode it back |

## Where the code and its description differ

The model follows the code in each of these cases:

- **Newlines.** `sanitize_input` removes `\n` along with the other control characters, because it lies in `\x00-\x1f`. The `\n{3,}` collapse therefore never fires (`Validators.SanitizeSkipsCollapse`), and sanitised text is always one line.
- **Logout.** It adds a blacklist entry and never deletes the user record. A blacklist entry expires after the expiry period. A record without `created_at` can therefore become valid again after logout (`TokenManager.LegacyRecordRevives`).
- **Expired codes.** Login and validation keep an expired user's record; they only refuse the code. The comment at api/login/route.py:46 says otherwise.
- **Login ignores the blacklist.** A logged-out code still logs in (`LoginRoute.LoginIgnoresBlacklist`).
- **`delete_session`.** It removes every session with the id and answers true for any known user, even when nothing matched.
- **No `error_id` on some errors.** The login, chat and logout routes answer errors with plain `{"error": ...}` bodies. Only raised exceptions carry an `error_id`.
- **Repeated song ids.** `init_chromadb` assumes distinct song ids, but the catalogue does not guarantee them. `merge_and_save` keeps an existing title's old id (scraper.py:187-196), while a new title takes the positional id `prefix + counter` (scraper.py:107), which a shifted existing record may already hold. Two equal ids in one batch make the upsert raise and end the indexing at that batch (`InitChroma.RepeatInBatchFails`, `InitChroma.InitIndex`).
- **History roles.** Roles are never validated. Any role other than `user` is shown as the advisor.

## Left out

- File I/O: the JSON stores, `songs.json` and the blacklist file are maps in memory. Each load-modify-save is one atomic method. Cross-request locking and concurrency are not modelled.
- The clock, UUID generation, `random.sample`, `random.uniform` and `time.sleep` are parameters or left out. The polite crawl delays and the periodic saves every ten songs have no observable effect on the model.
- Timestamps and BPM values are `real`, not IEEE floats.
- `isdigit`, `\d`, `.lower()` and `.upper()` are modelled for ASCII only. Python's full Unicode digit and case tables are not modelled.
- The LLM, its model name and the tag prompt template are abstracted as functions from the prompt to the reply. A reply is a sequence of chunks for the chat, or `Failed`/`Replied(text)` for tagging.
- The vector index's embedding and similarity ranking are a parameter, and `SentenceTransformer.encode` is left out. The collection stores documents and metadata by id without embeddings.
- HTML parsing (BeautifulSoup) is left out. A table row is given as its cells, each cell's stripped strings, its text and its first link already resolved with `urljoin`. Picking the largest table is left out: the page is the row list of that table.
- `fetch_details` (the detail-page parser) is a parameter that returns `(max_combo, strategy_text)`.
- A request exception in the middle of a category's rows is not modelled: a category either fails to fetch as a whole or is parsed completely.
- The `difficulty` object is reduced to its `oni` entry, because that is the only key the code writes or reads.
- Rate limiting (`lib/rate_limiter.py`), the FastAPI middleware, the static files and the server start-up (`lib/dependencies.py`) are not modelled. The client, the collection and the song list are passed to the chat route directly.
- The `except` around the streaming response (api/chat/route.py:79-94) never sees an LLM error. The model call and the chunk loop sit inside the generator body, which runs only when the response is iterated after `chat` has returned. So no such 500 answer exists, and the model always answers 200 with the stream. An LLM error while the stream is consumed is not modelled.
- The clock: each request uses one `now`. The source reads the clock separately in the blacklist check (lib/auth/token_manager.py:43, through `is_token_blacklisted`) and again for the backfill or the expiry test (lib/auth/token_manager.py:88 and :94). Time passing between those reads within one request is not modelled.
- InitChroma.IndexStore.Upsert: the collection's behaviour is assumed, not taken from the repository. A call whose ids repeat is refused and writes nothing (Chroma's `DuplicateIDError`). A call with distinct ids writes each record over any entry with the same id, so across batches a later record replaces an earlier one.
- BuildChatPrompt: it has no contract of its own. Its layout is stated by `ChatService.ChatPromptLayout`, `ChatService.ChatPromptEndsWithRequest` and `ChatService.ChatPromptLastLines`.
- ChatService.ChatPromptLayout: it states the prompt's lines in terms of the lines of each context block, not the full literal text.
- `main` of generate_tags.py exits early without songs or without an API key, and logs; neither is modelled.
