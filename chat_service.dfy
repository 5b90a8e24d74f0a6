/** Retrieval and prompt assembly of lib/services/chat_service.py. */
module ChatService {
  import opened Optional
  import opened PyStr
  import opened Config
  import opened Validators
  import opened Records
  import opened Catalogue

  // ---------------------------------------------------------------------------
  // Candidate retrieval

  /** One metadata entry returned by the vector index, as the retriever sees it:
      a `"json"` payload that decodes to a song, one that is missing or decodes to a
      falsy value (skipped), or one whose decoding raises. */
  datatype Hit = Payload(song: Song) | FalsyPayload | Undecodable

  /** The vector index: the ranked metadata entries for a query text, or `None`
      when the query itself raises. */
  datatype Collection = Collection(search: string -> Option<seq<Hit>>)

  /** `collection.query(query_texts=[message], n_results=CHROMA_QUERY_LIMIT)`:
      the best `CHROMA_QUERY_LIMIT` entries of the ranking. */
  function QueryHits(c: Collection, message: string): (r: Option<seq<Hit>>)
    ensures r.None? <==> c.search(message).None?
    ensures r.Some? ==> |r.value| <= CHROMA_QUERY_LIMIT
    ensures r.Some? ==> |r.value| <= |c.search(message).value| && r.value == c.search(message).value[..|r.value|]
    ensures r.Some? && |c.search(message).value| <= CHROMA_QUERY_LIMIT ==> r.value == c.search(message).value
  {
    match c.search(message)
    case None => None
    case Some(hits) => Some(hits[..Min(|hits|, CHROMA_QUERY_LIMIT)])
  }

  /** The songs carried by decodable, truthy payloads, in index order. */
  function Payloads(hits: seq<Hit>): (r: seq<Song>)
    ensures |r| <= |hits|
    decreases |hits|
  {
    if hits == [] then []
    else (if hits[0].Payload? then [hits[0].song] else []) + Payloads(hits[1..])
  }

  /** Position of the first entry whose decoding raises, or `|hits|`. */
  function FirstFailure(hits: seq<Hit>): (k: nat)
    ensures k <= |hits|
    ensures forall i :: 0 <= i < k ==> !hits[i].Undecodable?
    ensures k < |hits| ==> hits[k].Undecodable?
    decreases |hits|
  {
    if hits == [] || hits[0].Undecodable? then 0 else 1 + FirstFailure(hits[1..])
  }

  /** What the decoding loop has appended when it finishes or the exception leaves it. */
  function DecodedSongs(hits: seq<Hit>): (r: seq<Song>)
    ensures |r| <= |hits|
    decreases |hits|
  {
    if hits == [] then []
    else match hits[0]
      case Undecodable => []
      case FalsyPayload => DecodedSongs(hits[1..])
      case Payload(song) => [song] + DecodedSongs(hits[1..])
  }

  /** The loop keeps exactly the truthy payloads before the first failure. */
  lemma {:induction false} DecodedSongsBeforeFailure(hits: seq<Hit>)
    ensures DecodedSongs(hits) == Payloads(hits[..FirstFailure(hits)])
    decreases |hits|
  {
    if hits != [] && !hits[0].Undecodable? {
      DecodedSongsBeforeFailure(hits[1..]);
      assert hits[..FirstFailure(hits)][1..] == hits[1..][..FirstFailure(hits[1..])];
    }
  }

  /** The candidates the index yields, before the fallback is considered. */
  function IndexedCandidates(collection: Option<Collection>, message: string): (r: seq<Song>)
    ensures |r| <= CHROMA_QUERY_LIMIT
  {
    if collection.None? then []
    else match QueryHits(collection.value, message)
      case None => []
      case Some(hits) => DecodedSongs(hits)
  }

  /** `pos` names `|pos|` distinct positions of a list of length `n`. */
  predicate DistinctIndices(pos: seq<nat>, n: nat) {
    && (forall i :: 0 <= i < |pos| ==> pos[i] < n)
    && (forall i, j :: 0 <= i < j < |pos| ==> pos[i] != pos[j])
  }

  /** The entries of `all` at the positions `pos`. */
  function Pick(all: seq<Song>, pos: seq<nat>): (r: seq<Song>)
    requires forall i :: 0 <= i < |pos| ==> pos[i] < |all|
    ensures |r| == |pos|
    ensures forall i :: 0 <= i < |pos| ==> r[i] == all[pos[i]]
  {
    seq(|pos|, i requires 0 <= i < |pos| => all[pos[i]])
  }

  /** `random.sample(all, k)`: any `k` entries taken from distinct positions. */
  ghost predicate IsSample(sample: seq<Song>, all: seq<Song>, k: nat) {
    exists pos :: |pos| == k && DistinctIndices(pos, |all|) && sample == Pick(all, pos)
  }

  /** `random.sample(all, k)`: the choice of positions is left open. */
  method Sample(all: seq<Song>, k: nat) returns (sample: seq<Song>)
    requires k <= |all|
    ensures IsSample(sample, all, k)
  {
    var first: seq<nat> := seq(k, i requires 0 <= i < k => i);
    assert DistinctIndices(first, |all|);
    var pos: seq<nat> :| |pos| == k && DistinctIndices(pos, |all|);
    assert DistinctIndices(pos, |all|);
    assert forall i :: 0 <= i < |pos| ==> pos[i] < |all|;
    sample := Pick(all, pos);
  }

  /** What `get_candidate_songs` may return: the indexed candidates when there are
      any, otherwise a sample of `min(FALLBACK_SONGS_COUNT, |all_songs|)` songs. */
  ghost predicate IsCandidateList(c: seq<Song>, collection: Option<Collection>, message: string, allSongs: seq<Song>) {
    var indexed := IndexedCandidates(collection, message);
    if indexed != [] then c == indexed else IsSample(c, allSongs, Min(FALLBACK_SONGS_COUNT, |allSongs|))
  }

  /** `get_candidate_songs(message, collection, all_songs)` */
  method GetCandidateSongs(message: string, collection: Option<Collection>, allSongs: seq<Song>) returns (candidates: seq<Song>)
    ensures IsCandidateList(candidates, collection, message, allSongs)
  {
    candidates := [];
    if collection.Some? {
      var results := QueryHits(collection.value, message);
      if results.Some? {
        var hits := results.value;
        var i := 0;
        while i < |hits|
          invariant 0 <= i <= |hits|
          invariant candidates + DecodedSongs(hits[i..]) == DecodedSongs(hits)
        {
          assert hits[i..][1..] == hits[i + 1..];
          if hits[i].Undecodable? {
            // the decoding raised: the handler keeps what was appended so far
            break;
          }
          if hits[i].Payload? {
            candidates := candidates + [hits[i].song];
          }
          i := i + 1;
        }
        assert candidates == DecodedSongs(hits);
      }
    }
    if candidates == [] && allSongs != [] {
      var k := Min(FALLBACK_SONGS_COUNT, |allSongs|);
      candidates := Sample(allSongs, k);
    }
    if candidates == [] {
      assert |Pick(allSongs, [])| == 0;
      assert DistinctIndices([], |allSongs|);
    }
  }

  /** The candidates are either indexed hits (at most `CHROMA_QUERY_LIMIT`) or a
      fallback sample of at most `FALLBACK_SONGS_COUNT` songs of the corpus, each
      taken once; no hits and no corpus give no candidates. */
  lemma CandidateBounds(c: seq<Song>, collection: Option<Collection>, message: string, allSongs: seq<Song>)
    requires IsCandidateList(c, collection, message, allSongs)
    ensures |c| <= CHROMA_QUERY_LIMIT
    ensures IndexedCandidates(collection, message) == [] ==>
      |c| == Min(FALLBACK_SONGS_COUNT, |allSongs|) && forall i :: 0 <= i < |c| ==> c[i] in allSongs
    ensures IndexedCandidates(collection, message) == [] && allSongs == [] ==> c == []
  {
    if IndexedCandidates(collection, message) == [] {
      var pos :| |pos| == Min(FALLBACK_SONGS_COUNT, |allSongs|) && DistinctIndices(pos, |allSongs|) && c == Pick(allSongs, pos);
      forall i | 0 <= i < |c| ensures c[i] in allSongs {
        assert c[i] == allSongs[pos[i]];
      }
    }
  }

  /** When the first index entry already fails to decode, the index yields nothing and the
      fallback takes over. */
  lemma FailureFirstFallsBack(collection: Collection, message: string, rest: seq<Hit>)
    requires collection.search(message) == Some([Undecodable] + rest)
    ensures IndexedCandidates(Some(collection), message) == []
  {
    var hits := QueryHits(collection, message).value;
    assert hits[0] == Undecodable;
  }

  // ---------------------------------------------------------------------------
  // Profile context

  const PROFILE_HEADER: string := "【玩家實力與偏好設定】"
  const NAME_LABEL: string := "玩家名稱: "
  const LEVEL_LABEL: string := "最高段位: "
  const STAR_LABEL: string := "偏好星級: "
  const STYLE_LABEL: string := "打法偏好: "
  const DEFAULT_NAME: string := "玩家"
  const UNKNOWN: string := "未知"

  /** The defaults pass the sanitiser unchanged. */
  lemma DefaultsAreClean()
    ensures IsClean(DEFAULT_NAME, USER_NAME_MAX_LENGTH) && IsClean(UNKNOWN, USER_NAME_MAX_LENGTH)
  {
    assert !IsSpace(DEFAULT_NAME[0]) && !IsSpace(DEFAULT_NAME[1]);
    assert !IsSpace(UNKNOWN[0]) && !IsSpace(UNKNOWN[1]);
  }

  /** `sanitize_input(str(profile.get(key, default)), max_length=50)` */
  function ProfileField(p: Profile, key: string, default: string): (r: string)
    ensures |r| <= USER_NAME_MAX_LENGTH && '\n' !in r
  {
    SanitizeInput(if key in p then p[key] else default, USER_NAME_MAX_LENGTH)
  }

  /** A missing key shows its default; a stored value that is already clean shows as it is. */
  lemma ProfileFieldValue(p: Profile, key: string, default: string)
    ensures key !in p && IsClean(default, USER_NAME_MAX_LENGTH) ==> ProfileField(p, key, default) == default
    ensures key in p && IsClean(p[key], USER_NAME_MAX_LENGTH) ==> ProfileField(p, key, default) == p[key]
  {
    SanitizeFixedPoint(if key in p then p[key] else default, USER_NAME_MAX_LENGTH);
  }

  /** The four labelled lines of a non-empty profile. */
  function ProfileLines(p: Profile): (ls: seq<string>)
    ensures |ls| == 4
  {
    [ NAME_LABEL + ProfileField(p, "name", DEFAULT_NAME),
      LEVEL_LABEL + ProfileField(p, "level", UNKNOWN),
      STAR_LABEL + ProfileField(p, "star_pref", UNKNOWN),
      STYLE_LABEL + ProfileField(p, "style", UNKNOWN) ]
  }

  lemma LabelsUnbroken()
    ensures '\n' !in PROFILE_HEADER && '\n' !in NAME_LABEL && '\n' !in LEVEL_LABEL
    ensures '\n' !in STAR_LABEL && '\n' !in STYLE_LABEL
  {
    assert '\n' !in PROFILE_HEADER;
    assert '\n' !in NAME_LABEL;
    assert '\n' !in LEVEL_LABEL;
    assert '\n' !in STAR_LABEL;
    assert '\n' !in STYLE_LABEL;
  }

  lemma LabelledLinesUnbroken(name: string, level: string, star: string, style: string)
    requires '\n' !in name && '\n' !in level && '\n' !in star && '\n' !in style
    ensures Unbroken([PROFILE_HEADER] + [NAME_LABEL + name, LEVEL_LABEL + level, STAR_LABEL + star, STYLE_LABEL + style])
  {
    LabelsUnbroken();
    NoNewlineAppend(NAME_LABEL, name);
    NoNewlineAppend(LEVEL_LABEL, level);
    NoNewlineAppend(STAR_LABEL, star);
    NoNewlineAppend(STYLE_LABEL, style);
  }

  lemma ProfileLinesUnbroken(p: Profile)
    ensures Unbroken([PROFILE_HEADER] + ProfileLines(p))
  {
    var name, level := ProfileField(p, "name", DEFAULT_NAME), ProfileField(p, "level", UNKNOWN);
    var star, style := ProfileField(p, "star_pref", UNKNOWN), ProfileField(p, "style", UNKNOWN);
    LabelledLinesUnbroken(name, level, star, style);
  }

  /** `build_profile_context(profile)` */
  function BuildProfileContext(profile: Option<Profile>): (r: string)
    ensures r == "" <==> profile.None? || profile.value == map[]
  {
    if profile.None? || profile.value == map[] then ""
    else
      var r := Terminated([PROFILE_HEADER] + ProfileLines(profile.value));
      assert r[0] == PROFILE_HEADER[0];
      r
  }

  /** A non-empty profile gives the header, the four labelled lines (each value at most
      50 characters) and a final newline. */
  lemma ProfileContextLayout(p: Profile)
    requires p != map[]
    ensures Lines(BuildProfileContext(Some(p))) == [PROFILE_HEADER] + ProfileLines(p) + [""]
  {
    ProfileLinesUnbroken(p);
    LinesOfUnbrokenTerminated([PROFILE_HEADER] + ProfileLines(p));
  }

  // ---------------------------------------------------------------------------
  // History context

  const HISTORY_HEADER: string := "【之前的對話紀錄】"
  const PLAYER_LABEL: string := "玩家: "
  const ADVISOR_LABEL: string := "顧問: "

  /** `"玩家: " if msg.role == "user" else "顧問: "` */
  function RoleLabel(role: string): (r: string)
    ensures |r| == 4 && '\n' !in r
    ensures r == PLAYER_LABEL <==> role == "user"
  {
    if role == "user" then PLAYER_LABEL else ADVISOR_LABEL
  }

  /** `f"{role_name}{content}"` for one message. */
  function HistoryLine(m: Message): (r: string)
    ensures '\n' !in r
  {
    var content := SanitizeInput(m.content, CHAT_MESSAGE_MAX_LENGTH);
    NoNewlineAppend(RoleLabel(m.role), content);
    RoleLabel(m.role) + content
  }

  /** A history line is the role label followed by the content sanitised to at most 500
      characters. */
  lemma HistoryLineParts(m: Message)
    ensures var r := HistoryLine(m);
      && |r| <= 4 + CHAT_MESSAGE_MAX_LENGTH
      && r[..4] == RoleLabel(m.role)
      && r[4..] == SanitizeInput(m.content, CHAT_MESSAGE_MAX_LENGTH)
  {
    var roleName, content := RoleLabel(m.role), SanitizeInput(m.content, CHAT_MESSAGE_MAX_LENGTH);
    assert (roleName + content)[..4] == roleName;
    assert (roleName + content)[4..] == content;
  }

  function HistoryLines(history: seq<Message>): (ls: seq<string>)
    ensures |ls| == |history|
    ensures forall i :: 0 <= i < |history| ==> ls[i] == HistoryLine(history[i])
  {
    seq(|history|, i requires 0 <= i < |history| => HistoryLine(history[i]))
  }

  lemma HistoryLinesUnbroken(history: seq<Message>)
    ensures Unbroken([HISTORY_HEADER] + HistoryLines(history) + [""])
  {
    var ls := [HISTORY_HEADER] + HistoryLines(history) + [""];
    forall i | 0 <= i < |ls| ensures '\n' !in ls[i] {
      if 0 < i < |ls| - 1 {
        assert ls[i] == HistoryLine(history[i - 1]);
      }
    }
  }

  /** The text `build_history_context(history)` returns. */
  function HistoryContext(history: seq<Message>): (r: string)
    ensures r == "" <==> history == []
  {
    if history == [] then ""
    else
      var r := Terminated([HISTORY_HEADER] + HistoryLines(history) + [""]);
      assert r[0] == HISTORY_HEADER[0];
      r
  }

  lemma HistoryLinesSnoc(history: seq<Message>, i: nat)
    requires i < |history|
    ensures HistoryLines(history[..i + 1]) == HistoryLines(history[..i]) + [HistoryLine(history[i])]
  {
    var prefix, line := HistoryLines(history[..i]), HistoryLine(history[i]);
    var a, b := HistoryLines(history[..i + 1]), prefix + [line];
    assert |a| == |b|;
    forall j | 0 <= j < |a| ensures a[j] == b[j] {
      var m := history[..i + 1][j];
      assert a[j] == HistoryLine(m);
      if j < i {
        assert m == history[..i][j];
        assert b[j] == prefix[j] == HistoryLine(m);
      } else {
        assert m == history[i];
        assert b[j] == line;
      }
    }
  }

  /** Appending one message's line to the text built so far. */
  lemma HistoryStep(history: seq<Message>, i: nat)
    requires i < |history|
    ensures Terminated([HISTORY_HEADER] + HistoryLines(history[..i + 1]))
      == Terminated([HISTORY_HEADER] + HistoryLines(history[..i])) + HistoryLine(history[i]) + "\n"
  {
    var done, line := HistoryLines(history[..i]), HistoryLine(history[i]);
    HistoryLinesSnoc(history, i);
    AppendAssoc([HISTORY_HEADER], done, [line]);
    TerminatedAppend([HISTORY_HEADER] + done, line);
  }

  /** `build_history_context(history)` */
  method BuildHistoryContext(history: seq<Message>) returns (text: string)
    ensures text == HistoryContext(history)
  {
    if history == [] {
      return "";
    }
    text := HISTORY_HEADER + "\n";
    assert [HISTORY_HEADER] + HistoryLines(history[..0]) == [HISTORY_HEADER];
    var i := 0;
    while i < |history|
      invariant 0 <= i <= |history|
      invariant text == Terminated([HISTORY_HEADER] + HistoryLines(history[..i]))
    {
      HistoryStep(history, i);
      text := text + HistoryLine(history[i]) + "\n";
      i := i + 1;
    }
    assert history[..i] == history;
    TerminatedAppend([HISTORY_HEADER] + HistoryLines(history), "");
    text := text + "\n";
  }

  /** A non-empty history gives the header, one line per message in order, and an empty
      line before the final newline. */
  lemma HistoryContextLayout(history: seq<Message>)
    requires history != []
    ensures Lines(HistoryContext(history)) == [HISTORY_HEADER] + HistoryLines(history) + ["", ""]
  {
    HistoryLinesUnbroken(history);
    LinesOfUnbrokenTerminated([HISTORY_HEADER] + HistoryLines(history) + [""]);
  }

  // ---------------------------------------------------------------------------
  // Prompt

  const PERSONA: string := "你是一個專業、有耐心的「太鼓之達人」遊玩顧問。"
  const TASK: string := "請根據玩家的需求，從以下的【候選歌曲資料庫】中挑選出最適合的歌曲來推薦。"
  /** The eight rules: chit-chat, requested difficulty only, use the profile, use the
      history, at most three songs, layout without emoji, database songs only,
      Traditional Chinese. */
  const RULES: seq<string> := [
    "- 如果玩家只是閒聊，請普通地回應他。",
    "- 如果推薦的要求帶有難度要求，輸出時請直接輸出該難度的資訊，不要輸出其他難度的資訊。",
    "- 若【玩家實力與偏好設定】有資料，請在推薦歌曲時，務必將這些偏好納入考量，挑選符合他實力與打法的歌曲。",
    "- 請記得參考【之前的對話紀錄】(如果有)，接續之前的脈絡進行回覆。",
    "- 推薦的歌曲以3首為上限。",
    "- 如果是要求推薦，請將推薦出來的歌曲以漂亮地排版，包含曲名(使用橙色標記)、歌曲類別、難度&星級()、BPM。不要使用任何表情符號。",
    "- 務必只能推薦存在於資料庫中的歌曲，如果資料庫中沒有完全匹配的，可以推薦最相近的歌曲，並委婉說明。",
    "- 務必使用繁體中文回應。"
  ]
  const SONGS_HEADER: string := "【候選歌曲資料庫】："
  const REQUEST_HEADER: string := "【玩家需求】："

  /** The lines of the prompt template with its four fields filled in: every template
      line is followed by a newline. */
  function PromptPieces(message: string, profileContext: string, historyContext: string, songsContext: string): (ps: seq<string>)
    ensures |ps| == 18
  {
    [PERSONA, TASK, profileContext, historyContext] + RULES
      + ["", SONGS_HEADER, songsContext, "", REQUEST_HEADER, message]
  }

  /** `build_chat_prompt(message, profile_context, history_context, songs_context)` */
  function BuildChatPrompt(message: string, profileContext: string, historyContext: string, songsContext: string): (prompt: string)
  {
    Terminated(PromptPieces(message, profileContext, historyContext, songsContext))
  }

  /** The short headers hold no newline. */
  lemma HeadersUnbroken()
    ensures Unbroken(["", SONGS_HEADER]) && Unbroken(["", REQUEST_HEADER])
  {
    assert '\n' !in SONGS_HEADER;
    assert '\n' !in REQUEST_HEADER;
    EmptyThen("", SONGS_HEADER);
    EmptyThen("", REQUEST_HEADER);
  }

  lemma EmptyThen(e: string, h: string)
    requires e == "" && '\n' !in h
    ensures Unbroken([e, h])
  {
  }

  /** `Terminated` of a two-piece tail. */
  lemma TerminatedPair(a: string, b: string)
    ensures Terminated([a, b]) == a + "\n" + b + "\n"
  {
    assert [a, b][1..] == [b];
    assert [b][1..] == [];
    assert Terminated([b]) == b + "\n";
    AppendAssoc(a + "\n", b, "\n");
  }

  /** The prompt ends with the request header, the message and a newline. */
  lemma ChatPromptEndsWithRequest(message: string, profileContext: string, historyContext: string, songsContext: string)
    ensures var prompt := BuildChatPrompt(message, profileContext, historyContext, songsContext);
      var tail := REQUEST_HEADER + "\n" + message + "\n";
      |prompt| >= |tail| && prompt[|prompt| - |tail|..] == tail
  {
    var ps := PromptPieces(message, profileContext, historyContext, songsContext);
    var head := ps[..16];
    assert ps == head + [REQUEST_HEADER, message];
    TerminatedConcat(head, [REQUEST_HEADER, message]);
    TerminatedPair(REQUEST_HEADER, message);
    var tail := REQUEST_HEADER + "\n" + message + "\n";
    assert Terminated(ps) == Terminated(head) + tail;
  }

  /** The prompt's lines: those of the persona and task lines, of the profile block, of
      the history block and of the eight rules, then an empty line, the candidate header,
      the lines of the candidate block, an empty line, the request header and the lines of
      the message, in this order, with the final newline giving a last empty line. */
  lemma ChatPromptLayout(message: string, profileContext: string, historyContext: string, songsContext: string)
    ensures Lines(BuildChatPrompt(message, profileContext, historyContext, songsContext)) ==
      LinesAll([PERSONA, TASK]) + Lines(profileContext) + Lines(historyContext) + LinesAll(RULES)
      + ["", SONGS_HEADER] + Lines(songsContext) + ["", REQUEST_HEADER] + Lines(message) + [""]
  {
    var ps := PromptPieces(message, profileContext, historyContext, songsContext);
    var a, b, c := [PERSONA, TASK], ["", SONGS_HEADER], ["", REQUEST_HEADER];
    PromptPiecesSplit(ps, a, b, c, message, profileContext, historyContext, songsContext);
    LinesOfTerminated(ps, "");
    assert Terminated(ps) + "" == Terminated(ps);
    OneLine("");
    HeadersUnbroken();
    LinesAllUnbroken(b);
    LinesAllUnbroken(c);
    LinesAllSplit(a, profileContext, historyContext, RULES, b, songsContext, c, message);
  }

  lemma PromptPiecesSplit(ps: seq<string>, a: seq<string>, b: seq<string>, c: seq<string>,
                          message: string, profileContext: string, historyContext: string, songsContext: string)
    requires ps == PromptPieces(message, profileContext, historyContext, songsContext)
    requires a == [PERSONA, TASK] && b == ["", SONGS_HEADER] && c == ["", REQUEST_HEADER]
    ensures ps == a + [profileContext] + [historyContext] + RULES + b + [songsContext] + c + [message]
  {
  }

  /** `LinesAll` over the prompt's eight parts. */
  lemma LinesAllSplit(a: seq<string>, p: string, h: string, rules: seq<string>, b: seq<string>, s: string, c: seq<string>, m: string)
    ensures LinesAll(a + [p] + [h] + rules + b + [s] + c + [m])
      == LinesAll(a) + Lines(p) + Lines(h) + LinesAll(rules) + LinesAll(b) + Lines(s) + LinesAll(c) + Lines(m)
  {
    LinesAllOne(p);
    LinesAllOne(h);
    LinesAllOne(s);
    LinesAllOne(m);
    LinesAllAppend(a + [p] + [h] + rules + b + [s] + c, [m]);
    LinesAllAppend(a + [p] + [h] + rules + b + [s], c);
    LinesAllAppend(a + [p] + [h] + rules + b, [s]);
    LinesAllAppend(a + [p] + [h] + rules, b);
    LinesAllAppend(a + [p] + [h], rules);
    LinesAllAppend(a + [p], [h]);
    LinesAllAppend(a, [p]);
  }

  /** A sanitised request message is the prompt's second-to-last line, right after the
      request header. */
  lemma ChatPromptLastLines(message: string, profileContext: string, historyContext: string, songsContext: string)
    requires '\n' !in message
    ensures var ls := Lines(BuildChatPrompt(message, profileContext, historyContext, songsContext));
      |ls| >= 3 && ls[|ls| - 3..] == [REQUEST_HEADER, message, ""]
  {
    ChatPromptLayout(message, profileContext, historyContext, songsContext);
    OneLine(message);
    var before := LinesAll([PERSONA, TASK]) + Lines(profileContext) + Lines(historyContext) + LinesAll(RULES)
      + ["", SONGS_HEADER] + Lines(songsContext);
    EndsWithRequest(before, REQUEST_HEADER, message);
  }

  lemma EndsWithRequest(before: seq<string>, header: string, message: string)
    ensures var ls := before + ["", header] + [message] + [""];
      |ls| >= 3 && ls[|ls| - 3..] == [header, message, ""]
  {
  }
}
