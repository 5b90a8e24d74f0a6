/** generate_tags.py: the BPM speed tag, the parse of the model's tag list, and the
    per-song reset and merge of `features` that `main` performs. */
module GenerateTags {
  import opened Optional
  import opened PyStr
  import opened Catalogue

  const LOW_BPM: string := "低BPM"
  const NORMAL_BPM: string := "一般速度"
  const HIGH_BPM: string := "高BPM"
  const TOP_BPM: string := "超高BPM"

  const MANUAL: string := "人工處理"
  const API_ERROR: string := "API錯誤"

  /** Strategy texts shorter than this are tagged by hand instead of by the model. */
  const SHORT_TEXT: nat := 50

  /** At most this many model tags are kept. */
  const MAX_AI_TAGS: nat := 4

  // ---------------------------------------------------------------------------
  // Numbers in a BPM value: `re.findall(r"\d+(?:\.\d+)?", str(bpm_val))`

  function Pow10(n: nat): (p: nat)
    ensures p >= 1
  {
    if n == 0 then 1 else 10 * Pow10(n - 1)
  }

  /** The value of a digit run, as `float()` reads it exactly. */
  function RunValue(s: string, k: nat): real
    requires k <= |s| && forall i :: 0 <= i < k ==> IsAsciiDigit(s[i])
  {
    DigitsValue(s[..k]) as real
  }

  /** The number token that starts `s` (which starts with a digit): its length and value. */
  function NumberAt(s: string): (r: (nat, real))
    requires s != [] && IsAsciiDigit(s[0])
    ensures 1 <= r.0 <= |s|
  {
    var d := DigitRun(s);
    if d + 1 < |s| && s[d] == '.' && IsAsciiDigit(s[d + 1]) then
      var rest := s[d + 1..];
      var f := DigitRun(rest);
      (d + 1 + f, RunValue(s, d) + RunValue(rest, f) / Pow10(f) as real)
    else (d, RunValue(s, d))
  }

  /** The values of the numbers `re.findall` finds, left to right. */
  function NumberValues(s: string): (vs: seq<real>)
    decreases |s|
  {
    if s == [] then []
    else if !IsAsciiDigit(s[0]) then NumberValues(s[1..])
    else
      var (k, v) := NumberAt(s);
      [v] + NumberValues(s[k..])
  }

  /** A value holds a number exactly when it holds a decimal digit. */
  lemma {:induction false} NumbersIffDigit(s: string)
    ensures NumberValues(s) == [] <==> forall i :: 0 <= i < |s| ==> !IsAsciiDigit(s[i])
    decreases |s|
  {
    if s != [] && !IsAsciiDigit(s[0]) {
      NumbersIffDigit(s[1..]);
      assert forall i :: 1 <= i < |s| ==> s[i] == s[1..][i - 1];
    }
  }

  /** A bare run of digits is one number. */
  lemma OneNumber(w: string)
    requires w != [] && forall i :: 0 <= i < |w| ==> IsAsciiDigit(w[i])
    ensures NumberValues(w) == [DigitsValue(w) as real]
  {
    DigitRunOf(w, []);
    assert w + [] == w;
    assert w[..|w|] == w;
    assert w[|w|..] == [];
  }

  /** A digit run followed by a non-digit is read as that run, with no fraction. */
  lemma WholeNumberAt(w: string, t: string)
    requires w != [] && forall i :: 0 <= i < |w| ==> IsAsciiDigit(w[i])
    requires t != [] && !IsAsciiDigit(t[0]) && t[0] != '.'
    ensures NumberAt(w + t) == (|w|, DigitsValue(w) as real)
  {
    var s := w + t;
    DigitRunOf(w, t);
    assert s[|w|] == t[0];
    assert s[..|w|] == w;
  }

  lemma NumberStep(s: string)
    requires s != [] && IsAsciiDigit(s[0])
    ensures NumberValues(s) == [NumberAt(s).1] + NumberValues(s[NumberAt(s).0..])
  {
  }

  lemma SkipStep(s: string)
    requires s != [] && !IsAsciiDigit(s[0])
    ensures NumberValues(s) == NumberValues(s[1..])
  {
  }

  /** A leading whole number is read first, then the scan goes on after it. */
  lemma LeadingNumber(w: string, t: string)
    requires w != [] && forall i :: 0 <= i < |w| ==> IsAsciiDigit(w[i])
    requires t != [] && !IsAsciiDigit(t[0]) && t[0] != '.'
    ensures NumberValues(w + t) == [DigitsValue(w) as real] + NumberValues(t)
  {
    var s := w + t;
    WholeNumberAt(w, t);
    assert s[0] == w[0];
    NumberStep(s);
    assert s[|w|..] == t;
  }

  /** A separator before a run of digits is skipped. */
  lemma SeparatedNumber(c: char, w: string)
    requires !IsAsciiDigit(c)
    requires w != [] && forall i :: 0 <= i < |w| ==> IsAsciiDigit(w[i])
    ensures NumberValues([c] + w) == [DigitsValue(w) as real]
  {
    SkipStep([c] + w);
    assert ([c] + w)[1..] == w;
    OneNumber(w);
  }

  /** A range `a-b` of two digit runs is two numbers. */
  lemma RangeNumbers(a: string, b: string)
    requires a != [] && forall i :: 0 <= i < |a| ==> IsAsciiDigit(a[i])
    requires b != [] && forall i :: 0 <= i < |b| ==> IsAsciiDigit(b[i])
    ensures NumberValues(a + "-" + b) == [DigitsValue(a) as real, DigitsValue(b) as real]
  {
    var t := ['-'] + b;
    assert a + "-" + b == a + t;
    LeadingNumber(a, t);
    SeparatedNumber('-', b);
  }

  /** `max(float(n) for n in nums)` */
  function MaxOf(vs: seq<real>): (m: real)
    requires vs != []
    ensures m in vs
    ensures forall i :: 0 <= i < |vs| ==> vs[i] <= m
  {
    if |vs| == 1 then vs[0]
    else
      var rest := MaxOf(vs[1..]);
      assert forall i :: 1 <= i < |vs| ==> vs[i] == vs[1..][i - 1];
      if vs[0] >= rest then vs[0] else rest
  }

  // ---------------------------------------------------------------------------
  // `get_bpm_tag(bpm_val)`

  /** The speed band of a BPM. */
  function Classify(b: real): (tag: string)
    ensures tag == LOW_BPM <==> b < 160.0
    ensures tag == NORMAL_BPM <==> 160.0 <= b <= 220.0
    ensures tag == HIGH_BPM <==> 220.0 < b < 260.0
    ensures tag == TOP_BPM <==> b >= 260.0
  {
    if b < 160.0 then LOW_BPM
    else if 160.0 <= b <= 220.0 then NORMAL_BPM
    else if 220.0 < b < 260.0 then HIGH_BPM
    else TOP_BPM
  }

  /** The position of a band in the order slow to fast. */
  function Band(tag: string): nat {
    if tag == LOW_BPM then 0 else if tag == NORMAL_BPM then 1 else if tag == HIGH_BPM then 2 else 3
  }

  /** A faster song never gets a slower band. */
  lemma ClassifyMonotone(x: real, y: real)
    requires x <= y
    ensures Band(Classify(x)) <= Band(Classify(y))
  {
  }

  /** The tag of the largest number in the value, `None` when it holds none. */
  function BpmTag(bpm: string): (tag: Option<string>)
    ensures tag.None? <==> forall i :: 0 <= i < |bpm| ==> !IsAsciiDigit(bpm[i])
    ensures tag.Some? ==> tag.value in {LOW_BPM, NORMAL_BPM, HIGH_BPM, TOP_BPM}
  {
    var nums := NumberValues(bpm);
    NumbersIffDigit(bpm);
    if nums == [] then None else Some(Classify(MaxOf(nums)))
  }

  /** A range is classified by its upper end. */
  lemma RangeTakesLarger(a: string, b: string)
    requires a != [] && forall i :: 0 <= i < |a| ==> IsAsciiDigit(a[i])
    requires b != [] && forall i :: 0 <= i < |b| ==> IsAsciiDigit(b[i])
    ensures BpmTag(a + "-" + b) == Some(Classify(Max(DigitsValue(a), DigitsValue(b)) as real))
  {
    RangeNumbers(a, b);
    var vs := [DigitsValue(a) as real, DigitsValue(b) as real];
    assert vs[1..] == [DigitsValue(b) as real];
  }

  /** `"150-200"` is in the normal band, by its 200. */
  lemma RangeExample()
    ensures BpmTag("150-200") == Some(NORMAL_BPM)
  {
    RangeTakesLarger("150", "200");
    assert "150" + "-" + "200" == "150-200";
    assert DigitsValue("15") == 15;
    assert DigitsValue("150") == 150;
    assert DigitsValue("20") == 20;
    assert DigitsValue("200") == 200;
  }

  // ---------------------------------------------------------------------------
  // The tag list of `generate_ai_tags(strategy_text)`

  /** What the model call gives back: a failure, or a reply whose `text` may be missing. */
  datatype Reply = Failed | Replied(text: Option<string>)

  /** `f"{response.text}"`: a missing text renders as `"None"`. */
  function ReplyText(text: Option<string>): string {
    if text.Some? then text.value else "None"
  }

  /** `[t.strip() for t in pieces if t.strip()]` */
  function KeptTags(pieces: seq<string>): (tags: seq<string>)
    ensures |tags| <= |pieces|
    ensures forall i :: 0 <= i < |tags| ==> tags[i] != "" && Strip(tags[i]) == tags[i]
    decreases |pieces|
  {
    if pieces == [] then []
    else
      var t := Strip(pieces[0]);
      StripEdges(pieces[0]);
      StripKeeps(t);
      (if t != "" then [t] else []) + KeptTags(pieces[1..])
  }

  /** A tag as the parse leaves it: non-empty, no edge blanks, no comma. */
  predicate TagShaped(t: string) {
    t != "" && Strip(t) == t && ',' !in t
  }

  /** The tags `generate_ai_tags` returns for a reply. */
  function ParseTags(reply: Reply): (tags: seq<string>)
    ensures |tags| <= MAX_AI_TAGS
    ensures reply.Failed? ==> tags == [API_ERROR]
    ensures reply.Replied? ==> forall i :: 0 <= i < |tags| ==> TagShaped(tags[i])
  {
    match reply
    case Failed => [API_ERROR]
    case Replied(text) => TagsOf(ReplyText(text))
  }

  /** The tags read from the reply's text. */
  function TagsOf(out: string): (tags: seq<string>)
    ensures |tags| <= MAX_AI_TAGS
    ensures forall i :: 0 <= i < |tags| ==> TagShaped(tags[i])
  {
    var tagsStr := Strip(ReplaceChar(out, '，', ','));
    var pieces := SplitOn(tagsStr, ',');
    PiecesGiveShapedTags(pieces);
    FirstTags(KeptTags(pieces))
  }

  /** The kept pieces of a comma split, and so their first four, are shaped tags. */
  lemma PiecesGiveShapedTags(pieces: seq<string>)
    requires forall i :: 0 <= i < |pieces| ==> ',' !in pieces[i]
    ensures forall i :: 0 <= i < |FirstTags(KeptTags(pieces))| ==> TagShaped(FirstTags(KeptTags(pieces))[i])
  {
    var kept := KeptTags(pieces);
    KeptTagsFromPieces(pieces, ',');
    var tags := FirstTags(kept);
    forall i | 0 <= i < |tags| ensures TagShaped(tags[i]) {
      assert tags[i] == kept[i];
    }
  }

  /** Kept tags carry no character that none of the pieces carries. */
  lemma {:induction false} KeptTagsFromPieces(pieces: seq<string>, c: char)
    requires forall i :: 0 <= i < |pieces| ==> c !in pieces[i]
    ensures forall i :: 0 <= i < |KeptTags(pieces)| ==> c !in KeptTags(pieces)[i]
    decreases |pieces|
  {
    if pieces != [] {
      KeptTagsFromPieces(pieces[1..], c);
      StripChars(pieces[0]);
    }
  }

  /** A tag as the model should write it: non-empty, no edge blanks, no comma of either width. */
  predicate CleanTag(t: string) {
    t != "" && Strip(t) == t && ',' !in t && '，' !in t
  }

  /** Clean pieces are kept as they are. */
  lemma {:induction false} KeepsCleanTags(ts: seq<string>)
    requires forall i :: 0 <= i < |ts| ==> CleanTag(ts[i])
    ensures KeptTags(ts) == ts
    decreases |ts|
  {
    if ts != [] {
      KeepsCleanTags(ts[1..]);
      assert [ts[0]] + ts[1..] == ts;
    }
  }

  /** Clean tags joined by commas form a text the reply clean-up leaves alone. */
  lemma JoinedTagsUntouched(ts: seq<string>)
    requires ts != [] && forall i :: 0 <= i < |ts| ==> CleanTag(ts[i])
    ensures var j := Join(",", ts); Strip(ReplaceChar(j, '，', ',')) == j
  {
    var j := Join(",", ts);
    forall i | 0 <= i < |ts| ensures '，' !in ts[i] {
      assert CleanTag(ts[i]);
    }
    JoinAvoids(",", ts, '，');
    ReplaceAbsent(j, '，', ',');
    JoinedTagsEdges(ts);
  }

  lemma JoinedTagsEdges(ts: seq<string>)
    requires ts != [] && forall i :: 0 <= i < |ts| ==> CleanTag(ts[i])
    ensures Strip(Join(",", ts)) == Join(",", ts)
  {
    var first, last := ts[0], ts[|ts| - 1];
    assert CleanTag(first) && CleanTag(last);
    CleanEndsJoin(ts, first, last);
  }

  /** Only the first and the last tag decide whether the joined text has edge blanks. */
  lemma CleanEndsJoin(ts: seq<string>, first: string, last: string)
    requires ts != [] && first == ts[0] && last == ts[|ts| - 1]
    requires CleanTag(first) && CleanTag(last)
    ensures Strip(Join(",", ts)) == Join(",", ts)
  {
    CleanEdges(first);
    CleanEdges(last);
    JoinEdges(ts);
    StripKeeps(Join(",", ts));
  }

  /** Comma-joined pieces start like the first piece and end like the last. */
  lemma JoinEdges(ts: seq<string>)
    requires ts != [] && ts[0] != [] && ts[|ts| - 1] != []
    requires !IsSpace(ts[0][0]) && !IsSpace(ts[|ts| - 1][|ts[|ts| - 1]| - 1])
    ensures var j := Join(",", ts); j != [] && !IsSpace(j[0]) && !IsSpace(j[|j| - 1])
  {
    JoinLast(",", ts);
    JoinFirst(",", ts);
  }

  lemma CleanEdges(t: string)
    requires CleanTag(t)
    ensures !IsSpace(t[0]) && !IsSpace(t[|t| - 1])
  {
    StripEdges(t);
  }

  /** At most the first four kept tags. */
  function FirstTags(kept: seq<string>): (r: seq<string>)
    ensures |r| <= MAX_AI_TAGS && |r| <= |kept| && r == kept[..|r|]
    ensures |kept| <= MAX_AI_TAGS ==> r == kept
  {
    if |kept| <= MAX_AI_TAGS then kept else kept[..MAX_AI_TAGS]
  }

  lemma ParseReply(text: string)
    ensures ParseTags(Replied(Some(text))) == FirstTags(KeptTags(SplitOn(Strip(ReplaceChar(text, '，', ',')), ',')))
  {
    assert ReplyText(Some(text)) == text;
  }

  /** A comma-separated list of clean tags is read back as the list, cut to its first four. */
  lemma TagsRoundTrip(ts: seq<string>)
    requires forall i :: 0 <= i < |ts| ==> CleanTag(ts[i])
    ensures ParseTags(Replied(Some(Join(",", ts)))) == FirstTags(ts)
  {
    if ts == [] {
      EmptyReply();
    } else {
      var j := Join(",", ts);
      ParseReply(j);
      JoinedTagsUntouched(ts);
      var pieces := SplitOn(Strip(ReplaceChar(j, '，', ',')), ',');
      assert pieces == SplitOn(j, ',');
      JoinedTagsSplit(ts);
      KeepsCleanTags(ts);
      assert KeptTags(pieces) == ts;
    }
  }

  lemma JoinedTagsSplit(ts: seq<string>)
    requires ts != [] && forall i :: 0 <= i < |ts| ==> CleanTag(ts[i])
    ensures SplitOn(Join(",", ts), ',') == ts
  {
    forall i | 0 <= i < |ts| ensures ',' !in ts[i] {
      assert CleanTag(ts[i]);
    }
    SplitOnJoin(ts, ',');
  }

  /** An empty reply gives no tags. */
  lemma EmptyReply()
    ensures ParseTags(Replied(Some(""))) == []
  {
    ParseReply("");
    ReplaceAbsent("", '，', ',');
    assert SplitOn("", ',') == [""];
    assert KeptTags([""]) == [];
  }

  // ---------------------------------------------------------------------------
  // The features steps of `main`

  /** The two features a rerun keeps. */
  predicate Kept(f: string) { f == INNER_ONI || f == MANUAL }

  /** `[f for f in curr_features if f in ["Inner Oni", "人工處理"]]` */
  function ResetFeatures(fs: seq<string>): (r: seq<string>)
    ensures |r| <= |fs|
    ensures forall x :: x in r <==> x in fs && Kept(x)
    ensures Distinct(fs) ==> Distinct(r)
    decreases |fs|
  {
    if fs == [] then []
    else
      var rest := ResetFeatures(fs[1..]);
      if Kept(fs[0]) then
        assert Distinct(fs) ==> fs[0] !in fs[1..];
        [fs[0]] + rest
      else rest
  }

  /** The reset keeps the original order: it distributes over concatenation. */
  lemma {:induction false} ResetKeepsOrder(a: seq<string>, b: seq<string>)
    ensures ResetFeatures(a + b) == ResetFeatures(a) + ResetFeatures(b)
    decreases |a|
  {
    if a == [] {
      assert a + b == b;
    } else {
      var x, tail := a[0], a[1..];
      assert (a + b)[0] == x;
      assert (a + b)[1..] == tail + b;
      ResetKeepsOrder(tail, b);
      var head: seq<string> := if Kept(x) then [x] else [];
      assert ResetFeatures(a + b) == head + ResetFeatures(tail + b);
      assert ResetFeatures(a) == head + ResetFeatures(tail);
      AppendAssoc(head, ResetFeatures(tail), ResetFeatures(b));
    }
  }

  /** The short-text rule: `人工處理` is appended unless already there. */
  function MarkManual(fs: seq<string>): (r: seq<string>)
    ensures MANUAL in r
    ensures |fs| <= |r| <= |fs| + 1 && r[..|fs|] == fs
    ensures Distinct(fs) ==> Distinct(r)
  {
    if MANUAL in fs then fs else fs + [MANUAL]
  }

  /** The loop over the model's tags: each new one not equal to the BPM tag is appended. */
  function AddTags(fs: seq<string>, tags: seq<string>, bpmTag: Option<string>): (r: seq<string>)
    ensures |fs| <= |r| && r[..|fs|] == fs
    ensures forall x :: x in r <==> x in fs || (x in tags && bpmTag != Some(x))
    ensures Distinct(fs) ==> Distinct(r)
    decreases |tags|
  {
    if tags == [] then fs
    else
      var init, t := tags[..|tags| - 1], tags[|tags| - 1];
      assert tags == init + [t];
      var prev := AddTags(fs, init, bpmTag);
      if t !in prev && bpmTag != Some(t) then prev + [t] else prev
  }

  /** `bpm_tag` is truthy. */
  predicate Truthy(tag: Option<string>) { tag.Some? && tag.value != "" }

  /** The new feature list: the tags, then the BPM tag once. */
  function Merged(curr: seq<string>, tags: seq<string>, bpmTag: Option<string>): (r: seq<string>)
    ensures |curr| <= |r| && r[..|curr|] == curr
    ensures forall x :: x in r <==> x in curr || (x in tags && bpmTag != Some(x)) || (Truthy(bpmTag) && x == bpmTag.value)
    ensures Distinct(curr) ==> Distinct(r)
    ensures Truthy(bpmTag) && bpmTag.value !in curr ==> r[|r| - 1] == bpmTag.value
  {
    var fs := AddTags(curr, tags, bpmTag);
    if Truthy(bpmTag) && bpmTag.value !in fs then
      assert (fs + [bpmTag.value])[..|curr|] == fs[..|curr|];
      fs + [bpmTag.value]
    else fs
  }

  /** The merge loop of `main`. */
  method MergeFeatures(curr: seq<string>, tags: seq<string>, bpmTag: Option<string>) returns (features: seq<string>)
    ensures features == Merged(curr, tags, bpmTag)
  {
    features := curr;
    for i := 0 to |tags|
      invariant features == AddTags(curr, tags[..i], bpmTag)
    {
      assert tags[..i + 1][..i] == tags[..i];
      var t := tags[i];
      if t !in features && bpmTag != Some(t) {
        features := features + [t];
      }
    }
    assert tags[..|tags|] == tags;
    if bpmTag.Some? && bpmTag.value != "" && bpmTag.value !in features {
      features := features + [bpmTag.value];
    }
  }

  // ---------------------------------------------------------------------------
  // One song of `main`

  /** What `fetch_details(url)` returns: the max combo (0 when not found) and the strategy text. */
  type Fetch = string -> (int, string)

  /** The model call of `generate_ai_tags`, given the strategy text. */
  type Model = string -> Reply

  /** The detail page is fetched only for a song without strategy text or combo count. */
  predicate NeedsFetch(song: Song) {
    song.detailUrl != "" && (song.strategyText.None? || song.maxCombo == 0)
  }

  /** The fields the fetched details overwrite. */
  function WithDetails(song: Song, details: (int, string)): Song {
    song.(maxCombo := if details.0 > 0 then details.0 else song.maxCombo,
          strategyText := if details.1 != "" then Some(details.1) else song.strategyText)
  }

  /** The song once the fetch step of `main` has run: fetched only when it needs it. */
  function AfterFetch(song: Song, fetch: Fetch): (s: Song)
    ensures !NeedsFetch(song) ==> s == song
    ensures NeedsFetch(song) ==> s == WithDetails(song, fetch(song.detailUrl))
  {
    if NeedsFetch(song) then WithDetails(song, fetch(song.detailUrl)) else song
  }

  /** The song after one pass of `main` and whether it counts as changed. */
  function ProcessSong(song: Song, fetch: Fetch, model: Model): (r: (Song, bool))
    ensures r.0 == song.(features := r.0.features, maxCombo := r.0.maxCombo, strategyText := r.0.strategyText)
    ensures forall x :: x in song.features && Kept(x) ==> x in r.0.features
    ensures Distinct(song.features) ==> Distinct(r.0.features)
    ensures !r.1 ==> r.0 == song.(features := ResetFeatures(song.features))
    ensures song.strategyText.Some? ==> r.1 && r.0.strategyText.Some?
  {
    var curr := ResetFeatures(song.features);
    var fetched := NeedsFetch(song);
    var s := AfterFetch(song, fetch);
    match s.strategyText
    case None => (s.(features := curr), fetched)
    case Some(text) =>
      if |text| < SHORT_TEXT then (s.(features := MarkManual(curr)), true)
      else (s.(features := Merged(curr, ParseTags(model(text)), BpmTag(s.bpm))), true)
  }

  /** A song that already has its details is not fetched again. */
  lemma CompleteSongNotFetched(song: Song, fetch1: Fetch, fetch2: Fetch, model: Model)
    requires !NeedsFetch(song)
    ensures ProcessSong(song, fetch1, model) == ProcessSong(song, fetch2, model)
  {
  }

  /** A short strategy text, whether stored or just fetched, is marked for manual tagging
      and the model is not asked. */
  lemma ShortTextSkipsModel(song: Song, fetch: Fetch, model1: Model, model2: Model)
    requires AfterFetch(song, fetch).strategyText.Some?
    requires |AfterFetch(song, fetch).strategyText.value| < SHORT_TEXT
    ensures ProcessSong(song, fetch, model1) == ProcessSong(song, fetch, model2)
    ensures ProcessSong(song, fetch, model1).0.features == MarkManual(ResetFeatures(song.features))
  {
  }

  /** A failed model call on the strategy text, whether stored or just fetched, leaves the
      error tag among the features. */
  lemma FailedCallTagged(song: Song, fetch: Fetch, model: Model)
    requires AfterFetch(song, fetch).strategyText.Some?
    requires |AfterFetch(song, fetch).strategyText.value| >= SHORT_TEXT
    requires model(AfterFetch(song, fetch).strategyText.value) == Failed
    ensures API_ERROR in ProcessSong(song, fetch, model).0.features
  {
  }

  /** One iteration of the loop of `main`. */
  method TagSong(song: Song, fetch: Fetch, model: Model) returns (tagged: Song, changed: bool)
    ensures (tagged, changed) == ProcessSong(song, fetch, model)
  {
    changed := false;
    var currFeatures := ResetFeatures(song.features);
    tagged := song.(features := currFeatures);
    var needsFetch := tagged.strategyText.None? || tagged.maxCombo == 0;
    if tagged.detailUrl != "" && needsFetch {
      var (combo, strategy) := fetch(tagged.detailUrl);
      if combo > 0 {
        tagged := tagged.(maxCombo := combo);
      }
      if strategy != "" {
        tagged := tagged.(strategyText := Some(strategy));
      }
      changed := true;
    }
    if tagged.strategyText.Some? {
      var strategyText := tagged.strategyText.value;
      if |strategyText| < SHORT_TEXT {
        if MANUAL !in currFeatures {
          currFeatures := currFeatures + [MANUAL];
        }
        tagged := tagged.(features := currFeatures);
        changed := true;
      } else {
        var tags := ParseTags(model(strategyText));
        var bpmTag := BpmTag(tagged.bpm);
        var newFeatures := MergeFeatures(currFeatures, tags, bpmTag);
        tagged := tagged.(features := newFeatures);
        changed := true;
      }
    }
  }

  /** How many songs one pass of `main` changes. */
  function ChangedCount(songs: seq<Song>, fetch: Fetch, model: Model): (n: nat)
    ensures n <= |songs|
  {
    if songs == [] then 0
    else ChangedCount(songs[..|songs| - 1], fetch, model) + (if ProcessSong(songs[|songs| - 1], fetch, model).1 then 1 else 0)
  }

  /** The catalogue after one pass of `main`. */
  function TaggedSongs(songs: seq<Song>, fetch: Fetch, model: Model): (r: seq<Song>)
    ensures |r| == |songs|
    ensures forall i :: 0 <= i < |songs| ==> r[i] == ProcessSong(songs[i], fetch, model).0
  {
    if songs == [] then []
    else
      var n := |songs| - 1;
      var init := TaggedSongs(songs[..n], fetch, model);
      assert forall i :: 0 <= i < n ==> songs[..n][i] == songs[i];
      init + [ProcessSong(songs[n], fetch, model).0]
  }

  lemma PassStep(songs: seq<Song>, i: nat, fetch: Fetch, model: Model)
    requires i < |songs|
    ensures var r := ProcessSong(songs[i], fetch, model);
      && TaggedSongs(songs[..i + 1], fetch, model) == TaggedSongs(songs[..i], fetch, model) + [r.0]
      && ChangedCount(songs[..i + 1], fetch, model) == ChangedCount(songs[..i], fetch, model) + (if r.1 then 1 else 0)
  {
    assert songs[..i + 1][..i] == songs[..i];
  }

  /** `main`'s pass over the catalogue, without the periodic saves. */
  method TagSongs(songs: seq<Song>, fetch: Fetch, model: Model) returns (result: seq<Song>, updatedCount: nat)
    ensures result == TaggedSongs(songs, fetch, model)
    ensures updatedCount == ChangedCount(songs, fetch, model)
  {
    result, updatedCount := [], 0;
    for i := 0 to |songs|
      invariant result == TaggedSongs(songs[..i], fetch, model)
      invariant updatedCount == ChangedCount(songs[..i], fetch, model)
    {
      PassStep(songs, i, fetch, model);
      var tagged, changed := TagSong(songs[i], fetch, model);
      result := result + [tagged];
      if changed {
        updatedCount := updatedCount + 1;
      }
    }
    assert songs[..|songs|] == songs;
  }
}
