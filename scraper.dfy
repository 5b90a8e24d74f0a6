/** scraper.py: the entries `scrape_taiko_wiki` builds from the cells of each category's
    song table, and the merge by title of `merge_and_save`. */
module Scraper {
  import opened Optional
  import opened PyStr
  import opened Catalogue

  /** The wiki's categories, in the order they are scraped. */
  const CATEGORIES: seq<string> :=
    ["ポップス", "キッズ", "アニメ", "ボーカロイド™曲", "ゲームミュージック", "バラエティ", "クラシック", "ナムコオリジナル", "段位道場課題曲"]

  /** `category_prefixes`, category by category. */
  const PREFIXES: seq<int> := [100000, 200000, 300000, 400000, 500000, 600000, 700000, 800000, 900000]

  const HEADER_TITLE: string := "曲名"
  const INNER_SUFFIX: string := " (Inner Oni)"

  /** A table with fewer rows is not the song table. */
  const MIN_TABLE_ROWS: nat := 5
  /** A row with fewer cells is not a song. */
  const MIN_ROW_CELLS: nat := 5

  const TITLE_CELL: nat := 2
  const BPM_CELL: nat := 3
  const ONI_CELL: nat := 7
  const URA_CELL: nat := 8

  /** What the code reads from a table cell: its `stripped_strings`, its
      `get_text(strip=True)`, and the address its first link resolves to against the
      category page. */
  datatype Cell = Cell(strings: seq<string>, text: string, link: Option<string>)

  type Row = seq<Cell>

  // ---------------------------------------------------------------------------
  // Cell contents

  /** The value of the digit run that starts `s`. */
  function LeadingValue(s: string): nat {
    DigitsValue(s[..DigitRun(s)])
  }

  /** `re.search(r'(?:★[×x]?)?(\d+)', s)`, as the integer of group 1. The search takes
      the leftmost position where a match starts. */
  function StarNumber(s: string): Option<nat>
    decreases |s|
  {
    if s == [] then None
    else if IsAsciiDigit(s[0]) then Some(LeadingValue(s))
    else if s[0] == '★' && |s| > 1 && IsAsciiDigit(s[1]) then Some(LeadingValue(s[1..]))
    else if s[0] == '★' && |s| > 2 && (s[1] == '×' || s[1] == 'x') && IsAsciiDigit(s[2]) then Some(LeadingValue(s[2..]))
    else StarNumber(s[1..])
  }

  /** The first run of digits in `s`, read as an integer. */
  function FirstNumber(s: string): Option<nat>
    decreases |s|
  {
    if s == [] then None
    else if IsAsciiDigit(s[0]) then Some(LeadingValue(s))
    else FirstNumber(s[1..])
  }

  /** Some character of `s` is a decimal digit. */
  predicate HasDigit(s: string)
    decreases |s|
  {
    s != [] && (IsAsciiDigit(s[0]) || HasDigit(s[1..]))
  }

  /** The optional star prefix of the pattern never changes the captured number: it is
      always the first run of digits. */
  lemma {:induction false} StarPrefixIgnored(s: string)
    ensures StarNumber(s) == FirstNumber(s)
    decreases |s|
  {
    if s != [] && !IsAsciiDigit(s[0]) {
      StarPrefixIgnored(s[1..]);
      if s[0] == '★' && |s| > 1 && IsAsciiDigit(s[1]) {
        assert FirstNumber(s[1..]) == Some(LeadingValue(s[1..]));
      } else if s[0] == '★' && |s| > 2 && (s[1] == '×' || s[1] == 'x') && IsAsciiDigit(s[2]) {
        assert s[1..][1..] == s[2..];
        assert FirstNumber(s[1..]) == FirstNumber(s[2..]);
      }
    }
  }

  /** The pattern matches exactly when a digit is present. */
  lemma {:induction false} FirstNumberIffDigit(s: string)
    ensures FirstNumber(s).Some? <==> HasDigit(s)
    decreases |s|
  {
    if s != [] && !IsAsciiDigit(s[0]) {
      FirstNumberIffDigit(s[1..]);
    }
  }

  /** `str(title_cell_strings[0])`, or `""`. */
  function TitleOf(c: Cell): string {
    if |c.strings| > 0 then c.strings[0] else ""
  }

  /** The remaining strings of the title cell, joined by blanks. */
  function SubtitleOf(c: Cell): string {
    if |c.strings| > 1 then Join(" ", c.strings[1..]) else ""
  }

  function LinkOf(c: Cell): string {
    if c.link.Some? then c.link.value else ""
  }

  /** Header rows, rows without a title, and limited-time songs are not entries. */
  predicate SkippedTitle(title: string, category: string) {
    title == "" || title == HEADER_TITLE || title == category || Contains(title, LIMITED)
  }

  /** The ura cell holds a chart: a star or a digit, and the pattern matches. */
  predicate HasUra(row: Row) {
    && |row| > URA_CELL
    && ('★' in row[URA_CELL].text || HasDigit(row[URA_CELL].text))
    && StarNumber(row[URA_CELL].text).Some?
  }

  function Description(category: string): string {
    "這是由系統自動爬取自 wikiwiki.jp 的 " + category + " 資料。"
  }

  function InnerDescription(category: string): string {
    "這是由系統自動爬取自 wikiwiki.jp 的 " + category + " (Inner Oni) 資料。"
  }

  // ---------------------------------------------------------------------------
  // `scrape_taiko_wiki`, over extracted cells

  /** The entries one table row yields, numbered from `nextId`: none, the Oni chart, or the
      Oni chart followed by its Inner Oni chart. */
  function RowSongs(category: string, row: Row, nextId: int): (r: seq<Song>)
    ensures |r| <= 2
    ensures forall j :: 0 <= j < |r| ==> r[j].id == nextId + j && r[j].genre == category
    ensures r == [] <==> |row| < MIN_ROW_CELLS || SkippedTitle(TitleOf(row[TITLE_CELL]), category)
    ensures |r| >= 1 ==> r[0].title == TitleOf(row[TITLE_CELL]) && r[0].features == []
    ensures |r| == 2 <==> r != [] && |row| > URA_CELL && HasDigit(row[URA_CELL].text)
    ensures |r| == 2 ==> r[1].title == r[0].title + INNER_SUFFIX && r[1].features == [INNER_ONI]
  {
    if |row| < MIN_ROW_CELLS || SkippedTitle(TitleOf(row[TITLE_CELL]), category) then []
    else
      UraIffDigit(row);
      if HasUra(row) then [OniEntry(category, row, nextId), UraEntry(category, row, nextId)]
      else [OniEntry(category, row, nextId)]
  }

  /** The Oni chart of a song row. */
  function OniEntry(category: string, row: Row, nextId: int): (s: Song)
    requires |row| >= MIN_ROW_CELLS
    ensures s.id == nextId && s.genre == category && s.title == TitleOf(row[TITLE_CELL]) && s.features == []
  {
    var oni := if |row| > ONI_CELL then (var m := StarNumber(row[ONI_CELL].text); if m.Some? then m.value else 0) else 0;
    var detailUrl := if |row| > ONI_CELL then LinkOf(row[ONI_CELL]) else "";
    Song(nextId, TitleOf(row[TITLE_CELL]), SubtitleOf(row[TITLE_CELL]), category, oni, Strip(row[BPM_CELL].text),
         detailUrl, [], Description(category), 0, None)
  }

  /** The Inner Oni chart of a song row, numbered after its Oni chart. */
  function UraEntry(category: string, row: Row, nextId: int): (s: Song)
    requires |row| >= MIN_ROW_CELLS && HasUra(row)
    ensures s.id == nextId + 1 && s.genre == category && s.title == TitleOf(row[TITLE_CELL]) + INNER_SUFFIX
    ensures s.features == [INNER_ONI]
  {
    var ura := row[URA_CELL];
    Song(nextId + 1, TitleOf(row[TITLE_CELL]) + INNER_SUFFIX, SubtitleOf(row[TITLE_CELL]), category,
         StarNumber(ura.text).value, Strip(row[BPM_CELL].text), LinkOf(ura), [INNER_ONI], InnerDescription(category), 0, None)
  }

  /** The ura cell holds a chart exactly when it holds a digit. */
  lemma UraIffDigit(row: Row)
    ensures HasUra(row) <==> |row| > URA_CELL && HasDigit(row[URA_CELL].text)
  {
    if |row| > URA_CELL {
      StarPrefixIgnored(row[URA_CELL].text);
      FirstNumberIffDigit(row[URA_CELL].text);
    }
  }

  /** Songs numbered one after another from `start`, each tagged with `category`. */
  ghost predicate NumberedFrom(s: seq<Song>, start: int, category: string) {
    forall j :: 0 <= j < |s| ==> s[j].id == start + j && s[j].genre == category
  }

  /** The entries `rows` yield when every row numbers its own entries from the id after
      the last one so far, starting at `start`. */
  function Numbered(entries: (Row, int) -> seq<Song>, start: int, rows: seq<Row>): seq<Song>
    decreases |rows|
  {
    if rows == [] then []
    else
      var prev := Numbered(entries, start, rows[..|rows| - 1]);
      prev + entries(rows[|rows| - 1], start + |prev|)
  }

  lemma {:induction false} NumberedStep(entries: (Row, int) -> seq<Song>, start: int, rows: seq<Row>, i: nat)
    requires i < |rows|
    ensures var prev := Numbered(entries, start, rows[..i]);
      Numbered(entries, start, rows[..i + 1]) == prev + entries(rows[i], start + |prev|)
  {
    var upto := rows[..i + 1];
    assert upto[..|upto| - 1] == rows[..i];
    assert upto[|upto| - 1] == rows[i];
  }

  lemma NumberedAppend(entries: (Row, int) -> seq<Song>, start: int, rows: seq<Row>, i: nat, songs: seq<Song>, n: int,
                        more: seq<Song>)
    requires i < |rows|
    requires songs == Numbered(entries, start, rows[..i])
    requires n == start + |songs|
    requires more == entries(rows[i], n)
    ensures songs + more == Numbered(entries, start, rows[..i + 1])
  {
    NumberedStep(entries, start, rows, i);
  }

  /** Rows that number their own entries consecutively give consecutive ids overall. */
  lemma {:induction false} NumberedIds(entries: (Row, int) -> seq<Song>, start: int, rows: seq<Row>, category: string)
    requires forall row, n :: NumberedFrom(entries(row, n), n, category)
    ensures NumberedFrom(Numbered(entries, start, rows), start, category)
    decreases |rows|
  {
    if rows != [] {
      var prev := Numbered(entries, start, rows[..|rows| - 1]);
      NumberedIds(entries, start, rows[..|rows| - 1], category);
      var more := entries(rows[|rows| - 1], start + |prev|);
      assert NumberedFrom(more, start + |prev|, category);
      var r := prev + more;
      forall j | 0 <= j < |r| ensures r[j].id == start + j && r[j].genre == category {
        if j >= |prev| {
          assert r[j] == more[j - |prev|];
        }
      }
    }
  }

  /** `RowSongs` of one category, as a function of the row and its first id. */
  function RowEntries(category: string): (Row, int) -> seq<Song> {
    (row, n) => RowSongs(category, row, n)
  }

  lemma RowEntriesAre(category: string, row: Row, n: int, more: seq<Song>)
    requires more == RowSongs(category, row, n)
    ensures more == RowEntries(category)(row, n)
  {
  }

  /** The entries of a category's data rows, numbered from `prefix + 1`. */
  function CategorySongs(category: string, prefix: int, rows: seq<Row>): (r: seq<Song>)
    ensures forall j :: 0 <= j < |r| ==> r[j].id == prefix + 1 + j && r[j].genre == category
  {
    NumberedIds(RowEntries(category), prefix + 1, rows, category);
    Numbered(RowEntries(category), prefix + 1, rows)
  }

  /** Every Inner Oni entry directly follows the entry of the same song's Oni chart. */
  ghost predicate InnerFollowsBase(s: seq<Song>) {
    forall j :: 0 <= j < |s| && s[j].features == [INNER_ONI] ==>
      j > 0 && s[j - 1].features == [] && s[j].title == s[j - 1].title + INNER_SUFFIX
  }

  lemma {:induction false} NumberedInnerFollows(entries: (Row, int) -> seq<Song>, start: int, rows: seq<Row>)
    requires forall row, n :: InnerFollowsBase(entries(row, n))
    ensures InnerFollowsBase(Numbered(entries, start, rows))
    decreases |rows|
  {
    if rows != [] {
      var prev := Numbered(entries, start, rows[..|rows| - 1]);
      NumberedInnerFollows(entries, start, rows[..|rows| - 1]);
      var more := entries(rows[|rows| - 1], start + |prev|);
      assert InnerFollowsBase(more);
      var r := prev + more;
      forall j | 0 <= j < |r| && r[j].features == [INNER_ONI]
        ensures j > 0 && r[j - 1].features == [] && r[j].title == r[j - 1].title + INNER_SUFFIX
      {
        if j >= |prev| {
          var k := j - |prev|;
          assert r[j] == more[k];
          assert k > 0 && r[j - 1] == more[k - 1];
        }
      }
    }
  }

  /** In a category's entries, an Inner Oni chart always comes right after the Oni chart
      of the same song, whose title it extends. */
  lemma InnerOniFollowsBase(category: string, prefix: int, rows: seq<Row>)
    ensures InnerFollowsBase(CategorySongs(category, prefix, rows))
  {
    forall row, n ensures InnerFollowsBase(RowEntries(category)(row, n)) {
      var r := RowSongs(category, row, n);
      assert RowEntries(category)(row, n) == r;
    }
    NumberedInnerFollows(RowEntries(category), prefix + 1, rows);
  }

  /** A category page: nothing when it could not be fetched or has no song table, else
      the entries of its table's rows after the two header rows. */
  function PageSongs(category: string, prefix: int, page: Option<seq<Row>>): (r: seq<Song>)
    ensures forall j :: 0 <= j < |r| ==> r[j].id == prefix + 1 + j
  {
    match page
    case None => []
    case Some(rows) => if |rows| < MIN_TABLE_ROWS then [] else CategorySongs(category, prefix, rows[2..])
  }

  /** The entries of the first `k` categories, in category order. */
  function WikiSongs(fetch: string -> Option<seq<Row>>, k: nat): seq<Song>
    requires k <= |CATEGORIES|
  {
    if k == 0 then []
    else WikiSongs(fetch, k - 1) + PageSongs(CATEGORIES[k - 1], PREFIXES[k - 1], fetch(CATEGORIES[k - 1]))
  }

  /** A row is skipped exactly when it is short, a header row or a limited-time song, and
      an Inner Oni entry follows exactly when the ura cell holds a digit. */
  lemma RowOutcomes(category: string, row: Row, nextId: int)
    requires |row| >= MIN_ROW_CELLS
    ensures TitleOf(row[TITLE_CELL]) == HEADER_TITLE ==> RowSongs(category, row, nextId) == []
    ensures Contains(TitleOf(row[TITLE_CELL]), LIMITED) ==> RowSongs(category, row, nextId) == []
    ensures !SkippedTitle(TitleOf(row[TITLE_CELL]), category) && |row| > URA_CELL && !HasDigit(row[URA_CELL].text) ==>
      |RowSongs(category, row, nextId)| == 1
  {
  }

  /** One category of `scrape_taiko_wiki`: its counter starts at 1 and moves on with
      every appended entry. */
  method ScrapeCategory(category: string, prefix: int, page: Option<seq<Row>>) returns (songs: seq<Song>)
    ensures songs == PageSongs(category, prefix, page)
  {
    songs := [];
    if page.None? || |page.value| < MIN_TABLE_ROWS {
      return;
    }
    songs := ScrapeRows(category, prefix, page.value[2..]);
  }

  /** The loop over a song table's data rows. */
  method ScrapeRows(category: string, prefix: int, rows: seq<Row>) returns (songs: seq<Song>)
    ensures songs == Numbered(RowEntries(category), prefix + 1, rows)
  {
    songs := [];
    var counter := 1;
    for i := 0 to |rows|
      invariant songs == Numbered(RowEntries(category), prefix + 1, rows[..i])
      invariant counter == 1 + |songs|
    {
      var row, nextId := rows[i], prefix + counter;
      var more := ScrapeRow(category, row, nextId);
      RowEntriesAre(category, row, nextId, more);
      NumberedAppend(RowEntries(category), prefix + 1, rows, i, songs, nextId, more);
      songs := songs + more;
      counter := counter + |more|;
    }
    assert rows[..|rows|] == rows;
  }

  /** The body of the row loop: the entries appended for one row. */
  method ScrapeRow(category: string, cols: Row, nextId: int) returns (more: seq<Song>)
    ensures more == RowSongs(category, cols, nextId)
  {
    more := [];
    if |cols| < MIN_ROW_CELLS {
      return;
    }
    var title := TitleOf(cols[TITLE_CELL]);
    var subtitle := SubtitleOf(cols[TITLE_CELL]);
    if title == "" || title == HEADER_TITLE || title == category || Contains(title, LIMITED) {
      return;
    }
    var bpm := Strip(cols[BPM_CELL].text);
    var oniStar, detailUrl := 0, "";
    if |cols| > ONI_CELL {
      var matchOni := StarNumber(cols[ONI_CELL].text);
      if matchOni.Some? {
        oniStar := matchOni.value;
      }
      detailUrl := LinkOf(cols[ONI_CELL]);
    }
    more := [Song(nextId, title, subtitle, category, oniStar, bpm, detailUrl, [], Description(category), 0, None)];
    if |cols| > URA_CELL {
      var uraText := cols[URA_CELL].text;
      StarPrefixIgnored(uraText);
      FirstNumberIffDigit(uraText);
      if '★' in uraText || HasDigit(uraText) {
        var matchUra := StarNumber(uraText);
        if matchUra.Some? {
          var uraSong := Song(nextId + 1, title + INNER_SUFFIX, subtitle, category, matchUra.value, bpm,
                              LinkOf(cols[URA_CELL]), [INNER_ONI], InnerDescription(category), 0, None);
          more := more + [uraSong];
        }
      }
    }
  }

  /** `scrape_taiko_wiki()`; `fetch` gives each category page's largest table, or `None`
      when the request fails. */
  method ScrapeWiki(fetch: string -> Option<seq<Row>>) returns (songs: seq<Song>)
    ensures songs == WikiSongs(fetch, |CATEGORIES|)
  {
    songs := [];
    for k := 0 to |CATEGORIES|
      invariant songs == WikiSongs(fetch, k)
    {
      var category := CATEGORIES[k];
      var more := ScrapeCategory(category, PREFIXES[k], fetch(category));
      songs := songs + more;
    }
  }

  // ---------------------------------------------------------------------------
  // `merge_and_save`, in memory

  /** `existing_dict`: titles in insertion order and the record under each. */
  datatype Index = Index(order: seq<string>, byTitle: map<string, Song>)

  /** Titles are unique, the keys are the ordered titles, and every record sits under its
      own non-empty, unlimited title. */
  ghost predicate IndexValid(ix: Index) {
    && Distinct(ix.order)
    && (forall t :: t in ix.byTitle <==> t in ix.order)
    && (forall t :: t in ix.byTitle ==> ix.byTitle[t].title == t && t != "" && !Contains(t, LIMITED))
  }

  /** `[s for s in existing_songs if "【限定】" not in s.get("title", "")]` */
  function DropLimited(songs: seq<Song>): (r: seq<Song>)
    ensures |r| <= |songs|
    ensures forall i :: 0 <= i < |r| ==> !Contains(r[i].title, LIMITED)
    ensures forall s :: s in r <==> s in songs && !Contains(s.title, LIMITED)
    decreases |songs|
  {
    if songs == [] then []
    else (if Contains(songs[0].title, LIMITED) then [] else [songs[0]]) + DropLimited(songs[1..])
  }

  /** The non-empty titles among `songs`. */
  ghost function Titles(songs: seq<Song>): set<string> {
    set i | 0 <= i < |songs| && songs[i].title != "" :: songs[i].title
  }

  lemma TitlesSnoc(songs: seq<Song>)
    requires songs != []
    ensures var s := songs[|songs| - 1];
      Titles(songs) == Titles(songs[..|songs| - 1]) + (if s.title != "" then {s.title} else {})
  {
    var init := songs[..|songs| - 1];
    forall t | t in Titles(songs) ensures t in Titles(init) || t == songs[|songs| - 1].title {
      var i :| 0 <= i < |songs| && songs[i].title != "" && songs[i].title == t;
      if i < |init| {
        assert init[i] == songs[i];
      }
    }
    forall t | t in Titles(init) ensures t in Titles(songs) {
      var i :| 0 <= i < |init| && init[i].title != "" && init[i].title == t;
      assert songs[i] == init[i];
    }
  }

  /** `existing_dict[s['title']] = s`, for a song with a title. */
  function Insert(ix: Index, s: Song): Index {
    if s.title == "" then ix
    else if s.title in ix.byTitle then Index(ix.order, ix.byTitle[s.title := s])
    else Index(ix.order + [s.title], ix.byTitle[s.title := s])
  }

  lemma InsertKeepsValid(ix: Index, s: Song)
    requires IndexValid(ix) && !Contains(s.title, LIMITED)
    ensures IndexValid(Insert(ix, s))
    ensures Insert(ix, s).byTitle.Keys == ix.byTitle.Keys + (if s.title != "" then {s.title} else {})
  {
    if s.title != "" && s.title !in ix.byTitle {
      var order := ix.order + [s.title];
      assert forall i :: 0 <= i < |ix.order| ==> order[i] == ix.order[i];
    }
  }

  /** `{s['title']: s for s in existing_songs if s.get('title')}`: a repeated title keeps
      its first position and its last record. */
  function IndexByTitle(songs: seq<Song>): (ix: Index)
    requires forall i :: 0 <= i < |songs| ==> !Contains(songs[i].title, LIMITED)
    ensures IndexValid(ix)
    ensures ix.byTitle.Keys == Titles(songs)
    decreases |songs|
  {
    if songs == [] then Index([], map[])
    else
      var init := songs[..|songs| - 1];
      assert forall i :: 0 <= i < |init| ==> init[i] == songs[i];
      var prev := IndexByTitle(init);
      TitlesSnoc(songs);
      InsertKeepsValid(prev, songs[|songs| - 1]);
      Insert(prev, songs[|songs| - 1])
  }

  /** A scraped song the merge looks at: it has a title and is not limited. */
  predicate Considered(ns: Song) {
    ns.title != "" && !Contains(ns.title, LIMITED)
  }

  function ConsideredCount(ns: seq<Song>): (n: nat)
    ensures n <= |ns|
  {
    if ns == [] then 0 else ConsideredCount(ns[..|ns| - 1]) + (if Considered(ns[|ns| - 1]) then 1 else 0)
  }

  /** The update of an existing record: BPM and difficulty, and the detail page when the
      scraped one is non-empty. */
  function Refreshed(ex: Song, ns: Song): Song {
    ex.(bpm := ns.bpm, oni := ns.oni, detailUrl := if ns.detailUrl != "" then ns.detailUrl else ex.detailUrl)
  }

  /** The merge state: the index and the two counters. */
  datatype Merge = Merge(ix: Index, added: nat, updated: nat)

  /** One iteration of the merge loop. */
  function MergeStep(m: Merge, ns: Song): Merge {
    if !Considered(ns) then m
    else if ns.title in m.ix.byTitle then
      Merge(Index(m.ix.order, m.ix.byTitle[ns.title := Refreshed(m.ix.byTitle[ns.title], ns)]), m.added, m.updated + 1)
    else Merge(Index(m.ix.order + [ns.title], m.ix.byTitle[ns.title := ns]), m.added + 1, m.updated)
  }

  /** Only the scraped attributes of a record change. */
  predicate Curated(before: Song, after: Song) {
    after == before.(bpm := after.bpm, oni := after.oni, detailUrl := after.detailUrl)
    && (before.detailUrl != "" ==> after.detailUrl != "")
  }

  lemma StepKeepsValid(m: Merge, ns: Song)
    ensures IndexValid(m.ix) ==> IndexValid(MergeStep(m, ns).ix)
  {
    if IndexValid(m.ix) && Considered(ns) && ns.title !in m.ix.byTitle {
      var order := m.ix.order + [ns.title];
      assert forall i :: 0 <= i < |m.ix.order| ==> order[i] == m.ix.order[i];
    }
  }

  /** The merge loop over the scraped songs. */
  function MergeAll(m: Merge, ns: seq<Song>): (r: Merge)
    ensures IndexValid(m.ix) ==> IndexValid(r.ix)
    ensures |m.ix.order| <= |r.ix.order| && r.ix.order[..|m.ix.order|] == m.ix.order
    ensures r.added + r.updated == m.added + m.updated + ConsideredCount(ns)
    ensures IndexValid(m.ix) ==> r.added == m.added + |r.ix.order| - |m.ix.order|
    ensures forall t :: t in m.ix.byTitle ==> t in r.ix.byTitle && Curated(m.ix.byTitle[t], r.ix.byTitle[t])
    decreases |ns|
  {
    if ns == [] then m
    else
      var prev := MergeAll(m, ns[..|ns| - 1]);
      StepKeepsValid(prev, ns[|ns| - 1]);
      var r := MergeStep(prev, ns[|ns| - 1]);
      assert r.ix.order[..|m.ix.order|] == prev.ix.order[..|m.ix.order|];
      r
  }

  /** The titles the merge adds, in the order they first appear among the scraped songs. */
  function Fresh(seen: seq<string>, ns: seq<Song>): seq<string>
    decreases |ns|
  {
    if ns == [] then []
    else if Considered(ns[0]) && ns[0].title !in seen then [ns[0].title] + Fresh(seen + [ns[0].title], ns[1..])
    else Fresh(seen, ns[1..])
  }

  lemma {:induction false} FreshSnoc(seen: seq<string>, a: seq<Song>, x: Song)
    ensures Fresh(seen, a + [x]) ==
      Fresh(seen, a) + (if Considered(x) && x.title !in seen + Fresh(seen, a) then [x.title] else [])
    decreases |a|
  {
    if a == [] {
      assert [] + [x] == [x];
      assert seen + [] == seen;
    } else {
      var y, rest := a[0], a[1..];
      assert (a + [x])[0] == y;
      assert (a + [x])[1..] == rest + [x];
      if Considered(y) && y.title !in seen {
        var seen' := seen + [y.title];
        FreshSnoc(seen', rest, x);
        AppendAssoc(seen, [y.title], Fresh(seen', rest));
        var tail: seq<string> := if Considered(x) && x.title !in seen' + Fresh(seen', rest) then [x.title] else [];
        AppendAssoc([y.title], Fresh(seen', rest), tail);
      } else {
        FreshSnoc(seen, rest, x);
      }
    }
  }

  /** The merged order: the existing titles in first-seen order, then the new titles in
      the order they were scraped. */
  lemma {:induction false} MergeOrder(m: Merge, ns: seq<Song>)
    requires IndexValid(m.ix)
    ensures MergeAll(m, ns).ix.order == m.ix.order + Fresh(m.ix.order, ns)
    decreases |ns|
  {
    if ns == [] {
      assert m.ix.order + [] == m.ix.order;
    } else {
      var init, x := ns[..|ns| - 1], ns[|ns| - 1];
      assert ns == init + [x];
      MergeOrder(m, init);
      FreshSnoc(m.ix.order, init, x);
      var prev := MergeAll(m, init);
      var tail: seq<string> := if Considered(x) && x.title !in prev.ix.order then [x.title] else [];
      AppendAssoc(m.ix.order, Fresh(m.ix.order, init), tail);
    }
  }

  /** `list(existing_dict.values())` */
  function Values(ix: Index): (r: seq<Song>)
    requires IndexValid(ix)
    ensures |r| == |ix.order|
    ensures forall i :: 0 <= i < |r| ==> r[i].title == ix.order[i]
  {
    seq(|ix.order|, i requires 0 <= i < |ix.order| => ix.byTitle[ix.order[i]])
  }

  /** The merged catalogue has unique, non-empty, unlimited titles. */
  lemma MergedTitles(existing: seq<Song>, newSongs: seq<Song>)
    ensures var start := IndexByTitle(DropLimited(existing));
      var r := Values(MergeAll(Merge(start, 0, 0), newSongs).ix);
      forall i, j :: 0 <= i < j < |r| ==> r[i].title != r[j].title
    ensures var start := IndexByTitle(DropLimited(existing));
      var r := Values(MergeAll(Merge(start, 0, 0), newSongs).ix);
      forall i :: 0 <= i < |r| ==> r[i].title != "" && !Contains(r[i].title, LIMITED)
  {
    var start := IndexByTitle(DropLimited(existing));
    var ix := MergeAll(Merge(start, 0, 0), newSongs).ix;
    forall i | 0 <= i < |ix.order| ensures ix.order[i] in ix.byTitle {
      assert ix.order[i] in ix.order;
    }
  }

  lemma {:induction false} MergeAllStep(m: Merge, ns: seq<Song>, i: nat)
    requires i < |ns|
    ensures MergeAll(m, ns[..i + 1]) == MergeStep(MergeAll(m, ns[..i]), ns[i])
  {
    assert ns[..i + 1][..i] == ns[..i];
  }

  /** The body of the merge loop for one scraped song. */
  method MergeOne(order: seq<string>, byTitle: map<string, Song>, added: nat, updated: nat, ns: Song)
    returns (order': seq<string>, byTitle': map<string, Song>, added': nat, updated': nat)
    ensures Merge(Index(order', byTitle'), added', updated') == MergeStep(Merge(Index(order, byTitle), added, updated), ns)
  {
    order', byTitle', added', updated' := order, byTitle, added, updated;
    if ns.title == "" || Contains(ns.title, LIMITED) {
      return;
    }
    if ns.title in byTitle {
      var ex := byTitle[ns.title];
      ex := ex.(bpm := ns.bpm, oni := ns.oni);
      if ns.detailUrl != "" {
        ex := ex.(detailUrl := ns.detailUrl);
      }
      byTitle' := byTitle[ns.title := ex];
      updated' := updated + 1;
    } else {
      byTitle' := byTitle[ns.title := ns];
      order' := order + [ns.title];
      added' := added + 1;
    }
  }

  /** `merge_and_save(new_songs)`, without the file I/O: the merged catalogue and the two counts. */
  method MergeSongs(existing: seq<Song>, newSongs: seq<Song>) returns (finalSongs: seq<Song>, added: nat, updated: nat)
    ensures var start := IndexByTitle(DropLimited(existing));
      var r := MergeAll(Merge(start, 0, 0), newSongs);
      finalSongs == Values(r.ix) && added == r.added && updated == r.updated
  {
    var kept := DropLimited(existing);
    var start := IndexByTitle(kept);
    var order, byTitle := start.order, start.byTitle;
    added, updated := 0, 0;
    for i := 0 to |newSongs|
      invariant Merge(Index(order, byTitle), added, updated) == MergeAll(Merge(start, 0, 0), newSongs[..i])
    {
      MergeAllStep(Merge(start, 0, 0), newSongs, i);
      order, byTitle, added, updated := MergeOne(order, byTitle, added, updated, newSongs[i]);
    }
    assert newSongs[..|newSongs|] == newSongs;
    finalSongs := Values(Index(order, byTitle));
  }
}
