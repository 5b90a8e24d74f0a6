/** init_chroma.py: the id, document and metadata built for every catalogue song, and
    the batched upsert of those entries into the vector index. */
module InitChroma {
  import opened Optional
  import opened PyStr
  import opened Config
  import opened Catalogue
  import ChatService

  /** The metadata stored beside a document: the whole song serialised, and three fields. */
  datatype Metadata = Metadata(json: string, title: string, subtitle: string, genre: string)

  /** What the index keeps under one id. */
  datatype Entry = Entry(document: string, metadata: Metadata)

  const MAX_COMBO_LABEL: string := "最大連擊數 (Max Combo): "

  // ---------------------------------------------------------------------------
  // Per-song construction

  /** `str(song["id"])` */
  function EntryId(song: Song): string {
    IntToString(song.id)
  }

  /** The seven labelled lines every document has. */
  function BaseLines(song: Song): seq<string> {
    [ "曲名: " + song.title,
      "副標題/作者: " + song.subtitle,
      "類別: " + song.genre,
      "難度: 鬼級 " + IntToString(song.oni) + " 星",
      "BPM: " + song.bpm,
      "特色: " + Join(", ", song.features),
      "描述: " + song.description ]
  }

  /** The lines of `doc_text`: the Max Combo line only when `max_combo` is truthy. */
  function DocLines(song: Song): seq<string> {
    BaseLines(song) + (if song.maxCombo != 0 then [MAX_COMBO_LABEL + IntToString(song.maxCombo)] else [])
  }

  /** `doc_text`: the lines joined by newlines. */
  function Document(song: Song): string {
    Join("\n", DocLines(song))
  }

  /** `{"json": json.dumps(song), "title": ..., "subtitle": ..., "genre": ...}`; the
      serialiser is a parameter. */
  function MetadataOf(song: Song, dumps: Song -> string): Metadata {
    Metadata(dumps(song), song.title, song.subtitle, song.genre)
  }

  /** No field that goes into the document holds a newline. */
  predicate SingleLineFields(song: Song) {
    && '\n' !in song.title && '\n' !in song.subtitle && '\n' !in song.genre
    && '\n' !in song.bpm && '\n' !in song.description
    && forall i :: 0 <= i < |song.features| ==> '\n' !in song.features[i]
  }

  lemma LabelledLine(tag: string, value: string)
    requires '\n' !in tag && '\n' !in value
    ensures '\n' !in tag + value
  {
  }

  lemma NumberHasNoNewline(i: int)
    ensures '\n' !in IntToString(i)
  {
    var s := NatToString(if i < 0 then -i else i);
    assert forall k :: 0 <= k < |s| ==> IsAsciiDigit(s[k]);
    if i < 0 {
      assert IntToString(i) == "-" + s;
      assert forall k :: 1 <= k < |IntToString(i)| ==> IntToString(i)[k] == s[k - 1];
    }
  }

  lemma BaseLinesUnbroken(song: Song)
    requires SingleLineFields(song)
    ensures forall i :: 0 <= i < |BaseLines(song)| ==> '\n' !in BaseLines(song)[i]
  {
    NumberHasNoNewline(song.oni);
    JoinAvoids(", ", song.features, '\n');
    LabelledLine("曲名: ", song.title);
    LabelledLine("副標題/作者: ", song.subtitle);
    LabelledLine("類別: ", song.genre);
    LabelledLine("難度: 鬼級 " + IntToString(song.oni), " 星");
    LabelledLine("BPM: ", song.bpm);
    LabelledLine("特色: ", Join(", ", song.features));
    LabelledLine("描述: ", song.description);
  }

  /** No line of the document holds a newline of its own. */
  lemma DocLinesUnbroken(song: Song)
    requires SingleLineFields(song)
    ensures forall i :: 0 <= i < |DocLines(song)| ==> '\n' !in DocLines(song)[i]
  {
    BaseLinesUnbroken(song);
    NumberHasNoNewline(song.maxCombo);
    LabelledLine(MAX_COMBO_LABEL, IntToString(song.maxCombo));
  }

  /** The document reads back as its labelled lines: seven, and an eighth exactly when
      the song has a Max Combo. */
  lemma DocumentLayout(song: Song)
    requires SingleLineFields(song)
    ensures Lines(Document(song)) == DocLines(song)
    ensures |Lines(Document(song))| == 8 <==> song.maxCombo != 0
    ensures |Lines(Document(song))| == 7 <==> song.maxCombo == 0
    ensures Lines(Document(song))[..7] == BaseLines(song)
  {
    var ls := DocLines(song);
    DocLinesUnbroken(song);
    SplitOnJoin(ls, '\n');
    assert ls[..7] == BaseLines(song);
  }

  /** `str` of a natural number determines the number. */
  lemma {:induction false} NatToStringInjective(a: nat, b: nat)
    requires NatToString(a) == NatToString(b)
    ensures a == b
    decreases a
  {
    var sa, sb := NatToString(a), NatToString(b);
    if a >= 10 && b >= 10 {
      var ha, hb := NatToString(a / 10), NatToString(b / 10);
      assert sa == ha + [DigitChar(a % 10)] && sb == hb + [DigitChar(b % 10)];
      assert |ha| == |hb|;
      assert ha == sa[..|ha|] && hb == sb[..|hb|];
      assert DigitChar(a % 10) == sa[|ha|] == sb[|hb|] == DigitChar(b % 10);
      NatToStringInjective(a / 10, b / 10);
    }
  }

  /** Distinct song ids give distinct entry ids. */
  lemma IntToStringInjective(a: int, b: int)
    requires IntToString(a) == IntToString(b)
    ensures a == b
  {
    var na, nb := NatToString(if a < 0 then -a else a), NatToString(if b < 0 then -b else b);
    assert IsAsciiDigit(na[0]) && IsAsciiDigit(nb[0]);
    if a < 0 && b < 0 {
      assert IntToString(a)[1..] == na && IntToString(b)[1..] == nb;
      NatToStringInjective(-a, -b);
    } else if a >= 0 && b >= 0 {
      NatToStringInjective(a, b);
    }
  }

  /** The entry for each song, in catalogue order. */
  function IndexRecords(songs: seq<Song>, dumps: Song -> string): (r: seq<(string, Entry)>)
    ensures |r| == |songs|
    ensures forall k :: 0 <= k < |r| ==>
      r[k].0 == EntryId(songs[k]) && r[k].1 == Entry(Document(songs[k]), MetadataOf(songs[k], dumps))
  {
    seq(|songs|, k requires 0 <= k < |songs| => (EntryId(songs[k]), Entry(Document(songs[k]), MetadataOf(songs[k], dumps))))
  }

  /** Songs with distinct ids get distinct entry ids. */
  lemma DistinctEntryIds(songs: seq<Song>, dumps: Song -> string)
    requires forall i, j :: 0 <= i < j < |songs| ==> songs[i].id != songs[j].id
    ensures forall i, j :: 0 <= i < j < |songs| ==> IndexRecords(songs, dumps)[i].0 != IndexRecords(songs, dumps)[j].0
  {
    forall i, j | 0 <= i < j < |songs| ensures EntryId(songs[i]) != EntryId(songs[j]) {
      if EntryId(songs[i]) == EntryId(songs[j]) {
        IntToStringInjective(songs[i].id, songs[j].id);
      }
    }
  }

  /** The song loop of `init_chromadb`: ids, documents and metadata, in parallel. */
  method BuildEntries(songs: seq<Song>, dumps: Song -> string)
    returns (ids: seq<string>, documents: seq<string>, metadatas: seq<Metadata>)
    ensures |ids| == |songs| && |documents| == |songs| && |metadatas| == |songs|
    ensures forall k :: 0 <= k < |songs| ==>
      (ids[k], Entry(documents[k], metadatas[k])) == IndexRecords(songs, dumps)[k]
  {
    ids, documents, metadatas := [], [], [];
    for i := 0 to |songs|
      invariant |ids| == i && |documents| == i && |metadatas| == i
      invariant forall k :: 0 <= k < i ==>
        ids[k] == EntryId(songs[k]) && documents[k] == Document(songs[k]) && metadatas[k] == MetadataOf(songs[k], dumps)
    {
      var song := songs[i];
      ids := ids + [IntToString(song.id)];
      var docText := Document(song);
      documents := documents + [docText];
      metadatas := metadatas + [Metadata(dumps(song), song.title, song.subtitle, song.genre)];
    }
  }

  // ---------------------------------------------------------------------------
  // Batches

  /** `range(0, n, CHROMA_BATCH_SIZE)` with `end_idx = min(i + CHROMA_BATCH_SIZE, n)`:
      the half-open index ranges of the batches. */
  method Batches(n: nat) returns (bs: seq<(nat, nat)>)
    ensures CHROMA_BATCH_SIZE * |bs| >= n
    ensures bs != [] ==> CHROMA_BATCH_SIZE * (|bs| - 1) < n
    ensures forall k :: 0 <= k < |bs| ==>
      bs[k] == (CHROMA_BATCH_SIZE * k, Min(CHROMA_BATCH_SIZE * k + CHROMA_BATCH_SIZE, n))
  {
    bs := [];
    var i := 0;
    while i < n
      invariant i == CHROMA_BATCH_SIZE * |bs|
      invariant bs != [] ==> CHROMA_BATCH_SIZE * (|bs| - 1) < n
      invariant forall k :: 0 <= k < |bs| ==>
        bs[k] == (CHROMA_BATCH_SIZE * k, Min(CHROMA_BATCH_SIZE * k + CHROMA_BATCH_SIZE, n))
      decreases n - i
    {
      var endIdx := Min(i + CHROMA_BATCH_SIZE, n);
      bs := bs + [(i, endIdx)];
      i := i + CHROMA_BATCH_SIZE;
    }
  }

  /** The shape `Batches` promises. */
  ghost predicate BatchShaped(n: nat, bs: seq<(nat, nat)>) {
    && CHROMA_BATCH_SIZE * |bs| >= n
    && (bs != [] ==> CHROMA_BATCH_SIZE * (|bs| - 1) < n)
    && forall k :: 0 <= k < |bs| ==> bs[k] == (CHROMA_BATCH_SIZE * k, Min(CHROMA_BATCH_SIZE * k + CHROMA_BATCH_SIZE, n))
  }

  /** The batch that holds index `x`. */
  function BatchOf(x: nat): nat {
    x / CHROMA_BATCH_SIZE
  }

  /** The batches are non-empty, hold at most `CHROMA_BATCH_SIZE` indices each, follow
      one another without gap, and put every index below `n` in exactly one batch. */
  lemma BatchesPartition(n: nat, bs: seq<(nat, nat)>)
    requires BatchShaped(n, bs)
    ensures forall k :: 0 <= k < |bs| ==> bs[k].0 < bs[k].1 <= n && bs[k].1 - bs[k].0 <= CHROMA_BATCH_SIZE
    ensures |bs| > 0 <==> n > 0
    ensures bs != [] ==> bs[0].0 == 0 && bs[|bs| - 1].1 == n
    ensures forall k :: 0 <= k < |bs| - 1 ==> bs[k].1 == bs[k + 1].0
    ensures forall x :: 0 <= x < n ==> BatchOf(x) < |bs| && bs[BatchOf(x)].0 <= x < bs[BatchOf(x)].1
    ensures forall x: nat, k :: 0 <= k < |bs| && bs[k].0 <= x < bs[k].1 ==> k == BatchOf(x)
  {
    forall x: nat, k | 0 <= k < |bs| && bs[k].0 <= x < bs[k].1 ensures k == BatchOf(x) {
      assert CHROMA_BATCH_SIZE * k <= x < CHROMA_BATCH_SIZE * k + CHROMA_BATCH_SIZE;
    }
    forall x | 0 <= x < n ensures BatchOf(x) < |bs| && bs[BatchOf(x)].0 <= x < bs[BatchOf(x)].1 {
      var k := x / CHROMA_BATCH_SIZE;
      assert CHROMA_BATCH_SIZE * k <= x < CHROMA_BATCH_SIZE * k + CHROMA_BATCH_SIZE;
    }
  }

  // ---------------------------------------------------------------------------
  // The index

  /** The records of parallel id, document and metadata lists. */
  function Records(ids: seq<string>, documents: seq<string>, metadatas: seq<Metadata>): (r: seq<(string, Entry)>)
    requires |ids| == |documents| == |metadatas|
    ensures |r| == |ids|
  {
    seq(|ids|, k requires 0 <= k < |ids| => (ids[k], Entry(documents[k], metadatas[k])))
  }

  /** Upserting records one after another: a later record overwrites an earlier one with
      the same id. */
  function UpsertAll(m: map<string, Entry>, recs: seq<(string, Entry)>): (r: map<string, Entry>)
    ensures r.Keys == m.Keys + set e | e in recs :: e.0
    decreases |recs|
  {
    if recs == [] then m
    else
      var init, last := recs[..|recs| - 1], recs[|recs| - 1];
      var r := UpsertAll(m, init)[last.0 := last.1];
      assert recs == init + [last];
      r
  }

  /** Upserting in two batches is upserting everything at once. */
  lemma {:induction false} UpsertAllAppend(m: map<string, Entry>, a: seq<(string, Entry)>, b: seq<(string, Entry)>)
    ensures UpsertAll(UpsertAll(m, a), b) == UpsertAll(m, a + b)
    decreases |b|
  {
    if b == [] {
      assert a + b == a;
    } else {
      var init := b[..|b| - 1];
      UpsertAllAppend(m, a, init);
      assert (a + b)[..|a + b| - 1] == a + init;
      assert (a + b)[|a + b| - 1] == b[|b| - 1];
    }
  }

  /** The entry under an upserted id is the last record with that id. */
  lemma {:induction false} UpsertAllLast(m: map<string, Entry>, recs: seq<(string, Entry)>, k: nat)
    requires k < |recs|
    requires forall j :: k < j < |recs| ==> recs[j].0 != recs[k].0
    ensures recs[k].0 in UpsertAll(m, recs) && UpsertAll(m, recs)[recs[k].0] == recs[k].1
    decreases |recs|
  {
    if k < |recs| - 1 {
      var init := recs[..|recs| - 1];
      assert init[k] == recs[k];
      UpsertAllLast(m, init, k);
    }
  }

  /** The vector index collection, by id. Embeddings are not modelled. */
  class IndexStore {
    var entries: map<string, Entry>

    constructor()
      ensures entries == map[]
    {
      entries := map[];
    }

    /** `collection.upsert(ids=..., documents=..., metadatas=...)`: the collection refuses
        a call whose ids repeat (it raises `DuplicateIDError`) and then writes nothing. */
    method Upsert(ids: seq<string>, documents: seq<string>, metadatas: seq<Metadata>) returns (ok: bool)
      requires |ids| == |documents| == |metadatas|
      modifies this
      ensures ok <==> Distinct(ids)
      ensures ok ==> entries == UpsertAll(old(entries), Records(ids, documents, metadatas))
      ensures !ok ==> entries == old(entries)
    {
      if !Distinct(ids) {
        return false;
      }
      entries := UpsertAll(entries, Records(ids, documents, metadatas));
      ok := true;
    }
  }

  /** The ids of batch `k`: `ids[i:end_idx]` with `i = CHROMA_BATCH_SIZE * k`. */
  function BatchIds(ids: seq<string>, k: nat): (b: seq<string>)
    requires CHROMA_BATCH_SIZE * k <= |ids|
    ensures |b| <= CHROMA_BATCH_SIZE && CHROMA_BATCH_SIZE * k + |b| <= |ids|
    ensures CHROMA_BATCH_SIZE * k < |ids| ==> |b| > 0
    ensures forall x :: 0 <= x < |b| ==> b[x] == ids[CHROMA_BATCH_SIZE * k + x]
  {
    ids[CHROMA_BATCH_SIZE * k..Min(CHROMA_BATCH_SIZE * k + CHROMA_BATCH_SIZE, |ids|)]
  }

  /** No batch repeats an id, so the collection accepts every call of the batch loop. */
  ghost predicate AllBatchesDistinct(ids: seq<string>) {
    forall k: nat :: CHROMA_BATCH_SIZE * k < |ids| ==> Distinct(BatchIds(ids, k))
  }

  /** The first `k` batches repeat no id. */
  ghost predicate DistinctUpTo(ids: seq<string>, k: nat) {
    forall j: nat :: j < k && CHROMA_BATCH_SIZE * j < |ids| ==> Distinct(BatchIds(ids, j))
  }

  lemma DistinctUpToStep(ids: seq<string>, k: nat)
    requires DistinctUpTo(ids, k) && CHROMA_BATCH_SIZE * k < |ids| && Distinct(BatchIds(ids, k))
    ensures DistinctUpTo(ids, k + 1)
  {
  }

  /** Where the batch loop ends: all batches accepted once `k` covers the ids, and the
      batch loop refused at batch `k` otherwise. */
  lemma DistinctUpToEnd(ids: seq<string>, k: nat)
    requires DistinctUpTo(ids, k)
    ensures |ids| <= CHROMA_BATCH_SIZE * k ==> AllBatchesDistinct(ids)
    ensures CHROMA_BATCH_SIZE * k < |ids| && !Distinct(BatchIds(ids, k)) ==> !AllBatchesDistinct(ids)
    ensures forall j: nat :: CHROMA_BATCH_SIZE * j < CHROMA_BATCH_SIZE * k && CHROMA_BATCH_SIZE * j < |ids| ==> Distinct(BatchIds(ids, j))
    ensures (CHROMA_BATCH_SIZE * k) % CHROMA_BATCH_SIZE == 0 && (CHROMA_BATCH_SIZE * k) / CHROMA_BATCH_SIZE == k
  {
  }

  /** Ids that are distinct overall are distinct in every batch. */
  lemma DistinctBatches(ids: seq<string>)
    requires Distinct(ids)
    ensures AllBatchesDistinct(ids)
  {
    forall k: nat | CHROMA_BATCH_SIZE * k < |ids| ensures Distinct(BatchIds(ids, k)) {
      var b := BatchIds(ids, k);
      forall x, y | 0 <= x < y < |b| ensures b[x] != b[y] {
        assert b[x] == ids[CHROMA_BATCH_SIZE * k + x] && b[y] == ids[CHROMA_BATCH_SIZE * k + y];
      }
    }
  }

  /** A repeated id inside one batch makes that batch, and so the batch loop, fail. */
  lemma RepeatInBatchFails(ids: seq<string>, x: nat, y: nat)
    requires x < y < |ids| && ids[x] == ids[y] && BatchOf(x) == BatchOf(y)
    ensures !AllBatchesDistinct(ids)
  {
    var k := BatchOf(x);
    assert CHROMA_BATCH_SIZE * k <= x < CHROMA_BATCH_SIZE * k + CHROMA_BATCH_SIZE;
    assert CHROMA_BATCH_SIZE * k <= y < CHROMA_BATCH_SIZE * k + CHROMA_BATCH_SIZE;
    var b := BatchIds(ids, k);
    assert b[x - CHROMA_BATCH_SIZE * k] == ids[x] && b[y - CHROMA_BATCH_SIZE * k] == ids[y];
  }

  /** The entry ids of a list of records. */
  function IdsOf(recs: seq<(string, Entry)>): (ids: seq<string>)
    ensures |ids| == |recs| && forall k :: 0 <= k < |recs| ==> ids[k] == recs[k].0
  {
    seq(|recs|, k requires 0 <= k < |recs| => recs[k].0)
  }

  lemma RecordsSlice(ids: seq<string>, documents: seq<string>, metadatas: seq<Metadata>, i: nat, j: nat)
    requires |ids| == |documents| == |metadatas| && i <= j <= |ids|
    ensures Records(ids[i..j], documents[i..j], metadatas[i..j]) == Records(ids, documents, metadatas)[i..j]
  {
  }

  lemma PrefixThenSlice(all: seq<(string, Entry)>, i: nat, j: nat)
    requires i <= j <= |all|
    ensures all[..i] + all[i..j] == all[..j]
  {
  }

  /** Where a batch starts and ends relative to its neighbours. */
  lemma BatchStep(n: nat, bs: seq<(nat, nat)>, k: nat)
    requires BatchShaped(n, bs) && k <= |bs|
    ensures k == 0 ==> (bs == [] <==> n == 0) && (bs != [] ==> bs[0].0 == 0)
    ensures k < |bs| ==> bs[k].0 <= bs[k].1 <= n
    ensures k + 1 < |bs| ==> bs[k + 1].0 == bs[k].1
    ensures k + 1 == |bs| ==> bs[k].1 == n
  {
  }

  /** The batch loop of `init_chromadb`. Batches are written in order until one repeats an
      id; that call raises, which ends the loop and `init_chromadb`. `written` is the number
      of records stored: all of them exactly when every batch was accepted, and otherwise
      the start of the refused batch. */
  method UpsertInBatches(store: IndexStore, ids: seq<string>, documents: seq<string>, metadatas: seq<Metadata>)
    returns (ok: bool, written: nat)
    requires |ids| == |documents| == |metadatas|
    modifies store
    ensures written <= |ids|
    ensures store.entries == UpsertAll(old(store.entries), Records(ids, documents, metadatas)[..written])
    ensures ok <==> written == |ids|
    ensures ok <==> AllBatchesDistinct(ids)
    ensures forall k: nat :: CHROMA_BATCH_SIZE * k < written && CHROMA_BATCH_SIZE * k < |ids| ==> Distinct(BatchIds(ids, k))
    ensures !ok ==> written % CHROMA_BATCH_SIZE == 0 && !Distinct(BatchIds(ids, written / CHROMA_BATCH_SIZE))
  {
    var all := Records(ids, documents, metadatas);
    var bs := Batches(|ids|);
    BatchStep(|ids|, bs, 0);
    var done := 0;
    for k := 0 to |bs|
      invariant done <= |ids|
      invariant k < |bs| ==> bs[k].0 == done && done == CHROMA_BATCH_SIZE * k
      invariant k == |bs| ==> done == |ids|
      invariant DistinctUpTo(ids, k)
      invariant store.entries == UpsertAll(old(store.entries), all[..done])
    {
      BatchStep(|ids|, bs, k);
      var accepted, endIdx := UpsertBatch(store, ids, documents, metadatas, k, old(store.entries));
      if !accepted {
        DistinctUpToEnd(ids, k);
        return false, done;
      }
      DistinctUpToStep(ids, k);
      done := endIdx;
    }
    assert all[..done] == all;
    DistinctUpToEnd(ids, |bs|);
    ok, written := true, done;
  }

  /** One pass of the batch loop: upsert batch `k`, which starts where the records written
      so far end. */
  method UpsertBatch(store: IndexStore, ids: seq<string>, documents: seq<string>, metadatas: seq<Metadata>,
                     k: nat, ghost base: map<string, Entry>)
    returns (accepted: bool, endIdx: nat)
    requires |ids| == |documents| == |metadatas| && CHROMA_BATCH_SIZE * k < |ids|
    requires store.entries == UpsertAll(base, Records(ids, documents, metadatas)[..CHROMA_BATCH_SIZE * k])
    modifies store
    ensures endIdx == Min(CHROMA_BATCH_SIZE * k + CHROMA_BATCH_SIZE, |ids|)
    ensures accepted <==> Distinct(BatchIds(ids, k))
    ensures accepted ==> store.entries == UpsertAll(base, Records(ids, documents, metadatas)[..endIdx])
    ensures !accepted ==> store.entries == old(store.entries)
  {
    var i := CHROMA_BATCH_SIZE * k;
    endIdx := Min(i + CHROMA_BATCH_SIZE, |ids|);
    var all := Records(ids, documents, metadatas);
    var batchIds, batchDocuments, batchMetadatas := ids[i..endIdx], documents[i..endIdx], metadatas[i..endIdx];
    accepted := store.Upsert(batchIds, batchDocuments, batchMetadatas);
    if accepted {
      RecordsSlice(ids, documents, metadatas, i, endIdx);
      UpsertAllAppend(base, all[..i], all[i..endIdx]);
      PrefixThenSlice(all, i, endIdx);
    }
  }

  /** All of `init_chromadb` after the file read: build the entries, then upsert them in
      batches. It succeeds exactly when no batch repeats an id, and then the index holds
      every record. */
  method InitIndex(store: IndexStore, songs: seq<Song>, dumps: Song -> string) returns (ok: bool, written: nat)
    modifies store
    ensures written <= |songs|
    ensures store.entries == UpsertAll(old(store.entries), IndexRecords(songs, dumps)[..written])
    ensures ok <==> written == |songs|
    ensures ok <==> AllBatchesDistinct(IdsOf(IndexRecords(songs, dumps)))
  {
    var ids, documents, metadatas := BuildEntries(songs, dumps);
    assert Records(ids, documents, metadatas) == IndexRecords(songs, dumps);
    assert ids == IdsOf(IndexRecords(songs, dumps));
    ok, written := UpsertInBatches(store, ids, documents, metadatas);
  }

  /** A catalogue whose song ids are distinct is always indexed in full. */
  lemma DistinctSongsIndexed(songs: seq<Song>, dumps: Song -> string)
    requires forall i, j :: 0 <= i < j < |songs| ==> songs[i].id != songs[j].id
    ensures AllBatchesDistinct(IdsOf(IndexRecords(songs, dumps)))
  {
    DistinctEntryIds(songs, dumps);
    DistinctBatches(IdsOf(IndexRecords(songs, dumps)));
  }

  /** How the retriever reads a stored entry back: `json.loads(metadata["json"])`, with
      the deserialiser a parameter that fails with `None`. A stored song is a non-empty
      object, so it is never a falsy payload. */
  function StoredHit(e: Entry, loads: string -> Option<Song>): ChatService.Hit {
    match loads(e.metadata.json)
    case Some(song) => ChatService.Payload(song)
    case None => ChatService.Undecodable
  }

  /** A song whose id no later song repeats is found under its id with its own document
      and metadata, and when the serialiser round-trips it the retriever gets the song
      back. */
  lemma IndexedSong(m: map<string, Entry>, songs: seq<Song>, dumps: Song -> string, loads: string -> Option<Song>, k: nat)
    requires k < |songs|
    requires forall j :: k < j < |songs| ==> songs[j].id != songs[k].id
    ensures var idx := UpsertAll(m, IndexRecords(songs, dumps));
      && EntryId(songs[k]) in idx
      && idx[EntryId(songs[k])] == Entry(Document(songs[k]), MetadataOf(songs[k], dumps))
      && (loads(dumps(songs[k])) == Some(songs[k]) ==> StoredHit(idx[EntryId(songs[k])], loads) == ChatService.Payload(songs[k]))
  {
    var recs := IndexRecords(songs, dumps);
    forall j | k < j < |recs| ensures recs[j].0 != recs[k].0 {
      if recs[j].0 == recs[k].0 {
        IntToStringInjective(songs[j].id, songs[k].id);
      }
    }
    UpsertAllLast(m, recs, k);
  }
}
