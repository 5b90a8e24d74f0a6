/** A song record of data/songs.json as the scripts and the retriever read it. */
module Catalogue {
  import opened Optional

  /** The fields the code reads. A string field that is missing reads as `""`
      everywhere it is used (`song.get(key, "")`, `if song.get(key)`), so the model
      writes it as `""`; likewise a missing `features` is `[]`, a missing
      `difficulty.oni` or `max_combo` is `0`, and a missing `bpm` is `"0"`.
      `strategy_text` is the one field whose mere presence matters. */
  datatype Song = Song(
    id: int,
    title: string,
    subtitle: string,
    genre: string,
    oni: int,
    bpm: string,
    detailUrl: string,
    features: seq<string>,
    description: string,
    maxCombo: int,
    strategyText: Option<string>)

  /** The feature of an Inner Oni (ura) chart entry. */
  const INNER_ONI: string := "Inner Oni"

  /** The marker of limited-time songs that the catalogue drops. */
  const LIMITED: string := "【限定】"

  /** `needle in haystack` for strings: some suffix of `haystack` starts with `needle`. */
  predicate Contains(haystack: string, needle: string)
    decreases |haystack|
  {
    if |haystack| < |needle| then false
    else haystack[..|needle|] == needle || Contains(haystack[1..], needle)
  }
}
