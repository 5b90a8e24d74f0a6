/** The input sanitiser and the required-field check of lib/auth/validators.py. */
module Validators {
  import opened PyStr

  /** The character class `[\x00-\x1f\x7f-\x9f]` removed by the sanitiser. */
  predicate IsControl(c: char) {
    c as int <= 0x1F || 0x7F <= c as int <= 0x9F
  }

  predicate NoControl(s: string) { forall i :: 0 <= i < |s| ==> !IsControl(s[i]) }

  /** `re.sub(r'[\x00-\x1f\x7f-\x9f]', '', s)` */
  function RemoveControlChars(s: string): (r: string)
    ensures |r| <= |s|
    ensures NoControl(r)
    ensures forall i :: 0 <= i < |r| ==> r[i] in s
    ensures NoControl(s) ==> r == s
    decreases |s|
  {
    if s == [] then []
    else
      var rest := RemoveControlChars(s[1..]);
      if IsControl(s[0]) then rest else [s[0]] + rest
  }

  lemma NoNewline(s: string)
    requires NoControl(s)
    ensures '\n' !in s && '\t' !in s
  {
    assert forall i :: 0 <= i < |s| ==> s[i] != '\n' && s[i] != '\t';
  }

  /** Length of the run of newlines at the front of `s`. */
  function NewlineRun(s: string): (k: nat)
    ensures k <= |s|
    ensures s != [] && s[0] == '\n' ==> k >= 1
    decreases |s|
  {
    if s != [] && s[0] == '\n' then 1 + NewlineRun(s[1..]) else 0
  }

  /** `re.sub(r'\n{3,}', '\n\n', s)`: every maximal run of three or more newlines becomes two. */
  function CollapseNewlines(s: string): string
    decreases |s|
  {
    if s == [] then []
    else if s[0] != '\n' then [s[0]] + CollapseNewlines(s[1..])
    else
      var k := NewlineRun(s);
      (if k >= 3 then "\n\n" else s[..k]) + CollapseNewlines(s[k..])
  }

  /** The collapse step changes nothing in text that holds no newline. */
  lemma {:induction false} CollapseWithoutNewlines(s: string)
    requires '\n' !in s
    ensures CollapseNewlines(s) == s
    decreases |s|
  {
    if s != [] {
      assert s[0] != '\n';
      assert '\n' !in s[1..] by {
        forall i | 0 <= i < |s[1..]| ensures s[1..][i] != '\n' {
          assert s[1..][i] == s[i + 1];
        }
      }
      CollapseWithoutNewlines(s[1..]);
    }
  }

  /** `sanitize_input(text, max_length)`: truncate, drop control characters, collapse newline runs, strip. */
  function SanitizeInput(text: string, maxLength: int): (r: string)
    ensures text == "" ==> r == ""
    ensures 0 <= maxLength ==> |r| <= maxLength
    ensures |r| <= |text|
    ensures NoControl(r)
    ensures '\n' !in r && '\t' !in r
    ensures r == [] || (!IsSpace(r[0]) && !IsSpace(r[|r| - 1]))
  {
    if text == "" then ""
    else
      var cut := Prefix(text, maxLength);
      var clean := RemoveControlChars(cut);
      NoNewline(clean);
      CollapseWithoutNewlines(clean);
      var r := Strip(CollapseNewlines(clean));
      StripIsInfix(clean);
      StripEdges(clean);
      assert forall i :: 0 <= i < |r| ==> r[i] == clean[StripStart(clean) + i];
      r
  }

  /** Since `\n` is itself a control character, the newline collapse never fires:
      sanitising is truncate, filter, strip. */
  lemma SanitizeSkipsCollapse(text: string, maxLength: int)
    requires text != ""
    ensures SanitizeInput(text, maxLength) == Strip(RemoveControlChars(Prefix(text, maxLength)))
  {
    var clean := RemoveControlChars(Prefix(text, maxLength));
    NoNewline(clean);
    CollapseWithoutNewlines(clean);
  }

  /** Text the sanitiser leaves alone: within the limit, no control characters,
      no whitespace at either end. */
  predicate IsClean(s: string, maxLength: nat) {
    |s| <= maxLength && NoControl(s) && (s == [] || (!IsSpace(s[0]) && !IsSpace(s[|s| - 1])))
  }

  /** The sanitiser returns its input unchanged exactly when the input is clean. */
  lemma SanitizeFixedPoint(s: string, maxLength: nat)
    ensures SanitizeInput(s, maxLength) == s <==> IsClean(s, maxLength)
  {
    if IsClean(s, maxLength) && s != [] {
      SanitizeSkipsCollapse(s, maxLength);
      assert Prefix(s, maxLength) == s;
      assert RemoveControlChars(s) == s;
      StripKeeps(s);
    }
  }

  /** Sanitising twice with the same limit is sanitising once. */
  lemma SanitizeIdempotent(s: string, maxLength: nat)
    ensures SanitizeInput(SanitizeInput(s, maxLength), maxLength) == SanitizeInput(s, maxLength)
  {
    SanitizeFixedPoint(SanitizeInput(s, maxLength), maxLength);
  }

  /** A limit wider than the first one does not change an already sanitised text. */
  lemma SanitizeWithWiderLimit(s: string, n: nat, m: nat)
    requires n <= m
    ensures SanitizeInput(SanitizeInput(s, n), m) == SanitizeInput(s, n)
  {
    SanitizeFixedPoint(SanitizeInput(s, n), m);
  }

  /** 600 letters sanitised with limit 50 give exactly the first 50. */
  lemma SanitizeLongRun()
    ensures SanitizeInput(seq(600, _ => 'a'), 50) == seq(50, _ => 'a')
  {
    var long, short := seq(600, _ => 'a'), seq(50, _ => 'a');
    SanitizeSkipsCollapse(long, 50);
    assert Prefix(long, 50) == short;
    StripKeeps(short);
  }

  /** `validate_required_field(value, field_name, max_length)` */
  function ValidateRequiredField(value: string, fieldName: string, maxLength: int): (r: (bool, string))
    ensures value == "" ==> r == (false, fieldName + "不能為空")
    ensures value != "" && SanitizeInput(value, maxLength) == "" ==> r == (false, fieldName + "包含無效字符")
    ensures r.0 <==> SanitizeInput(value, maxLength) != ""
    ensures r.0 ==> r.1 == SanitizeInput(value, maxLength) && (0 <= maxLength ==> |r.1| <= maxLength)
  {
    if value == "" then (false, fieldName + "不能為空")
    else
      var cleaned := SanitizeInput(value, maxLength);
      if cleaned == "" then (false, fieldName + "包含無效字符") else (true, cleaned)
  }
}
