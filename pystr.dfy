/** Python `str` operations the backend relies on, written out over `string`. */
module PyStr {

  function Min(a: int, b: int): int { if a <= b then a else b }

  function Max(a: int, b: int): int { if a >= b then a else b }

  /** Python's `str.isspace()` for one code point. */
  predicate IsSpace(c: char) {
    var n := c as int;
    || (0x09 <= n <= 0x0D) || (0x1C <= n <= 0x20) || n == 0x85 || n == 0xA0
    || n == 0x1680 || (0x2000 <= n <= 0x200A) || n == 0x2028 || n == 0x2029
    || n == 0x202F || n == 0x205F || n == 0x3000
  }

  predicate IsAsciiDigit(c: char) { '0' <= c <= '9' }

  predicate NoSpace(s: string) { forall i :: 0 <= i < |s| ==> !IsSpace(s[i]) }

  predicate AllSpace(s: string) { forall i :: 0 <= i < |s| ==> IsSpace(s[i]) }

  /** Python's slice `s[:n]`; a negative `n` counts from the end. */
  function Prefix(s: string, n: int): (r: string)
    ensures |r| <= |s|
    ensures 0 <= n ==> |r| <= n
    ensures r == s[..|r|]
  {
    if n >= 0 then (if n < |s| then s[..n] else s)
    else if |s| + n > 0 then s[..|s| + n] else []
  }

  /** Number of leading whitespace characters. */
  function LeadCount(s: string): (k: nat)
    ensures k <= |s|
    ensures AllSpace(s[..k])
    ensures k < |s| ==> !IsSpace(s[k])
    decreases |s|
  {
    if s != [] && IsSpace(s[0]) then
      var k := 1 + LeadCount(s[1..]);
      assert forall i :: 1 <= i < k ==> s[..k][i] == s[1..][..k - 1][i - 1];
      k
    else 0
  }

  /** Number of trailing whitespace characters. */
  function TrailCount(s: string): (k: nat)
    ensures k <= |s|
    ensures AllSpace(s[|s| - k..])
    ensures k < |s| ==> !IsSpace(s[|s| - 1 - k])
    decreases |s|
  {
    if s != [] && IsSpace(s[|s| - 1]) then
      var t := s[..|s| - 1];
      var k := 1 + TrailCount(t);
      assert forall i :: |s| - k <= i < |s| - 1 ==> s[i] == t[i];
      k
    else 0
  }

  /** `s.lstrip()` */
  function TrimStart(s: string): string { s[LeadCount(s)..] }

  /** `s.rstrip()` */
  function TrimEnd(s: string): string { s[..|s| - TrailCount(s)] }

  /** `s.strip()` */
  function Strip(s: string): string { TrimEnd(TrimStart(s)) }

  /** Offsets of `Strip(s)` inside `s`. */
  function StripStart(s: string): nat { LeadCount(s) }

  function StripEnd(s: string): nat { LeadCount(s) + |TrimStart(s)| - TrailCount(TrimStart(s)) }

  lemma StripIsInfix(s: string)
    ensures StripStart(s) <= StripEnd(s) <= |s|
    ensures Strip(s) == s[StripStart(s)..StripEnd(s)]
    ensures AllSpace(s[..StripStart(s)]) && AllSpace(s[StripEnd(s)..])
  {
    var a := LeadCount(s);
    var t := s[a..];
    var c := TrailCount(t);
    assert TrimStart(s) == t && Strip(s) == t[..|t| - c];
    assert StripStart(s) == a && StripEnd(s) == a + |t| - c;
    assert t[..|t| - c] == s[a..a + |t| - c];
    assert t[|t| - c..] == s[a + |t| - c..];
  }

  /** The stripped text neither starts nor ends with whitespace. */
  lemma StripEdges(s: string)
    ensures var r := Strip(s); r == [] || (!IsSpace(r[0]) && !IsSpace(r[|r| - 1]))
  {
    var t := TrimStart(s);
    var r := Strip(s);
    if r != [] {
      assert r[0] == t[0] == s[LeadCount(s)];
      assert r[|r| - 1] == t[|t| - 1 - TrailCount(t)];
    }
  }

  /** Text without edge whitespace is left alone by `strip`. */
  lemma StripKeeps(s: string)
    requires s == [] || (!IsSpace(s[0]) && !IsSpace(s[|s| - 1]))
    ensures Strip(s) == s
  {
  }

  lemma StripChars(s: string)
    ensures forall i :: 0 <= i < |Strip(s)| ==> Strip(s)[i] in s
  {
    StripIsInfix(s);
    forall i | 0 <= i < |Strip(s)| ensures Strip(s)[i] in s {
      assert Strip(s)[i] == s[StripStart(s) + i];
    }
  }

  /** Length of the leading run of non-whitespace characters. */
  function WordLen(s: string): (k: nat)
    ensures k <= |s|
    ensures NoSpace(s[..k])
    ensures k < |s| ==> IsSpace(s[k])
    decreases |s|
  {
    if s != [] && !IsSpace(s[0]) then
      var k := 1 + WordLen(s[1..]);
      assert forall i :: 1 <= i < k ==> s[..k][i] == s[1..][..k - 1][i - 1];
      k
    else 0
  }

  /** `s.split()`: the maximal runs of non-whitespace characters, in order. */
  function Split(s: string): (parts: seq<string>)
    ensures forall i :: 0 <= i < |parts| ==> parts[i] != [] && NoSpace(parts[i])
    decreases |s|
  {
    var t := TrimStart(s);
    if t == [] then []
    else
      var w := WordLen(t);
      [t[..w]] + Split(t[w..])
  }

  /** A word followed by whitespace (or nothing) is exactly the leading run. */
  lemma WordLenOf(w: string, t: string)
    requires NoSpace(w) && (t == [] || IsSpace(t[0]))
    ensures WordLen(w + t) == |w|
  {
    var s, k := w + t, WordLen(w + t);
    forall i | 0 <= i < k ensures !IsSpace(s[i]) {
      assert s[..k][i] == s[i];
    }
    forall i | 0 <= i < |w| ensures !IsSpace(s[i]) {
      assert s[i] == w[i];
    }
    if t != [] {
      assert s[|w|] == t[0];
    }
  }

  /** `split()` ignores a leading blank. */
  lemma SplitSkipsSpace(t: string)
    ensures Split(" " + t) == Split(t)
  {
    var s := " " + t;
    assert s[1..] == t;
    assert TrimStart(s) == TrimStart(t);
  }

  /** `split()` of a word, a blank and a rest: the word, then the words of the rest. */
  lemma SplitWord(w: string, t: string)
    requires w != [] && NoSpace(w)
    ensures Split(w + " " + t) == [w] + Split(t)
  {
    var s := w + " " + t;
    assert LeadCount(s) == 0 by { assert s[0] == w[0]; }
    assert TrimStart(s) == s;
    assert s == w + (" " + t);
    WordLenOf(w, " " + t);
    assert s[..|w|] == w;
    assert s[|w|..] == " " + t;
    SplitSkipsSpace(t);
  }

  /** `split()` of a single word. */
  lemma SplitOneWord(w: string)
    requires w != [] && NoSpace(w)
    ensures Split(w) == [w]
  {
    assert LeadCount(w) == 0;
    assert TrimStart(w) == w;
    WordLenOf(w, []);
    assert w + [] == w;
    assert w[|w|..] == [];
  }

  /** Index of the first `c` in `s`, or `|s|` when there is none. */
  function IndexOf(s: string, c: char): (k: nat)
    ensures k <= |s|
    ensures c !in s[..k]
    ensures k < |s| ==> s[k] == c
    ensures k == |s| <==> c !in s
  {
    if s == [] then 0
    else if s[0] == c then 0
    else
      var k := 1 + IndexOf(s[1..], c);
      assert s[..k] == [s[0]] + s[1..][..k - 1];
      k
  }

  /** `s.split(sep)` for a one-character separator. */
  function SplitOn(s: string, sep: char): (parts: seq<string>)
    ensures |parts| >= 1
    ensures forall i :: 0 <= i < |parts| ==> sep !in parts[i]
    decreases |s|
  {
    var k := IndexOf(s, sep);
    if k == |s| then [s] else [s[..k]] + SplitOn(s[k + 1..], sep)
  }

  /** `sep.join(parts)` */
  function Join(sep: string, parts: seq<string>): string
    decreases |parts|
  {
    if parts == [] then ""
    else if |parts| == 1 then parts[0]
    else parts[0] + sep + Join(sep, parts[1..])
  }

  /** `"".join(parts)` */
  function Concat(parts: seq<string>): string
    decreases |parts|
  {
    if parts == [] then "" else parts[0] + Concat(parts[1..])
  }

  lemma ConcatAppend(parts: seq<string>, last: string)
    ensures Concat(parts + [last]) == Concat(parts) + last
    decreases |parts|
  {
    if parts != [] {
      assert (parts + [last])[1..] == parts[1..] + [last];
      ConcatAppend(parts[1..], last);
    }
  }

  /** Splitting on a separator and joining again gives the text back. */
  lemma {:induction false} JoinSplitOn(s: string, sep: char)
    ensures Join([sep], SplitOn(s, sep)) == s
    decreases |s|
  {
    var k := IndexOf(s, sep);
    if k < |s| {
      var head, tail := s[..k], s[k + 1..];
      var rest := SplitOn(tail, sep);
      JoinSplitOn(tail, sep);
      var parts := SplitOn(s, sep);
      assert parts == [head] + rest;
      assert |parts| >= 2 && parts[0] == head && parts[1..] == rest;
      assert Join([sep], parts) == head + [sep] + Join([sep], rest);
      assert s == head + [sep] + tail;
    }
  }

  /** Splitting text that carries one more separator yields one more part. */
  lemma SplitOnCons(a: string, sep: char, b: string)
    requires sep !in a
    ensures SplitOn(a + [sep] + b, sep) == [a] + SplitOn(b, sep)
  {
    var s := a + [sep] + b;
    assert s[..|a|] == a;
    assert s[|a|] == sep;
    assert IndexOf(s, sep) == |a|;
    assert s[|a| + 1..] == b;
  }

  lemma SplitOnNone(a: string, sep: char)
    requires sep !in a
    ensures SplitOn(a, sep) == [a]
  {
  }

  /** Splitting distributes over a separator: the parts of `a` followed by the parts of `b`. */
  lemma {:induction false} SplitOnAppend(a: string, sep: char, b: string)
    ensures SplitOn(a + [sep] + b, sep) == SplitOn(a, sep) + SplitOn(b, sep)
    decreases |a|
  {
    var k := IndexOf(a, sep);
    if k == |a| {
      SplitOnCons(a, sep, b);
    } else {
      var head, tail := a[..k], a[k + 1..];
      calc {
        SplitOn(a + [sep] + b, sep);
        { assert a + [sep] + b == head + [sep] + (tail + [sep] + b) by { assert a == head + [sep] + tail; } }
        SplitOn(head + [sep] + (tail + [sep] + b), sep);
        { SplitOnCons(head, sep, tail + [sep] + b); }
        [head] + SplitOn(tail + [sep] + b, sep);
        { SplitOnAppend(tail, sep, b); }
        [head] + (SplitOn(tail, sep) + SplitOn(b, sep));
        ([head] + SplitOn(tail, sep)) + SplitOn(b, sep);
        { assert a == head + [sep] + tail; SplitOnCons(head, sep, tail); }
        SplitOn(a, sep) + SplitOn(b, sep);
      }
    }
  }

  /** Joining parts that hold no separator and splitting again gives the parts back. */
  lemma {:induction false} SplitOnJoin(parts: seq<string>, sep: char)
    requires |parts| >= 1
    requires forall i :: 0 <= i < |parts| ==> sep !in parts[i]
    ensures SplitOn(Join([sep], parts), sep) == parts
    decreases |parts|
  {
    if |parts| == 1 {
      SplitOnNone(parts[0], sep);
    } else {
      SplitOnJoin(parts[1..], sep);
      SplitOnCons(parts[0], sep, Join([sep], parts[1..]));
      assert [parts[0]] + parts[1..] == parts;
    }
  }

  /** A character in neither the parts nor the separator is not in their join. */
  lemma {:induction false} JoinAvoids(sep: string, parts: seq<string>, c: char)
    requires c !in sep
    requires forall i :: 0 <= i < |parts| ==> c !in parts[i]
    ensures c !in Join(sep, parts)
    decreases |parts|
  {
    if |parts| > 1 {
      JoinAvoids(sep, parts[1..], c);
      assert Join(sep, parts) == parts[0] + sep + Join(sep, parts[1..]);
    }
  }

  /** The join of parts whose first part is non-empty starts with that part's first character. */
  lemma JoinFirst(sep: string, parts: seq<string>)
    requires |parts| >= 1 && parts[0] != []
    ensures var j := Join(sep, parts); j != [] && j[0] == parts[0][0]
  {
    if |parts| > 1 {
      var j := Join(sep, parts);
      assert j == parts[0] + sep + Join(sep, parts[1..]);
    }
  }

  /** The join of parts whose last part is non-empty ends with that part's last character. */
  lemma {:induction false} JoinLast(sep: string, parts: seq<string>)
    requires |parts| >= 1 && parts[|parts| - 1] != []
    ensures var j := Join(sep, parts); j != [] && j[|j| - 1] == parts[|parts| - 1][|parts[|parts| - 1]| - 1]
    decreases |parts|
  {
    if |parts| > 1 {
      var rest := parts[1..];
      assert rest[|rest| - 1] == parts[|parts| - 1];
      JoinLast(sep, rest);
      var j, t := Join(sep, parts), Join(sep, rest);
      assert j == parts[0] + sep + t;
      assert j[|j| - 1] == t[|t| - 1];
    }
  }

  /** Every element appears once. */
  predicate Distinct<T(==)>(s: seq<T>) {
    forall i, j :: 0 <= i < j < |s| ==> s[i] != s[j]
  }

  /** The lines of a text: `s.split("\\n")`. */
  function Lines(s: string): (ls: seq<string>)
    ensures |ls| >= 1
  {
    SplitOn(s, '\n')
  }

  /** The lines of two texts joined by a newline. */
  lemma LinesJoin(a: string, b: string)
    ensures Lines(a + "\n" + b) == Lines(a) + Lines(b)
  {
    assert a + "\n" + b == a + ['\n'] + b;
    SplitOnAppend(a, '\n', b);
  }

  lemma NoNewlineAppend(a: string, b: string)
    requires '\n' !in a && '\n' !in b
    ensures '\n' !in a + b
  {
  }

  /** Text without a newline is one line. */
  lemma OneLine(s: string)
    requires '\n' !in s
    ensures Lines(s) == [s]
  {
    SplitOnNone(s, '\n');
  }

  /** Each line followed by a newline: the text a loop of `text += f"{line}\n"` builds. */
  function Terminated(ls: seq<string>): (r: string)
    ensures |r| >= |ls|
    decreases |ls|
  {
    if ls == [] then "" else ls[0] + "\n" + Terminated(ls[1..])
  }

  lemma TerminatedAppend(ls: seq<string>, l: string)
    ensures Terminated(ls + [l]) == Terminated(ls) + l + "\n"
    decreases |ls|
  {
    if ls != [] {
      assert (ls + [l])[1..] == ls[1..] + [l];
      TerminatedAppend(ls[1..], l);
    }
  }

  /** A newline-free line followed by a newline starts the lines of a text. */
  lemma LinesCons(l: string, t: string)
    requires '\n' !in l
    ensures Lines(l + "\n" + t) == [l] + Lines(t)
  {
    assert l + "\n" + t == l + ['\n'] + t;
    SplitOnCons(l, '\n', t);
  }

  /** No line holds a newline. */
  predicate Unbroken(ls: seq<string>) {
    forall i :: 0 <= i < |ls| ==> '\n' !in ls[i]
  }

  lemma UnbrokenTail(ls: seq<string>)
    requires ls != [] && Unbroken(ls)
    ensures '\n' !in ls[0] && Unbroken(ls[1..])
  {
    assert forall i :: 0 <= i < |ls[1..]| ==> ls[1..][i] == ls[i + 1];
  }

  lemma UnbrokenAppend(a: seq<string>, b: seq<string>)
    requires Unbroken(a) && Unbroken(b)
    ensures Unbroken(a + b)
  {
    assert forall i :: |a| <= i < |a + b| ==> (a + b)[i] == b[i - |a|];
  }

  lemma {:induction false} TerminatedConcat(a: seq<string>, b: seq<string>)
    ensures Terminated(a + b) == Terminated(a) + Terminated(b)
    decreases |a|
  {
    if a == [] {
      assert a + b == b;
    } else {
      calc {
        Terminated(a + b);
        { assert (a + b)[1..] == a[1..] + b; }
        a[0] + "\n" + Terminated(a[1..] + b);
        { TerminatedConcat(a[1..], b); }
        a[0] + "\n" + (Terminated(a[1..]) + Terminated(b));
        Terminated(a) + Terminated(b);
      }
    }
  }

  /** The lines of each of several texts, one after the other. */
  function LinesAll(ps: seq<string>): (ls: seq<string>)
    ensures |ls| >= |ps|
    decreases |ps|
  {
    if ps == [] then [] else Lines(ps[0]) + LinesAll(ps[1..])
  }

  lemma {:induction false} LinesAllAppend(a: seq<string>, b: seq<string>)
    ensures LinesAll(a + b) == LinesAll(a) + LinesAll(b)
    decreases |a|
  {
    if a == [] {
      assert a + b == b;
    } else {
      calc {
        LinesAll(a + b);
        { assert (a + b)[1..] == a[1..] + b; }
        Lines(a[0]) + LinesAll(a[1..] + b);
        { LinesAllAppend(a[1..], b); }
        Lines(a[0]) + (LinesAll(a[1..]) + LinesAll(b));
        LinesAll(a) + LinesAll(b);
      }
    }
  }

  lemma LinesAllOne(s: string)
    ensures LinesAll([s]) == Lines(s)
  {
    assert [s][1..] == [];
  }

  /** Newline-free texts are one line each. */
  lemma {:induction false} LinesAllUnbroken(ls: seq<string>)
    requires Unbroken(ls)
    ensures LinesAll(ls) == ls
    decreases |ls|
  {
    if ls != [] {
      UnbrokenTail(ls);
      LinesAllUnbroken(ls[1..]);
      OneLine(ls[0]);
      assert [ls[0]] + ls[1..] == ls;
    }
  }

  lemma AppendAssoc<T>(a: seq<T>, b: seq<T>, c: seq<T>)
    ensures a + (b + c) == (a + b) + c
  {
  }

  lemma TerminatedCons(ps: seq<string>, rest: string)
    requires ps != []
    ensures Terminated(ps) + rest == ps[0] + "\n" + (Terminated(ps[1..]) + rest)
  {
  }

  /** The lines of texts each followed by a newline, followed by more text: a text holding
      newlines contributes all its lines. */
  lemma {:induction false} LinesOfTerminated(ps: seq<string>, rest: string)
    ensures Lines(Terminated(ps) + rest) == LinesAll(ps) + Lines(rest)
    decreases |ps|
  {
    if ps == [] {
      assert Terminated(ps) + rest == rest;
    } else {
      var t := Terminated(ps[1..]) + rest;
      TerminatedCons(ps, rest);
      LinesJoin(ps[0], t);
      LinesOfTerminated(ps[1..], rest);
      AppendAssoc(Lines(ps[0]), LinesAll(ps[1..]), Lines(rest));
    }
  }

  /** Newline-free lines, each terminated, give those lines and a last empty one. */
  lemma LinesOfUnbrokenTerminated(ls: seq<string>)
    requires Unbroken(ls)
    ensures Lines(Terminated(ls)) == ls + [""]
  {
    LinesOfTerminated(ls, "");
    assert Terminated(ls) + "" == Terminated(ls);
    LinesAllUnbroken(ls);
    OneLine("");
  }

  /** `s.replace(x, y)` for one-character `x` and `y`. */
  function ReplaceChar(s: string, x: char, y: char): (r: string)
    ensures |r| == |s|
    ensures forall i :: 0 <= i < |s| ==> r[i] == (if s[i] == x then y else s[i])
  {
    seq(|s|, i requires 0 <= i < |s| => if s[i] == x then y else s[i])
  }

  lemma ReplaceAbsent(s: string, x: char, y: char)
    requires x !in s
    ensures ReplaceChar(s, x, y) == s
  {
    assert forall i :: 0 <= i < |s| ==> ReplaceChar(s, x, y)[i] == s[i];
  }

  /** `s.lower()` restricted to ASCII letters. */
  function LowerAscii(s: string): (r: string)
    ensures |r| == |s|
  {
    seq(|s|, i requires 0 <= i < |s| =>
      if 'A' <= s[i] <= 'Z' then (s[i] as int + 32) as char else s[i])
  }

  /** `s.upper()` restricted to ASCII letters. */
  function UpperAscii(s: string): (r: string)
    ensures |r| == |s|
  {
    seq(|s|, i requires 0 <= i < |s| =>
      if 'a' <= s[i] <= 'z' then (s[i] as int - 32) as char else s[i])
  }

  function DigitChar(d: int): char
    requires 0 <= d < 10
  {
    ('0' as int + d) as char
  }

  /** `str(n)` for a natural number. */
  function NatToString(n: nat): (r: string)
    ensures r != [] && forall i :: 0 <= i < |r| ==> IsAsciiDigit(r[i])
  {
    if n < 10 then [DigitChar(n)] else NatToString(n / 10) + [DigitChar(n % 10)]
  }

  /** `str(i)` for an integer. */
  function IntToString(i: int): string {
    if i < 0 then "-" + NatToString(-i) else NatToString(i)
  }

  function DigitValue(c: char): nat
    requires IsAsciiDigit(c)
  {
    c as int - '0' as int
  }

  /** Length of the run of decimal digits at the start of `s`. */
  function DigitRun(s: string): (k: nat)
    ensures k <= |s|
    ensures forall i :: 0 <= i < k ==> IsAsciiDigit(s[i])
    ensures k < |s| ==> !IsAsciiDigit(s[k])
    decreases |s|
  {
    if s != [] && IsAsciiDigit(s[0]) then
      var k := 1 + DigitRun(s[1..]);
      assert forall i :: 1 <= i < k ==> s[i] == s[1..][i - 1];
      k
    else 0
  }

  /** A digit run followed by something that is not a digit has exactly that length. */
  lemma DigitRunOf(w: string, t: string)
    requires forall i :: 0 <= i < |w| ==> IsAsciiDigit(w[i])
    requires t == [] || !IsAsciiDigit(t[0])
    ensures DigitRun(w + t) == |w|
  {
    var s, k := w + t, DigitRun(w + t);
    forall i | 0 <= i < |w| ensures IsAsciiDigit(s[i]) {
      assert s[i] == w[i];
    }
    if t != [] {
      assert s[|w|] == t[0];
    }
  }

  /** Value of a run of decimal digits, as `int()` reads it. */
  function DigitsValue(ds: string): nat
    requires forall i :: 0 <= i < |ds| ==> IsAsciiDigit(ds[i])
    decreases |ds|
  {
    if ds == [] then 0 else DigitsValue(ds[..|ds| - 1]) * 10 + DigitValue(ds[|ds| - 1])
  }
}
