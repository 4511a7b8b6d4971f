/** Python string operations the pipeline relies on, over `seq<char>`:
    `str.split()`, `sep.join(parts)`, `str.split(sep)`, `str.strip()`,
    ASCII `lower()`, `endswith`, `in`, and decimal formatting. */
module Text {

  /** The characters for which Python's `str.isspace()` is true. */
  predicate IsSpace(c: char) {
    c == ' ' || c == '\t' || c == '\n' || c == '\r' || c == '\U{B}' || c == '\U{C}'
    || ('\U{1C}' <= c <= '\U{1F}') || c == '\U{85}' || c == '\U{A0}' || c == '\U{1680}'
    || ('\U{2000}' <= c <= '\U{200A}') || c == '\U{2028}' || c == '\U{2029}'
    || c == '\U{202F}' || c == '\U{205F}' || c == '\U{3000}'
  }

  /** A word as `str.split()` produces it: non-empty, no whitespace. */
  predicate IsWord(w: string) {
    w != [] && forall i :: 0 <= i < |w| ==> !IsSpace(w[i])
  }

  predicate AllWords(ws: seq<string>) {
    forall i :: 0 <= i < |ws| ==> IsWord(ws[i])
  }

  /** Length of the run of non-whitespace characters that starts `s`. */
  function WordLen(s: string): (n: nat)
    ensures n <= |s|
    ensures forall i :: 0 <= i < n ==> !IsSpace(s[i])
    ensures n < |s| ==> IsSpace(s[n])
  {
    if s == [] || IsSpace(s[0]) then 0 else 1 + WordLen(s[1..])
  }

  /** Python's `s.split()`: the maximal runs of non-whitespace, in order. */
  function Words(s: string): (r: seq<string>)
    ensures AllWords(r)
    decreases |s|
  {
    if s == [] then []
    else if IsSpace(s[0]) then Words(s[1..])
    else
      var n := WordLen(s);
      [s[..n]] + Words(s[n..])
  }

  /** Python's `sep.join(parts)` for a one-character separator. */
  function Join(parts: seq<string>, sep: char): string {
    if |parts| == 0 then ""
    else if |parts| == 1 then parts[0]
    else parts[0] + [sep] + Join(parts[1..], sep)
  }

  /** Python's `s.split(sep)` for a one-character separator. */
  function SplitOn(s: string, sep: char): (r: seq<string>)
    ensures |r| >= 1
  {
    if s == [] then [""]
    else
      var rest := SplitOn(s[1..], sep);
      if s[0] == sep then [""] + rest else [[s[0]] + rest[0]] + rest[1..]
  }

  /** Drops leading characters satisfying `drop`. */
  function TrimLeft(s: string, drop: char -> bool): (r: string)
    ensures |r| <= |s| && r == s[|s| - |r|..]
    ensures r != [] ==> !drop(r[0])
  {
    if s != [] && drop(s[0]) then TrimLeft(s[1..], drop) else s
  }

  /** Drops trailing characters satisfying `drop`. */
  function TrimRight(s: string, drop: char -> bool): (r: string)
    ensures |r| <= |s| && r == s[..|r|]
    ensures r != [] ==> !drop(r[|r| - 1])
  {
    if s != [] && drop(s[|s| - 1]) then TrimRight(s[..|s| - 1], drop) else s
  }

  /** Left trimming stops at the first character it may not drop. */
  lemma {:induction false} TrimLeftStopsAt(s: string, drop: char -> bool, j: int)
    requires 0 <= j < |s| && !drop(s[j])
    ensures |s| - |TrimLeft(s, drop)| <= j
  {
    if s != [] && drop(s[0]) {
      TrimLeftStopsAt(s[1..], drop, j - 1);
    }
  }

  /** Right trimming keeps every character up to the last it may not drop. */
  lemma {:induction false} TrimRightStopsAt(s: string, drop: char -> bool, j: int)
    requires 0 <= j < |s| && !drop(s[j])
    ensures j < |TrimRight(s, drop)|
  {
    if s != [] && drop(s[|s| - 1]) {
      TrimRightStopsAt(s[..|s| - 1], drop, j);
    }
  }

  /** Python's `s.strip()`. */
  function Strip(s: string): string {
    TrimRight(TrimLeft(s, IsSpace), IsSpace)
  }

  /** Concatenation of a sequence of sequences. */
  function Concat<T>(ss: seq<seq<T>>): seq<T> {
    if ss == [] then [] else ss[0] + Concat(ss[1..])
  }

  /** The words of every part, part after part. */
  function ConcatWords(parts: seq<string>): seq<string> {
    if parts == [] then [] else Words(parts[0]) + ConcatWords(parts[1..])
  }

  predicate IsAsciiUpper(c: char) { 'A' <= c <= 'Z' }
  predicate IsAsciiLower(c: char) { 'a' <= c <= 'z' }
  predicate IsAsciiDigit(c: char) { '0' <= c <= '9' }

  function LowerChar(c: char): (d: char)
    ensures IsAsciiUpper(c) ==> IsAsciiLower(d)
    ensures !IsAsciiUpper(c) ==> d == c
  {
    if IsAsciiUpper(c) then (c as int - 'A' as int + 'a' as int) as char else c
  }

  /** `s.lower()` restricted to ASCII letters. */
  function Lower(s: string): (r: string)
    ensures |r| == |s|
    ensures forall i :: 0 <= i < |s| ==> r[i] == LowerChar(s[i])
  {
    if s == [] then [] else [LowerChar(s[0])] + Lower(s[1..])
  }

  predicate StartsWith(s: string, prefix: string) {
    |prefix| <= |s| && s[..|prefix|] == prefix
  }

  predicate EndsWith(s: string, suffix: string) {
    |suffix| <= |s| && s[|s| - |suffix|..] == suffix
  }

  /** Python's `sub in s`. */
  predicate Contains(s: string, sub: string) {
    StartsWith(s, sub) || (s != [] && Contains(s[1..], sub))
  }

  /** Python's `s.isdigit()` restricted to ASCII digits. */
  predicate IsDecimal(s: string) {
    s != [] && forall i :: 0 <= i < |s| ==> IsAsciiDigit(s[i])
  }

  /** Python's `int(s)` for a string of ASCII digits. */
  function DecimalValue(s: string): nat
    requires forall i :: 0 <= i < |s| ==> IsAsciiDigit(s[i])
  {
    if s == [] then 0
    else
      var d := s[|s| - 1] as int - '0' as int;
      assert IsAsciiDigit(s[|s| - 1]);
      DecimalValue(s[..|s| - 1]) * 10 + d
  }

  /** Python's `str(n)` for a natural number. */
  function NatToString(n: nat): (r: string)
    ensures r != [] && forall i :: 0 <= i < |r| ==> IsAsciiDigit(r[i])
  {
    var d := ((n % 10) + '0' as int) as char;
    if n < 10 then [d] else NatToString(n / 10) + [d]
  }

  /** `int(str(n)) == n`, so distinct numbers print differently. */
  lemma {:induction false} NatToStringRoundTrip(n: nat)
    ensures DecimalValue(NatToString(n)) == n
  {
    var r := NatToString(n);
    if n >= 10 {
      NatToStringRoundTrip(n / 10);
      assert r[..|r| - 1] == NatToString(n / 10);
    } else {
      assert r[..0] == [];
    }
  }

  // ---------------------------------------------------------------------
  // Lemmas about Words, Join and SplitOn
  // ---------------------------------------------------------------------

  lemma {:induction false} WordLenAppend(a: string, b: string)
    requires b != [] && IsSpace(b[0])
    ensures WordLen(a + b) == WordLen(a)
    decreases |a|
  {
    if a == [] {
      assert a + b == b;
    } else if !IsSpace(a[0]) {
      assert (a + b)[1..] == a[1..] + b;
      WordLenAppend(a[1..], b);
    }
  }

  /** A whitespace character separates words: splitting distributes over it. */
  lemma {:induction false} WordsAppend(a: string, b: string)
    requires b != [] && IsSpace(b[0])
    ensures Words(a + b) == Words(a) + Words(b)
    decreases |a|
  {
    if a == [] {
      assert a + b == b;
    } else if IsSpace(a[0]) {
      assert (a + b)[1..] == a[1..] + b;
      WordsAppend(a[1..], b);
    } else {
      WordLenAppend(a, b);
      var n := WordLen(a);
      assert (a + b)[..n] == a[..n];
      assert (a + b)[n..] == a[n..] + b;
      WordsAppend(a[n..], b);
    }
  }

  lemma WordsOfWord(w: string)
    requires IsWord(w)
    ensures Words(w) == [w]
  {
    assert WordLen(w) == |w|;
    assert w[..|w|] == w;
    assert w[|w|..] == [];
  }

  /** Splitting on whitespace a text joined by a whitespace character gives
      the words of every part, in order. */
  lemma {:induction false} WordsOfJoin(parts: seq<string>, sep: char)
    requires IsSpace(sep)
    ensures Words(Join(parts, sep)) == ConcatWords(parts)
  {
    if |parts| == 0 {
    } else if |parts| == 1 {
      assert ConcatWords(parts[1..]) == [];
    } else {
      var rest := Join(parts[1..], sep);
      assert parts[0] + [sep] + rest == parts[0] + ([sep] + rest);
      WordsAppend(parts[0], [sep] + rest);
      assert ([sep] + rest)[1..] == rest;
      WordsOfJoin(parts[1..], sep);
    }
  }

  lemma {:induction false} ConcatWordsOfWords(ws: seq<string>)
    requires AllWords(ws)
    ensures ConcatWords(ws) == ws
  {
    if ws != [] {
      WordsOfWord(ws[0]);
      ConcatWordsOfWords(ws[1..]);
    }
  }

  /** Joining words with a space and splitting again gives back the words. */
  lemma WordsOfLine(ws: seq<string>)
    requires AllWords(ws)
    ensures Words(Join(ws, ' ')) == ws
  {
    WordsOfJoin(ws, ' ');
    ConcatWordsOfWords(ws);
  }

  lemma {:induction false} ConcatWordsAppend(a: seq<string>, b: seq<string>)
    ensures ConcatWords(a + b) == ConcatWords(a) + ConcatWords(b)
  {
    if a == [] {
      assert a + b == b;
    } else {
      assert (a + b)[1..] == a[1..] + b;
      ConcatWordsAppend(a[1..], b);
    }
  }

  lemma {:induction false} ConcatAppend<T>(a: seq<seq<T>>, b: seq<seq<T>>)
    ensures Concat(a + b) == Concat(a) + Concat(b)
  {
    if a == [] {
      assert a + b == b;
    } else {
      assert (a + b)[1..] == a[1..] + b;
      ConcatAppend(a[1..], b);
    }
  }

  lemma JoinSnoc(ws: seq<string>, w: string, sep: char)
    requires ws != []
    ensures Join(ws + [w], sep) == Join(ws, sep) + [sep] + w
    decreases |ws|
  {
    if |ws| == 1 {
      assert (ws + [w])[1..] == [w];
    } else {
      assert (ws + [w])[1..] == ws[1..] + [w];
      JoinSnoc(ws[1..], w, sep);
    }
  }

  lemma {:induction false} SplitOnWithout(s: string, sep: char)
    requires sep !in s
    ensures SplitOn(s, sep) == [s]
  {
    if s != [] {
      SplitOnWithout(s[1..], sep);
      assert [s[0]] + s[1..] == s;
    }
  }

  lemma {:induction false} SplitOnAt(a: string, b: string, sep: char)
    requires sep !in a
    ensures SplitOn(a + [sep] + b, sep) == [a] + SplitOn(b, sep)
  {
    if a == [] {
      assert a + [sep] + b == [sep] + b;
      assert ([sep] + b)[1..] == b;
    } else {
      assert (a + [sep] + b)[1..] == a[1..] + [sep] + b;
      SplitOnAt(a[1..], b, sep);
      assert [a[0]] + a[1..] == a;
    }
  }

  /** `sep.join(parts).split(sep) == parts` when no part contains `sep`. */
  lemma {:induction false} SplitOnJoin(parts: seq<string>, sep: char)
    requires |parts| >= 1
    requires forall k :: 0 <= k < |parts| ==> sep !in parts[k]
    ensures SplitOn(Join(parts, sep), sep) == parts
  {
    if |parts| == 1 {
      SplitOnWithout(parts[0], sep);
    } else {
      SplitOnAt(parts[0], Join(parts[1..], sep), sep);
      SplitOnJoin(parts[1..], sep);
    }
  }

  /** A line of words joined by spaces holds no other whitespace character. */
  lemma {:induction false} JoinWordsAvoids(ws: seq<string>, c: char)
    requires AllWords(ws) && IsSpace(c) && c != ' '
    ensures c !in Join(ws, ' ')
  {
    if |ws| > 1 {
      JoinWordsAvoids(ws[1..], c);
    }
  }

  /** A line of one or more words neither starts nor ends with whitespace,
      and is non-empty. */
  lemma {:induction false} JoinWordsEnds(ws: seq<string>)
    requires ws != [] && AllWords(ws)
    ensures var j := Join(ws, ' '); j != [] && !IsSpace(j[0]) && !IsSpace(j[|j| - 1])
  {
    if |ws| > 1 {
      JoinWordsEnds(ws[1..]);
      var j := Join(ws, ' ');
      assert j == ws[0] + [' '] + Join(ws[1..], ' ');
      assert j[0] == ws[0][0];
    }
  }

  /** A string that is not blank once stripped has a word: `if not
      s.strip()` is the only way `s.split()` comes out empty. */
  lemma StrippedHasWords(s: string)
    requires Strip(s) != ""
    ensures Words(Strip(s)) != []
  {
    var t := Strip(s);
    assert t[0] == TrimLeft(s, IsSpace)[0];
  }

  /** `(" ".join(ws) + " ").strip() == " ".join(ws)` for words `ws`. */
  lemma StripLine(ws: seq<string>)
    requires ws != [] && AllWords(ws)
    ensures Strip(Join(ws, ' ') + " ") == Join(ws, ' ')
  {
    var j := Join(ws, ' ');
    JoinWordsEnds(ws);
    assert TrimLeft(j + " ", IsSpace) == j + " ";
    var t := j + " ";
    assert t[..|t| - 1] == j;
    assert TrimRight(j, IsSpace) == j;
  }
}
