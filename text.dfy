/** The JavaScript string operations the booking flow relies on: trimming,
    splitting on white space or on a separator, joining, decimal conversion,
    zero padding, lower-casing and substring search. */
module Text {
  import opened Wrappers

  /** A character that JavaScript's `\s` class and `String.prototype.trim`
      treat as white space (the WhiteSpace and LineTerminator code points of
      ECMA-262). */
  predicate IsSpace(c: char) {
    || c == ' ' || c == '\t' || c == '\n' || c == '\r' || c == '\U{B}' || c == '\U{C}'
    || c == '\U{A0}' || c == '\U{1680}' || ('\U{2000}' <= c <= '\U{200A}')
    || c == '\U{2028}' || c == '\U{2029}' || c == '\U{202F}' || c == '\U{205F}'
    || c == '\U{3000}' || c == '\U{FEFF}'
  }

  predicate NoSpace(s: string) {
    forall i :: 0 <= i < |s| ==> !IsSpace(s[i])
  }

  predicate AllSpace(s: string) {
    forall i :: 0 <= i < |s| ==> IsSpace(s[i])
  }

  /** A non-empty run of characters none of which is white space. */
  predicate IsWord(w: string) {
    w != [] && NoSpace(w)
  }

  /** Neither the first nor the last character is white space. */
  predicate IsTrimmed(s: string) {
    s == [] || (!IsSpace(s[0]) && !IsSpace(s[|s| - 1]))
  }

  /** `s.trimStart()`: what remains is a suffix of `s` and only white space was dropped. */
  function TrimStart(s: string): (r: string)
    ensures |r| <= |s| && r == s[|s| - |r|..]
    ensures AllSpace(s[..|s| - |r|])
    ensures r == [] || !IsSpace(r[0])
  {
    if s != [] && IsSpace(s[0]) then TrimStart(s[1..]) else s
  }

  /** `s.trimEnd()`: what remains is a prefix of `s` and only white space was dropped. */
  function TrimEnd(s: string): (r: string)
    ensures |r| <= |s| && r == s[..|r|]
    ensures AllSpace(s[|r|..])
    ensures r == [] || !IsSpace(r[|r| - 1])
  {
    if s != [] && IsSpace(s[|s| - 1]) then TrimEnd(s[..|s| - 1]) else s
  }

  /** `s.trim()`: the result has no white space at either end, and it is
      empty exactly when `s` is made of white space only. */
  function Trim(s: string): (r: string)
    ensures IsTrimmed(r)
    ensures r == [] <==> AllSpace(s)
  {
    TrimEmptyIffAllSpace(s);
    TrimEnd(TrimStart(s))
  }

  lemma TrimEmptyIffAllSpace(s: string)
    ensures TrimEnd(TrimStart(s)) == [] <==> AllSpace(s)
  {
    var t := TrimStart(s);
    var k := |s| - |t|;
    if TrimEnd(t) == [] {
      assert t[0..] == t;
      assert t == [];
      assert s[..k] == s;
    }
    if t != [] {
      assert s[k] == t[0];
      assert !IsSpace(s[k]);
    }
  }

  /** Trimming a string with no white space at its ends leaves it as it is. */
  lemma TrimOfTrimmed(s: string)
    requires IsTrimmed(s)
    ensures Trim(s) == s
  {
  }

  /** Trimming adds no character: every character of the result comes from the string. */
  lemma TrimKeeps(s: string, c: char)
    requires c !in s
    ensures c !in Trim(s)
  {
    var t := TrimStart(s);
    assert t == s[|s| - |t|..];
    assert TrimEnd(t) == t[..|TrimEnd(t)|];
  }

  /** Length of the longest prefix of `s` free of white space. */
  function WordLen(s: string): (n: nat)
    ensures n <= |s| && NoSpace(s[..n])
    ensures n == |s| || IsSpace(s[n])
  {
    if s == [] || IsSpace(s[0]) then 0 else 1 + WordLen(s[1..])
  }

  /** Length of the longest prefix of `s` made of white space. */
  function SpaceLen(s: string): (n: nat)
    ensures n <= |s| && AllSpace(s[..n])
    ensures n == |s| || !IsSpace(s[n])
  {
    if s == [] || !IsSpace(s[0]) then 0 else 1 + SpaceLen(s[1..])
  }

  /** `s.split(/\s+/)`: the pieces between maximal runs of white space.
      A leading or trailing run gives an empty first or last piece and ""
      gives [""], as in JavaScript. */
  function SplitSpaces(s: string): (parts: seq<string>)
    ensures |parts| >= 1
    ensures forall i :: 0 <= i < |parts| ==> NoSpace(parts[i])
    decreases |s|
  {
    var w := WordLen(s);
    if w == |s| then [s]
    else
      var rest := s[w..];
      assert IsSpace(rest[0]);
      [s[..w]] + SplitSpaces(rest[SpaceLen(rest)..])
  }

  /** `parts.join(sep)`. */
  function Join(parts: seq<string>, sep: string): string {
    if parts == [] then ""
    else if |parts| == 1 then parts[0]
    else parts[0] + sep + Join(parts[1..], sep)
  }

  /** Joining words with single spaces gives a non-empty string with no
      white space at either end. */
  lemma {:induction false} JoinWordsEnds(words: seq<string>)
    requires |words| >= 1
    requires forall i :: 0 <= i < |words| ==> IsWord(words[i])
    ensures Join(words, " ") != [] && IsTrimmed(Join(words, " "))
  {
    assert IsWord(words[0]);
    if |words| > 1 {
      JoinWordsEnds(words[1..]);
    }
  }

  /** Splitting on white space undoes joining words with single spaces. */
  lemma {:induction false} SplitJoinSpaces(words: seq<string>)
    requires |words| >= 1
    requires forall i :: 0 <= i < |words| ==> IsWord(words[i])
    ensures SplitSpaces(Join(words, " ")) == words
  {
    var w := words[0];
    if |words| == 1 {
      assert WordLen(w) == |w|;
    } else {
      var j := Join(words[1..], " ");
      JoinWordsEnds(words[1..]);
      var s := w + " " + j;
      assert s == Join(words, " ");
      assert s[|w|] == ' ';
      assert s[..|w|] == w;
      assert WordLen(s) == |w|;
      var rest := s[|w|..];
      assert rest == " " + j;
      assert SpaceLen(rest) == 1;
      assert rest[1..] == j;
      SplitJoinSpaces(words[1..]);
    }
  }

  /** Words with the given runs of characters between them, one run fewer
      than words. */
  function JoinRuns(words: seq<string>, runs: seq<string>): string
    requires |words| == |runs| + 1
  {
    if |words| == 1 then words[0]
    else words[0] + runs[0] + JoinRuns(words[1..], runs[1..])
  }

  /** The first `k` characters hold no white space and the next one is white
      space: the word at the start is `k` long. */
  lemma WordLenOf(s: string, k: nat)
    requires k <= |s| && NoSpace(s[..k]) && (k == |s| || IsSpace(s[k]))
    ensures WordLen(s) == k
  {
    var n := WordLen(s);
    assert forall i :: 0 <= i < k ==> !IsSpace(s[i]) by {
      forall i | 0 <= i < k ensures !IsSpace(s[i]) {
        assert s[..k][i] == s[i];
      }
    }
    assert forall i :: 0 <= i < n ==> !IsSpace(s[i]) by {
      forall i | 0 <= i < n ensures !IsSpace(s[i]) {
        assert s[..n][i] == s[i];
      }
    }
  }

  /** The first `k` characters are white space and the next one is not: the
      run of white space at the start is `k` long. */
  lemma SpaceLenOf(s: string, k: nat)
    requires k <= |s| && AllSpace(s[..k]) && (k == |s| || !IsSpace(s[k]))
    ensures SpaceLen(s) == k
  {
    var n := SpaceLen(s);
    assert forall i :: 0 <= i < k ==> IsSpace(s[i]) by {
      forall i | 0 <= i < k ensures IsSpace(s[i]) {
        assert s[..k][i] == s[i];
      }
    }
    assert forall i :: 0 <= i < n ==> IsSpace(s[i]) by {
      forall i | 0 <= i < n ensures IsSpace(s[i]) {
        assert s[..n][i] == s[i];
      }
    }
  }

  /** Words separated by non-empty runs of white space give a non-empty text
      with no white space at its ends. */
  lemma {:induction false} JoinRunsEnds(words: seq<string>, runs: seq<string>)
    requires |words| == |runs| + 1
    requires forall i :: 0 <= i < |words| ==> IsWord(words[i])
    requires forall i :: 0 <= i < |runs| ==> runs[i] != [] && AllSpace(runs[i])
    ensures JoinRuns(words, runs) != [] && IsTrimmed(JoinRuns(words, runs))
  {
    assert IsWord(words[0]);
    if |words| > 1 {
      JoinRunsEnds(words[1..], runs[1..]);
    }
  }

  /** Splitting on white space gives back the words, whatever non-empty runs
      of white space separate them. */
  lemma {:induction false} SplitJoinRuns(words: seq<string>, runs: seq<string>)
    requires |words| == |runs| + 1
    requires forall i :: 0 <= i < |words| ==> IsWord(words[i])
    requires forall i :: 0 <= i < |runs| ==> runs[i] != [] && AllSpace(runs[i])
    ensures SplitSpaces(JoinRuns(words, runs)) == words
  {
    var w := words[0];
    assert IsWord(w);
    if |words| == 1 {
      assert w[..|w|] == w;
      WordLenOf(w, |w|);
    } else {
      var r := runs[0];
      var j := JoinRuns(words[1..], runs[1..]);
      JoinRunsEnds(words[1..], runs[1..]);
      var s := w + r + j;
      assert s == JoinRuns(words, runs);
      assert s[..|w|] == w;
      assert s[|w|] == r[0];
      WordLenOf(s, |w|);
      var rest := s[|w|..];
      assert rest == r + j;
      assert rest[..|r|] == r;
      assert rest[|r|] == j[0];
      SpaceLenOf(rest, |r|);
      assert rest[|r|..] == j;
      SplitJoinRuns(words[1..], runs[1..]);
    }
  }

  /** `trimStart` drops exactly the white space in front of a text that
      starts with another character. */
  lemma TrimStartPadded(lead: string, rest: string)
    requires AllSpace(lead) && rest != [] && !IsSpace(rest[0])
    ensures TrimStart(lead + rest) == rest
  {
    var s := lead + rest;
    var t := TrimStart(s);
    var d := |s| - |t|;
    assert forall i :: 0 <= i < d ==> IsSpace(s[i]) by {
      forall i | 0 <= i < d ensures IsSpace(s[i]) {
        assert s[..d][i] == s[i];
      }
    }
    assert forall i :: 0 <= i < |lead| ==> s[i] == lead[i];
    assert s[|lead|] == rest[0];
    assert t != [] ==> t[0] == s[d];
    assert d == |lead|;
  }

  /** `trimEnd` drops exactly the white space after a text that ends with
      another character. */
  lemma TrimEndPadded(m: string, trail: string)
    requires AllSpace(trail) && m != [] && !IsSpace(m[|m| - 1])
    ensures TrimEnd(m + trail) == m
  {
    var t := m + trail;
    var u := TrimEnd(t);
    assert forall i :: |u| <= i < |t| ==> IsSpace(t[i]) by {
      forall i | |u| <= i < |t| ensures IsSpace(t[i]) {
        assert t[|u|..][i - |u|] == t[i];
      }
    }
    assert forall i :: |m| <= i < |t| ==> t[i] == trail[i - |m|];
    assert t[|m| - 1] == m[|m| - 1];
    assert u != [] ==> u[|u| - 1] == t[|u| - 1];
    assert |u| == |m|;
  }

  /** Trimming drops exactly the white space around a text with no white
      space at its ends. */
  lemma TrimPadded(lead: string, m: string, trail: string)
    requires AllSpace(lead) && AllSpace(trail)
    requires m != [] && IsTrimmed(m)
    ensures Trim(lead + m + trail) == m
  {
    assert lead + m + trail == lead + (m + trail);
    TrimStartPadded(lead, m + trail);
    TrimEndPadded(m, trail);
  }

  /** Position of the first `c` in `s`, or |s| when there is none. */
  function IndexOf(s: string, c: char): (k: nat)
    ensures k <= |s| && c !in s[..k]
    ensures k == |s| || s[k] == c
  {
    if s == [] || s[0] == c then 0 else 1 + IndexOf(s[1..], c)
  }

  /** `s.split(c)` for a one-character separator: no piece contains `c`. */
  function SplitOn(s: string, c: char): (parts: seq<string>)
    ensures |parts| >= 1
    ensures forall i :: 0 <= i < |parts| ==> c !in parts[i]
    decreases |s|
  {
    var k := IndexOf(s, c);
    if k == |s| then [s] else [s[..k]] + SplitOn(s[k + 1..], c)
  }

  /** Splitting on `c` undoes joining pieces free of `c` with `c`. */
  lemma {:induction false} SplitJoinOn(parts: seq<string>, c: char)
    requires |parts| >= 1
    requires forall i :: 0 <= i < |parts| ==> c !in parts[i]
    ensures SplitOn(Join(parts, [c]), c) == parts
  {
    var p := parts[0];
    if |parts| == 1 {
      assert p[..|p|] == p;
      assert IndexOf(p, c) == |p|;
    } else {
      var j := Join(parts[1..], [c]);
      var s := p + [c] + j;
      assert s == Join(parts, [c]);
      assert s[..|p|] == p;
      assert s[|p|] == c;
      assert c !in p;
      assert IndexOf(s, c) == |p|;
      assert s[|p| + 1..] == j;
      SplitJoinOn(parts[1..], c);
    }
  }

  predicate IsDigit(c: char) {
    '0' <= c <= '9'
  }

  predicate AllDigits(s: string) {
    forall i :: 0 <= i < |s| ==> IsDigit(s[i])
  }

  function DigitChar(d: nat): (c: char)
    requires d < 10
    ensures IsDigit(c) && c as int - '0' as int == d
  {
    ('0' as int + d) as char
  }

  /** `String(n)` for a non-negative integer: its decimal digits. */
  function NatToString(n: nat): (s: string)
    ensures s != [] && AllDigits(s)
    decreases n
  {
    if n < 10 then [DigitChar(n)] else NatToString(n / 10) + [DigitChar(n % 10)]
  }

  /** The value of a string of decimal digits ("" counts as 0). */
  function DigitsValue(s: string): nat
    requires AllDigits(s)
    decreases |s|
  {
    if s == [] then 0
    else DigitsValue(s[..|s| - 1]) * 10 + (s[|s| - 1] as int - '0' as int)
  }

  /** Reading back the decimal digits of `n` gives `n`. */
  lemma {:induction false} DigitsValueOfNatToString(n: nat)
    ensures DigitsValue(NatToString(n)) == n
    decreases n
  {
    if n >= 10 {
      var s := NatToString(n);
      assert s[..|s| - 1] == NatToString(n / 10);
      DigitsValueOfNatToString(n / 10);
    }
  }

  /** `String(n)` for any integer: a minus sign in front of negative values. */
  function IntToString(n: int): (s: string)
    ensures s != []
    ensures forall i :: 0 <= i < |s| ==> s[i] == '-' || IsDigit(s[i])
  {
    if n < 0 then "-" + NatToString(-n) else NatToString(n)
  }

  /** An optional minus sign followed by at least one decimal digit, as an
      integer; anything else is not a number. */
  function ParseInt(s: string): Option<int> {
    if |s| >= 2 && s[0] == '-' && AllDigits(s[1..]) then Some(0 - DigitsValue(s[1..]))
    else if s != [] && AllDigits(s) then Some(DigitsValue(s))
    else None
  }

  /** Every integer reads back from its decimal form. */
  lemma ParseIntOfIntToString(n: int)
    ensures ParseInt(IntToString(n)) == Some(n)
  {
    var s := IntToString(n);
    if n < 0 {
      var d := NatToString(-n);
      assert s == "-" + d;
      assert s[1..] == d;
      DigitsValueOfNatToString(-n);
      assert |s| >= 2 && s[0] == '-' && AllDigits(s[1..]);
    } else {
      DigitsValueOfNatToString(n);
      assert IsDigit(s[0]);
      assert AllDigits(s);
    }
  }

  /** `String(n).padStart(2, '0')`. */
  function Pad2(n: nat): (s: string)
    ensures |s| >= 2 && AllDigits(s)
  {
    var d := NatToString(n);
    if |d| < 2 then "0" + d else d
  }

  /** A value below 100 is padded to exactly two digits that read back as it. */
  lemma Pad2Value(n: nat)
    requires n < 100
    ensures |Pad2(n)| == 2 && DigitsValue(Pad2(n)) == n
  {
    DigitsValueOfNatToString(n);
    var d := NatToString(n);
    if n < 10 {
      var p := "0" + d;
      assert p[..1] == "0";
      assert DigitsValue(p[..1]) == 0;
    } else {
      assert NatToString(n / 10) == [DigitChar(n / 10)];
    }
  }

  function LowerChar(c: char): char {
    if 'A' <= c <= 'Z' then (c as int + 32) as char else c
  }

  /** `s.toLowerCase()`, for the letters A to Z. */
  function Lower(s: string): string {
    seq(|s|, i requires 0 <= i < |s| => LowerChar(s[i]))
  }

  /** `hay.includes(needle)`. */
  predicate Contains(hay: string, needle: string) {
    exists i :: 0 <= i <= |hay| && needle <= hay[i..]
  }

  /** `hay.toLowerCase().includes(needle.toLowerCase())`. */
  predicate ContainsIgnoringCase(hay: string, needle: string) {
    Contains(Lower(hay), Lower(needle))
  }

  /** The empty string occurs in every string, and every string in itself. */
  lemma ContainsTrivial(s: string)
    ensures Contains(s, "") && Contains(s, s)
  {
    assert s[0..] == s;
  }
}
