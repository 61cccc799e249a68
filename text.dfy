/**
 * The pieces of Python's string library that the pipeline relies on, over
 * `string` (a sequence of Unicode scalar values): `str.strip`, `str.startswith`,
 * the `in` substring test, `str.split`, `str.join`, `int()`/`str()` on integers,
 * `file.readlines()` / `file.writelines()` and `str.splitlines()`.
 */
module Text {
  import opened Wrappers

  /** Python's `str.isspace()` for one character: what `strip()` removes and `\s` matches. */
  predicate IsSpace(c: char) {
    c == ' ' || ('\t' <= c <= '\r') || ('\U{1C}' <= c <= '\U{1F}')
    || c == '\U{85}' || c == '\U{A0}' || c == '\U{1680}' || ('\U{2000}' <= c <= '\U{200A}')
    || c == '\U{2028}' || c == '\U{2029}' || c == '\U{202F}' || c == '\U{205F}' || c == '\U{3000}'
  }

  predicate AllSpaces(s: string) {
    forall j :: 0 <= j < |s| ==> IsSpace(s[j])
  }

  /** How many whitespace characters `s` starts with. */
  function LeadingSpaces(s: string): (n: nat)
    ensures n <= |s|
  {
    if s != [] && IsSpace(s[0]) then 1 + LeadingSpaces(s[1..]) else 0
  }

  /** How many whitespace characters `s` ends with. */
  function TrailingSpaces(s: string): (n: nat)
    ensures n <= |s|
  {
    if s != [] && IsSpace(s[|s| - 1]) then 1 + TrailingSpaces(s[..|s| - 1]) else 0
  }

  /** `LeadingSpaces` counts the maximal run of whitespace at the start. */
  lemma {:induction false} LeadingSpacesSpec(s: string)
    ensures AllSpaces(s[..LeadingSpaces(s)])
    ensures LeadingSpaces(s) < |s| ==> !IsSpace(s[LeadingSpaces(s)])
  {
    if s != [] && IsSpace(s[0]) {
      LeadingSpacesSpec(s[1..]);
      var n := LeadingSpaces(s[1..]);
      assert s[..n + 1] == [s[0]] + s[1..][..n];
    }
  }

  /** `TrailingSpaces` counts the maximal run of whitespace at the end. */
  lemma {:induction false} TrailingSpacesSpec(s: string)
    ensures AllSpaces(s[|s| - TrailingSpaces(s)..])
    ensures TrailingSpaces(s) < |s| ==> !IsSpace(s[|s| - TrailingSpaces(s) - 1])
  {
    if s != [] && IsSpace(s[|s| - 1]) {
      var t := s[..|s| - 1];
      TrailingSpacesSpec(t);
      var n := TrailingSpaces(t);
      assert s[|s| - (n + 1)..] == t[|t| - n..] + [s[|s| - 1]];
    }
  }

  /** `s.lstrip()`. */
  function LStrip(s: string): string {
    s[LeadingSpaces(s)..]
  }

  /** `s.rstrip()`. */
  function RStrip(s: string): string {
    s[..|s| - TrailingSpaces(s)]
  }

  /** `s.strip()`. */
  function Strip(s: string): string {
    LStrip(RStrip(s))
  }

  lemma LStripSkipsSpaces(pre: string, w: string)
    requires AllSpaces(pre) && w != [] && !IsSpace(w[0])
    ensures LStrip(pre + w) == w
  {
    var s := pre + w;
    LeadingSpacesSpec(s);
    assert s[|pre|] == w[0];
    assert forall j :: 0 <= j < |pre| ==> s[j] == pre[j];
  }

  lemma RStripKeepsVisibleEnd(p: string, q: string)
    requires p != [] && !IsSpace(p[|p| - 1])
    ensures |RStrip(p + q)| >= |p|
    ensures RStrip(p + q)[..|p|] == p
  {
    var s := p + q;
    TrailingSpacesSpec(s);
    assert s[|p| - 1] == p[|p| - 1];
  }

  /** Stripping a line that starts with a visible character keeps that character first. */
  lemma VisibleFirstChar(s: string)
    requires s != [] && !IsSpace(s[0])
    ensures Strip(s) != [] && Strip(s)[0] == s[0]
  {
    assert s == [s[0]] + s[1..];
    RStripKeepsVisibleEnd([s[0]], s[1..]);
    var r := RStrip(s);
    assert [] + r == r;
    LStripSkipsSpaces([], r);
  }

  /** Stripping a text that starts and ends with visible characters keeps a prefix with the same property. */
  lemma StripKeepsVisiblePrefix(p: string, q: string)
    requires p != [] && !IsSpace(p[0]) && !IsSpace(p[|p| - 1])
    ensures |Strip(p + q)| >= |p| && Strip(p + q)[..|p|] == p
  {
    RStripKeepsVisibleEnd(p, q);
    var r := RStrip(p + q);
    assert r[0] == p[0];
    assert [] + r == r;
    LStripSkipsSpaces([], r);
  }

  /** A stripped text neither starts nor ends with whitespace. */
  lemma StripEnds(s: string)
    ensures Strip(s) == [] || (!IsSpace(Strip(s)[0]) && !IsSpace(Strip(s)[|Strip(s)| - 1]))
  {
    TrailingSpacesSpec(s);
    LeadingSpacesSpec(RStrip(s));
  }

  /** Stripping removes exactly the whitespace padding around a word that has none at its ends. */
  lemma {:induction false} StripPadded(pre: string, w: string, post: string)
    requires AllSpaces(pre) && AllSpaces(post)
    requires w != [] && !IsSpace(w[0]) && !IsSpace(w[|w| - 1])
    ensures Strip(pre + w + post) == w
  {
    var s := pre + w + post;
    assert s[|pre| + |w| - 1] == w[|w| - 1];
    TrailingSpacesSpec(s);
    assert forall j :: |pre| + |w| <= j < |s| ==> s[j] == post[j - |pre| - |w|];
    var r := RStrip(s);
    assert |r| == |pre| + |w|;
    assert r == pre + w;
    assert r[|pre|] == w[0];
    LeadingSpacesSpec(r);
    var l := LStrip(r);
    assert |l| == |w|;
    assert l == w;
  }

  /** Stripping whitespace on the right of an already right-stripped text gives it back. */
  lemma {:induction false} RStripPadded(w: string, post: string)
    requires w == RStrip(w) && AllSpaces(post)
    ensures RStrip(w + post) == w
  {
    var s := w + post;
    if w != [] {
      assert s[|w| - 1] == w[|w| - 1];
    }
    assert forall j :: |w| <= j < |s| ==> s[j] == post[j - |w|];
    TrailingSpacesSpec(s);
    TrailingSpacesSpec(w);
    var r := RStrip(s);
    assert |r| == |w|;
    assert r == s[..|w|] == w;
  }

  /** `s.startswith(p)`. */
  predicate StartsWith(s: string, p: string) {
    |p| <= |s| && s[..|p|] == p
  }

  predicate OccursAt(s: string, sub: string, i: nat) {
    i + |sub| <= |s| && s[i..i + |sub|] == sub
  }

  /** Python's substring test `sub in s`. */
  predicate Contains(s: string, sub: string) {
    exists i: nat :: i <= |s| && OccursAt(s, sub, i)
  }

  /** The index of the first `c` in `s`, as `s.find(c)` finds it. */
  function IndexOf(s: string, c: char): (r: Option<nat>)
    ensures r.Some? ==> r.value < |s| && s[r.value] == c
    ensures r.Some? ==> forall j :: 0 <= j < r.value ==> s[j] != c
    ensures r.None? ==> forall j :: 0 <= j < |s| ==> s[j] != c
  {
    if s == [] then None
    else if s[0] == c then Some(0)
    else match IndexOf(s[1..], c)
      case None => None
      case Some(i) => Some(i + 1)
  }

  /** `s.split(c, 1)` unpacked into two names: the text before the first `c` and the text after it. */
  function SplitFirst(s: string, c: char): (r: Option<(string, string)>)
    ensures r.None? <==> c !in s
    ensures r.Some? ==> s == r.value.0 + [c] + r.value.1 && c !in r.value.0
  {
    match IndexOf(s, c)
    case None => None
    case Some(i) =>
      assert s == s[..i] + [c] + s[i + 1..];
      Some((s[..i], s[i + 1..]))
  }

  predicate IsDigit(c: char) {
    '0' <= c <= '9'
  }

  predicate IsDigits(s: string) {
    s != [] && forall j :: 0 <= j < |s| ==> IsDigit(s[j])
  }

  /** The number a run of decimal digits denotes. */
  function DigitsValue(s: string): nat
    requires forall j :: 0 <= j < |s| ==> IsDigit(s[j])
  {
    if s == [] then 0
    else
      var d := s[|s| - 1];
      assert IsDigit(d);
      DigitsValue(s[..|s| - 1]) * 10 + (d as int - '0' as int)
  }

  /** `int(s)` on a stripped text: an optional sign and decimal digits, `None` where Python raises ValueError. */
  function ParseInt(s: string): Option<int> {
    if s != [] && (s[0] == '-' || s[0] == '+') then
      if IsDigits(s[1..]) then
        var n: int := DigitsValue(s[1..]);
        Some(if s[0] == '-' then -n else n)
      else None
    else if IsDigits(s) then Some(DigitsValue(s))
    else None
  }

  function DigitChar(d: nat): (c: char)
    requires d < 10
    ensures IsDigit(c) && c as int - '0' as int == d
  {
    ('0' as int + d) as char
  }

  /** `str(n)` for a natural number: its decimal digits, which read back as `n`. */
  function NatToString(n: nat): (r: string)
    ensures IsDigits(r) && DigitsValue(r) == n
  {
    if n < 10 then [DigitChar(n)]
    else
      var r := NatToString(n / 10) + [DigitChar(n % 10)];
      assert r[..|r| - 1] == NatToString(n / 10);
      r
  }

  /** `str(v)` for an integer: `int()` reads it back as `v`, and it has no whitespace at either end. */
  function IntToString(v: int): (r: string)
    ensures ParseInt(r) == Some(v)
    ensures r != [] && !IsSpace(r[0]) && !IsSpace(r[|r| - 1])
    ensures forall j :: 0 <= j < |r| ==> IsDigit(r[j]) || r[j] == '-'
  {
    if v < 0 then
      var r := "-" + NatToString(-v);
      assert r[1..] == NatToString(-v);
      r
    else NatToString(v)
  }

  /** `sep.join(parts)` for a one-character separator. */
  function JoinWith(sep: char, parts: seq<string>): string {
    if |parts| == 0 then []
    else if |parts| == 1 then parts[0]
    else parts[0] + [sep] + JoinWith(sep, parts[1..])
  }

  /** A join ends with its last part. */
  lemma {:induction false} JoinWithEndsWithLast(sep: char, parts: seq<string>)
    requires |parts| >= 1
    ensures var j := JoinWith(sep, parts); var last := parts[|parts| - 1];
      |last| <= |j| && j[|j| - |last|..] == last
  {
    if |parts| > 1 {
      JoinWithEndsWithLast(sep, parts[1..]);
    }
  }

  /** `s.split(sep)` for a one-character separator. */
  function SplitOn(s: string, sep: char): (r: seq<string>)
    ensures |r| >= 1
    ensures forall k :: 0 <= k < |r| ==> sep !in r[k]
    decreases |s|
  {
    match IndexOf(s, sep)
    case None => [s]
    case Some(i) => [s[..i]] + SplitOn(s[i + 1..], sep)
  }

  /** How many times `c` occurs in `s`. */
  function Count(s: string, c: char): nat {
    if s == [] then 0 else (if s[0] == c then 1 else 0) + Count(s[1..], c)
  }

  lemma {:induction false} CountAppend(a: string, b: string, c: char)
    ensures Count(a + b, c) == Count(a, c) + Count(b, c)
  {
    if a != [] {
      assert (a + b)[1..] == a[1..] + b;
      CountAppend(a[1..], b, c);
    } else {
      assert a + b == b;
    }
  }

  lemma {:induction false} CountAbsent(s: string, c: char)
    requires c !in s
    ensures Count(s, c) == 0
  {
    if s != [] {
      CountAbsent(s[1..], c);
    }
  }

  /** Joining separator-free parts puts exactly one separator between each two of them. */
  lemma {:induction false} JoinWithCount(sep: char, parts: seq<string>)
    requires |parts| >= 1
    requires forall k :: 0 <= k < |parts| ==> sep !in parts[k]
    ensures Count(JoinWith(sep, parts), sep) == |parts| - 1
  {
    CountAbsent(parts[0], sep);
    if |parts| > 1 {
      JoinWithCount(sep, parts[1..]);
      CountAppend(parts[0] + [sep], JoinWith(sep, parts[1..]), sep);
      CountAppend(parts[0], [sep], sep);
      assert Count([sep], sep) == 1 by {
        assert [sep][1..] == [];
      }
    }
  }

  /** Splitting a join of separator-free parts on the separator gives the parts back. */
  lemma {:induction false} SplitJoin(sep: char, parts: seq<string>)
    requires |parts| >= 1
    requires forall k :: 0 <= k < |parts| ==> sep !in parts[k]
    ensures SplitOn(JoinWith(sep, parts), sep) == parts
  {
    if |parts| > 1 {
      var rest := JoinWith(sep, parts[1..]);
      SplitOnFirstPart(parts[0], sep, rest);
      SplitJoin(sep, parts[1..]);
      assert parts == [parts[0]] + parts[1..];
    } else {
      assert IndexOf(parts[0], sep) == None;
    }
  }

  /** A separator-free part followed by the separator is split off first. */
  lemma SplitOnFirstPart(a: string, sep: char, rest: string)
    requires sep !in a
    ensures SplitOn(a + [sep] + rest, sep) == [a] + SplitOn(rest, sep)
  {
    var s := a + [sep] + rest;
    var n := |a|;
    assert s[n] == sep;
    assert forall j :: 0 <= j < n ==> s[j] == a[j];
    assert IndexOf(s, sep) == Some(n);
    assert s[..n] == a;
    assert s[n + 1..] == rest;
  }

  /** The whitespace `shlex.split` separates words on. */
  predicate IsShellSpace(c: char) {
    c == ' ' || c == '\t' || c == '\r' || c == '\n'
  }

  /** The length of the word at the head of `s`. */
  function WordLength(s: string): (n: nat)
    ensures n <= |s|
    ensures forall j :: 0 <= j < n ==> !IsShellSpace(s[j])
    ensures n < |s| ==> IsShellSpace(s[n])
  {
    if s == [] || IsShellSpace(s[0]) then 0 else 1 + WordLength(s[1..])
  }

  /** `shlex.split(s)` for a command without quotes, escapes or comments: the maximal runs of non-space characters. */
  function Words(s: string): (ws: seq<string>)
    ensures forall k :: 0 <= k < |ws| ==> ws[k] != []
    ensures forall k, j :: 0 <= k < |ws| && 0 <= j < |ws[k]| ==> !IsShellSpace(ws[k][j])
    decreases |s|
  {
    if s == [] then []
    else if IsShellSpace(s[0]) then Words(s[1..])
    else
      var n := WordLength(s);
      [s[..n]] + Words(s[n..])
  }

  /** A word followed by nothing or by a space is split off whole. */
  lemma WordsOfWordThen(w: string, t: string)
    requires w != [] && forall j :: 0 <= j < |w| ==> !IsShellSpace(w[j])
    requires t == [] || IsShellSpace(t[0])
    ensures Words(w + t) == [w] + Words(t)
  {
    var s := w + t;
    var n := WordLength(s);
    assert forall j :: 0 <= j < |w| ==> s[j] == w[j];
    assert |w| < |s| ==> s[|w|] == t[0];
    assert n == |w|;
    assert s[..n] == w && s[n..] == t;
  }

  /** `shlex.split` undoes joining words with single spaces: the words come back one for one. */
  lemma {:induction false} WordsOfJoin(ws: seq<string>)
    requires forall k :: 0 <= k < |ws| ==> ws[k] != []
    requires forall k, j :: 0 <= k < |ws| && 0 <= j < |ws[k]| ==> !IsShellSpace(ws[k][j])
    ensures Words(JoinWith(' ', ws)) == ws
    decreases |ws|
  {
    if |ws| == 1 {
      WordsOfWordThen(ws[0], []);
      assert ws[0] + [] == ws[0];
    } else if |ws| > 1 {
      var rest := JoinWith(' ', ws[1..]);
      var t := [' '] + rest;
      assert JoinWith(' ', ws) == ws[0] + t;
      WordsOfWordThen(ws[0], t);
      assert t[1..] == rest;
      WordsOfJoin(ws[1..]);
      assert ws == [ws[0]] + ws[1..];
    }
  }

  /** A line as `readlines()` gives it: not empty, and no line break except possibly a final one. */
  predicate LineOk(l: string) {
    l != [] && forall j :: 0 <= j < |l| - 1 ==> l[j] != '\n'
  }

  predicate EndsInNewline(l: string) {
    l != [] && l[|l| - 1] == '\n'
  }

  /** The shape of a `readlines()` result: every line but the last ends in a line break. */
  predicate WellFormedLines(ls: seq<string>) {
    (forall k :: 0 <= k < |ls| ==> LineOk(ls[k]))
    && (forall k :: 0 <= k < |ls| - 1 ==> EndsInNewline(ls[k]))
  }

  /** `file.writelines(ls)`: the text the file holds afterwards. */
  function Concat(ls: seq<string>): string {
    if ls == [] then [] else ls[0] + Concat(ls[1..])
  }

  /** `file.readlines()`: the text cut after every line break, so that writing the lines back gives the text again. */
  function Lines(s: string): (ls: seq<string>)
    ensures WellFormedLines(ls)
    ensures Concat(ls) == s
    decreases |s|
  {
    if s == [] then []
    else match IndexOf(s, '\n')
      case None => [s]
      case Some(i) =>
        var rest := Lines(s[i + 1..]);
        assert s == s[..i + 1] + s[i + 1..];
        assert ([s[..i + 1]] + rest)[1..] == rest;
        [s[..i + 1]] + rest
  }

  /** Reading back what `writelines` wrote gives the same lines, provided they have the shape `readlines` gives. */
  lemma {:induction false} LinesOfConcat(ls: seq<string>)
    requires WellFormedLines(ls)
    ensures Lines(Concat(ls)) == ls
  {
    if ls != [] {
      var l := ls[0];
      var rest := ls[1..];
      var s := Concat(ls);
      assert s == l + Concat(rest);
      assert forall j :: 0 <= j < |l| ==> s[j] == l[j];
      if EndsInNewline(l) {
        assert IndexOf(s, '\n') == Some(|l| - 1);
        assert s[..|l|] == l;
        assert s[|l|..] == Concat(rest);
        assert WellFormedLines(rest);
        LinesOfConcat(rest);
        assert ls == [l] + rest;
      } else {
        assert |ls| == 1;
        assert ls[1..] == [];
        assert s == l;
        assert IndexOf(s, '\n') == None;
      }
    }
  }

  /** A complete line appended after lines whose last one is complete keeps the shape `readlines` gives. */
  lemma AppendWellFormed(ls: seq<string>, l: string)
    requires WellFormedLines(ls) && LineOk(l)
    requires ls == [] || EndsInNewline(ls[|ls| - 1])
    ensures WellFormedLines(ls + [l])
  {
    var ls' := ls + [l];
    forall k | 0 <= k < |ls'| - 1
      ensures EndsInNewline(ls'[k])
    {
      assert ls'[k] == ls[k];
    }
  }

  /** A text holding one line, with at most a final line break, reads back as that single line. */
  lemma LinesOfOneLine(l: string)
    requires LineOk(l)
    ensures Lines(l) == [l]
  {
    assert [l][1..] == [];
    assert Concat([l]) == l + Concat([]) == l;
    LinesOfConcat([l]);
  }

  lemma {:induction false} ConcatAppend(ls: seq<string>, l: string)
    ensures Concat(ls + [l]) == Concat(ls) + l
  {
    if ls != [] {
      assert (ls + [l])[1..] == ls[1..] + [l];
      ConcatAppend(ls[1..], l);
    } else {
      assert [] + [l] == [l];
      assert [l][1..] == [];
    }
  }

  /** A line boundary of Python's `str.splitlines()`. */
  predicate IsLineBreak(c: char) {
    ('\n' <= c <= '\r') || ('\U{1C}' <= c <= '\U{1E}') || c == '\U{85}' || c == '\U{2028}' || c == '\U{2029}'
  }

  function FirstBreak(s: string): (n: nat)
    ensures n <= |s|
    ensures forall j :: 0 <= j < n ==> !IsLineBreak(s[j])
    ensures n < |s| ==> IsLineBreak(s[n])
  {
    if s == [] || IsLineBreak(s[0]) then 0 else 1 + FirstBreak(s[1..])
  }

  /** `s.splitlines()`: lines without their boundaries, `\r\n` counting as one boundary. */
  function SplitLines(s: string): (ls: seq<string>)
    ensures forall k, j :: 0 <= k < |ls| && 0 <= j < |ls[k]| ==> !IsLineBreak(ls[k][j])
    ensures |ls| <= |s|
    decreases |s|
  {
    if s == [] then []
    else
      var n := FirstBreak(s);
      if n == |s| then [s]
      else
        var skip := if s[n] == '\r' && n + 1 < |s| && s[n + 1] == '\n' then 2 else 1;
        [s[..n]] + SplitLines(s[n + skip..])
  }

  /** `s` with its line boundaries taken out. */
  function RemoveBreaks(s: string): string
    decreases |s|
  {
    if s == [] then [] else (if IsLineBreak(s[0]) then [] else [s[0]]) + RemoveBreaks(s[1..])
  }

  /** A prefix without line boundaries passes through unchanged. */
  lemma {:induction false} RemoveBreaksKeepsPrefix(s: string, n: nat)
    requires n <= |s| && forall j :: 0 <= j < n ==> !IsLineBreak(s[j])
    ensures RemoveBreaks(s) == s[..n] + RemoveBreaks(s[n..])
    decreases n
  {
    if n > 0 {
      RemoveBreaksKeepsPrefix(s[1..], n - 1);
      assert s[1..][n - 1..] == s[n..];
      assert s[..n] == [s[0]] + s[1..][..n - 1];
    }
  }

  /** The lines of `splitlines()`, written back to back, are the text without its line boundaries. */
  lemma {:induction false} SplitLinesKeepsText(s: string)
    ensures Concat(SplitLines(s)) == RemoveBreaks(s)
    decreases |s|
  {
    if s != [] {
      var n := FirstBreak(s);
      RemoveBreaksKeepsPrefix(s, n);
      if n == |s| {
        assert s[..n] == s && s[n..] == [];
        assert Concat([s]) == s + Concat([]);
      } else {
        var skip := if s[n] == '\r' && n + 1 < |s| && s[n + 1] == '\n' then 2 else 1;
        var after := s[n..];
        assert after[0] == s[n] && after[1..] == s[n + 1..];
        if skip == 2 {
          assert s[n + 1..][0] == s[n + 1] && s[n + 1..][1..] == s[n + 2..];
        }
        assert RemoveBreaks(s[n..]) == RemoveBreaks(s[n + skip..]);
        SplitLinesKeepsText(s[n + skip..]);
        var ls := SplitLines(s);
        assert ls[0] == s[..n] && ls[1..] == SplitLines(s[n + skip..]);
      }
    }
  }
}
