/**
 * `MDPFileManager` (mdp_file_manager.py): reading and rewriting one integer
 * `key = value` line of a GROMACS .mdp parameter file. A file is its text;
 * `readlines()` is `Lines` and `writelines` is `Concat`.
 */
module MdpFile {
  import opened Wrappers
  import opened Text
  import opened Files

  /** The ValueError a key line can raise: no `=` to split on, or a value `int()` rejects. */
  datatype MdpError = NoEquals(index: nat) | NotAnInteger(text: string)

  const NstepsKey := "nsteps"
  const NstlistKey := "nstlist"
  /** Spaces between the key and `=` in a line `write_nsteps` writes. */
  const NstepsPadding: nat := 18
  /** Spaces between the key and `=` in a line `extract_and_replace_nstlist` writes. */
  const NstlistPadding: nat := 17
  /** What `extract_and_replace_nstlist` returns for a missing file. */
  const DefaultNstlist := 300

  /** A key the two writers can use: it starts and ends with a visible character and holds no `=` or line break. */
  predicate ValidKey(key: string) {
    key != [] && !IsSpace(key[0]) && !IsSpace(key[|key| - 1]) && '=' !in key && '\n' !in key
  }

  /** The line test of both readers and writers: the stripped line starts with the key (a prefix test). */
  predicate IsKeyLine(line: string, key: string) {
    StartsWith(Strip(line), key)
  }

  /** The index of the first key line, where the `for` loops stop. */
  function FindKeyLine(lines: seq<string>, key: string): (r: Option<nat>)
    ensures r.Some? ==> r.value < |lines| && IsKeyLine(lines[r.value], key)
    ensures r.Some? ==> forall j :: 0 <= j < r.value ==> !IsKeyLine(lines[j], key)
    ensures r.None? ==> forall j :: 0 <= j < |lines| ==> !IsKeyLine(lines[j], key)
  {
    if lines == [] then None
    else if IsKeyLine(lines[0], key) then Some(0)
    else match FindKeyLine(lines[1..], key)
      case None => None
      case Some(i) => Some(i + 1)
  }

  /** The first key line is the one with no key line before it. */
  lemma FindKeyLineAt(lines: seq<string>, key: string, i: nat)
    requires i < |lines| && IsKeyLine(lines[i], key)
    requires forall j {:trigger IsKeyLine(lines[j], key)} :: 0 <= j < i ==> !IsKeyLine(lines[j], key)
    ensures FindKeyLine(lines, key) == Some(i)
  {
  }

  /** What `read_nsteps`' loop returns for an existing file's lines: the integer after the first `=` of the first key line. */
  function ReadKey(lines: seq<string>, key: string): Result<Option<int>, MdpError> {
    match FindKeyLine(lines, key)
    case None => Ok(None)
    case Some(i) => KeyLineValue(lines[i], i)
  }

  /** `int(value.strip())` for the text after the first `=` of key line number `i`. */
  function KeyLineValue(line: string, i: nat): Result<Option<int>, MdpError> {
    match SplitFirst(line, '=')
    case None => Err(NoEquals(i))
    case Some(parts) =>
      match ParseInt(Strip(parts.1))
      case None => Err(NotAnInteger(Strip(parts.1)))
      case Some(v) => Ok(Some(v))
  }

  /** `read_nsteps(path)`: `None` for a missing file or a file without an nsteps line. */
  function ReadNsteps(files: map<string, string>, path: string): Result<Option<int>, MdpError> {
    if path !in files then Ok(None) else ReadKey(Lines(files[path]), NstepsKey)
  }

  function Spaces(n: nat): (r: string)
    ensures |r| == n && AllSpaces(r) && '=' !in r && '\n' !in r
  {
    seq(n, _ => ' ')
  }

  /** A line the writers produce: a key part, padding, `= `, the value and a line break. */
  function WrittenLine(keyPart: string, pad: nat, v: int): string {
    keyPart + Spaces(pad) + "= " + IntToString(v) + "\n"
  }

  /** The line that replaces a key line whose text before its first `=` is `keyPart`. */
  function RewrittenLine(keyPart: string, pad: nat, v: int): string {
    WrittenLine(RStrip(keyPart), pad, v)
  }

  /** The line appended when the file has no key line. */
  function AppendedLine(key: string, pad: nat, v: int): string {
    WrittenLine(key, pad, v)
  }

  /** The lines a writer leaves in memory: the first key line rewritten, or a key line appended. */
  function RewriteKey(lines: seq<string>, key: string, pad: nat, v: int): Result<seq<string>, MdpError> {
    match FindKeyLine(lines, key)
    case None => Ok(lines + [AppendedLine(key, pad, v)])
    case Some(i) =>
      match SplitFirst(lines[i], '=')
      case None => Err(NoEquals(i))
      case Some(parts) => Ok(lines[i := RewrittenLine(parts.0, pad, v)])
  }

  /** The text a writer leaves in an existing file, or its error (the file is then left as it was). */
  function WriteKey(text: string, key: string, pad: nat, v: int): Result<string, MdpError> {
    match RewriteKey(Lines(text), key, pad, v)
    case Ok(ls) => Ok(Concat(ls))
    case Err(e) => Err(e)
  }

  /**
   * The loop shared by `write_nsteps` and `extract_and_replace_nstlist`: read
   * the lines, rewrite the first key line in place or append one, and write
   * the whole file back. A missing file is left alone.
   */
  method ReplaceKeyLine(dir: WorkDir, path: string, key: string, pad: nat, v: int) returns (r: Outcome<MdpError>)
    modifies dir
    ensures path !in old(dir.files) ==> r == Pass && dir.files == old(dir.files)
    ensures path in old(dir.files) ==>
      match WriteKey(old(dir.files)[path], key, pad, v)
      case Ok(text) => r == Pass && dir.files == old(dir.files)[path := text]
      case Err(e) => r == Fail(e) && dir.files == old(dir.files)
  {
    if path !in dir.files {
      return Pass;
    }
    var lines := Lines(dir.files[path]);
    ghost var original := lines;
    var i := FirstKeyLineIndex(lines, key);
    if i < |lines| {
      var parts := SplitFirst(lines[i], '=');
      if parts.None? {
        assert RewriteKey(original, key, pad, v) == Err(NoEquals(i));
        return Fail(NoEquals(i));
      }
      lines := lines[i := RewrittenLine(parts.value.0, pad, v)];
    } else {
      lines := lines + [AppendedLine(key, pad, v)];
    }
    assert RewriteKey(original, key, pad, v) == Ok(lines);
    dir.files := dir.files[path := Concat(lines)];
    r := Pass;
  }

  /** The scan of the writers' `for` loop: the index where it breaks, or the number of lines if it never does. */
  method FirstKeyLineIndex(lines: seq<string>, key: string) returns (i: nat)
    ensures i <= |lines|
    ensures i < |lines| <==> FindKeyLine(lines, key) == Some(i)
    ensures i == |lines| <==> FindKeyLine(lines, key) == None
  {
    i := 0;
    while i < |lines| && !IsKeyLine(lines[i], key)
      invariant 0 <= i <= |lines|
      invariant forall j {:trigger IsKeyLine(lines[j], key)} :: 0 <= j < i ==> !IsKeyLine(lines[j], key)
    {
      i := i + 1;
    }
  }

  /** `write_nsteps(path, v)`. */
  method WriteNsteps(dir: WorkDir, path: string, v: int) returns (r: Outcome<MdpError>)
    modifies dir
    ensures path !in old(dir.files) ==> r == Pass && dir.files == old(dir.files)
    ensures path in old(dir.files) ==>
      match WriteKey(old(dir.files)[path], NstepsKey, NstepsPadding, v)
      case Ok(text) => r == Pass && dir.files == old(dir.files)[path := text]
      case Err(e) => r == Fail(e) && dir.files == old(dir.files)
  {
    r := ReplaceKeyLine(dir, path, NstepsKey, NstepsPadding, v);
  }

  /** `extract_and_replace_nstlist(path, nstlist)`: forces the value and returns the argument, or 300 for a missing file. */
  method ExtractAndReplaceNstlist(dir: WorkDir, path: string, nstlist: int) returns (r: Result<int, MdpError>)
    modifies dir
    ensures path !in old(dir.files) ==> r == Ok(DefaultNstlist) && dir.files == old(dir.files)
    ensures path in old(dir.files) ==>
      match WriteKey(old(dir.files)[path], NstlistKey, NstlistPadding, nstlist)
      case Ok(text) => r == Ok(nstlist) && dir.files == old(dir.files)[path := text]
      case Err(e) => r == Err(e) && dir.files == old(dir.files)
  {
    if path !in dir.files {
      return Ok(DefaultNstlist);
    }
    var o := ReplaceKeyLine(dir, path, NstlistKey, NstlistPadding, nstlist);
    r := if o.Pass? then Ok(nstlist) else Err(o.error);
  }

  // ---------------------------------------------------------------------
  // Properties of reading and writing
  // ---------------------------------------------------------------------

  /** A key line of a valid key is, after its leading whitespace, the key itself. */
  lemma {:induction false} KeyLineShape(line: string, key: string) returns (a: nat)
    requires ValidKey(key) && IsKeyLine(line, key)
    ensures a + |key| <= |line| && AllSpaces(line[..a]) && line[a..a + |key|] == key
  {
    var t := RStrip(line);
    LeadingSpacesSpec(t);
    var l := LStrip(t);
    a := |t| - |l|;
    assert l == t[a..];
    assert l[..|key|] == key;
    assert t == line[..|t|];
    assert line[..a] == t[..a];
    assert forall j :: 0 <= j < |key| ==> line[a + j] == l[j];
  }

  /** Any text whose visible part starts right after whitespace with a valid key is a key line. */
  lemma {:induction false} KeyLineFromShape(pre: string, key: string, rest: string)
    requires ValidKey(key) && AllSpaces(pre)
    ensures IsKeyLine(pre + key + rest, key)
  {
    var s := pre + key + rest;
    RStripKeepsVisibleEnd(pre + key, rest);
    var t := RStrip(s);
    assert t == pre + key + t[|pre| + |key|..] by {
      assert t[..|pre| + |key|] == pre + key;
    }
    assert t == pre + (key + t[|pre| + |key|..]);
    LStripSkipsSpaces(pre, key + t[|pre| + |key|..]);
  }

  /** The first `=` of a key line comes after its key. */
  lemma {:induction false} KeyPartShape(line: string, key: string) returns (a: nat, m: string)
    requires ValidKey(key) && IsKeyLine(line, key) && SplitFirst(line, '=').Some?
    ensures a <= |line| && AllSpaces(line[..a])
    ensures SplitFirst(line, '=').value.0 == line[..a] + key + m
  {
    a := KeyLineShape(line, key);
    var k := SplitFirst(line, '=').value.0;
    assert line == k + "=" + SplitFirst(line, '=').value.1;
    assert forall j :: 0 <= j < |key| ==> line[a + j] == key[j];
    m := k[a + |key|..];
    assert k[..a] == line[..a];
    assert k[a..a + |key|] == key;
    assert k == k[..a] + k[a..a + |key|] + m;
  }

  /** A written line whose key part starts with the key is a key line with a single, final line break. */
  lemma {:induction false} WrittenLineShape(kp: string, pad: nat, v: int, key: string, lead: string)
    requires ValidKey(key) && AllSpaces(lead)
    requires '\n' !in kp && StartsWith(kp, lead + key)
    ensures IsKeyLine(WrittenLine(kp, pad, v), key)
    ensures LineOk(WrittenLine(kp, pad, v)) && EndsInNewline(WrittenLine(kp, pad, v))
  {
    var d := IntToString(v);
    var line := WrittenLine(kp, pad, v);
    var rest := kp[|lead + key|..] + Spaces(pad) + "= " + d + "\n";
    assert kp == lead + key + kp[|lead + key|..];
    assert line == lead + key + rest;
    KeyLineFromShape(lead, key, rest);
    WrittenLineOk(kp, pad, v);
  }

  /** A written line has a single line break, at its end. */
  lemma {:induction false} WrittenLineOk(kp: string, pad: nat, v: int)
    requires '\n' !in kp
    ensures LineOk(WrittenLine(kp, pad, v)) && EndsInNewline(WrittenLine(kp, pad, v))
  {
    var d := IntToString(v);
    var line := WrittenLine(kp, pad, v);
    var head := kp + Spaces(pad);
    assert line == head + ("= " + d) + "\n";
    assert forall j :: 0 <= j < |d| ==> d[j] != '\n';
    assert forall j :: 0 <= j < |head| ==> head[j] != '\n';
  }

  /** The first `=` of a written line is the one the writer put after the padding. */
  lemma {:induction false} WrittenLineSplit(kp: string, pad: nat, v: int)
    requires '=' !in kp
    ensures SplitFirst(WrittenLine(kp, pad, v), '=') == Some((kp + Spaces(pad), " " + IntToString(v) + "\n"))
  {
    var d := IntToString(v);
    var line := WrittenLine(kp, pad, v);
    var head := kp + Spaces(pad);
    assert '=' !in head;
    assert line == head + "=" + (" " + d + "\n");
    assert forall j :: 0 <= j < |head| ==> line[j] == head[j];
    assert line[|head|] == '=';
    assert IndexOf(line, '=') == Some(|head|);
    assert line[..|head|] == head;
    assert line[|head| + 1..] == " " + d + "\n";
  }

  /** A reader finds the written value in a written line. */
  lemma {:induction false} ReadWrittenValue(kp: string, pad: nat, v: int, i: nat)
    requires '=' !in kp
    ensures KeyLineValue(WrittenLine(kp, pad, v), i) == Ok(Some(v))
  {
    WrittenLineSplit(kp, pad, v);
    StripPadded(" ", IntToString(v), "\n");
  }

  lemma RStripIdempotent(s: string)
    ensures RStrip(RStrip(s)) == RStrip(s)
  {
    TrailingSpacesSpec(s);
    var r := RStrip(s);
    TrailingSpacesSpec(r);
  }

  /** The key part a rewrite keeps: right-stripped, it still starts with the key after the line's indentation. */
  lemma {:induction false} RewrittenKeyPart(line: string, key: string) returns (lead: string)
    requires ValidKey(key) && LineOk(line) && IsKeyLine(line, key) && SplitFirst(line, '=').Some?
    ensures AllSpaces(lead)
    ensures var rk := RStrip(SplitFirst(line, '=').value.0);
      '=' !in rk && '\n' !in rk && StartsWith(rk, lead + key)
  {
    var a, m := KeyPartShape(line, key);
    var kp := SplitFirst(line, '=').value.0;
    lead := line[..a];
    assert kp == lead + key + m;
    RStripKeepsVisibleEnd(lead + key, m);
    var rk := RStrip(kp);
    assert StartsWith(rk, lead + key);
    assert '\n' !in kp by {
      assert line == kp + "=" + SplitFirst(line, '=').value.1;
      assert forall j :: 0 <= j < |kp| ==> kp[j] == line[j];
    }
    assert rk == kp[..|rk|];
  }

  /** Rewriting an existing key line touches no other line, and the line still reads back as the new value. */
  lemma {:induction false} RewriteFoundShape(lines: seq<string>, key: string, pad: nat, v: int, i: nat)
    requires ValidKey(key) && WellFormedLines(lines)
    requires FindKeyLine(lines, key) == Some(i) && RewriteKey(lines, key, pad, v).Ok?
    ensures var ls := RewriteKey(lines, key, pad, v).value;
      |ls| == |lines| && IsKeyLine(ls[i], key) && LineOk(ls[i]) && EndsInNewline(ls[i])
      && (forall j :: 0 <= j < |lines| && j != i ==> ls[j] == lines[j])
      && ReadKey(ls, key) == Ok(Some(v))
  {
    var ls := RewriteKey(lines, key, pad, v).value;
    var kp := SplitFirst(lines[i], '=').value.0;
    var lead := RewrittenKeyPart(lines[i], key);
    var rk := RStrip(kp);
    assert ls == lines[i := WrittenLine(rk, pad, v)];
    WrittenLineShape(rk, pad, v, key, lead);
    ReadWrittenValue(rk, pad, v, i);
    assert forall j :: 0 <= j < i ==> ls[j] == lines[j];
    FindKeyLineAt(ls, key, i);
  }

  /** Without a key line, the rewrite appends one key line and keeps every existing line. */
  lemma {:induction false} RewriteAppendShape(lines: seq<string>, key: string, pad: nat, v: int)
    requires ValidKey(key) && FindKeyLine(lines, key) == None
    ensures RewriteKey(lines, key, pad, v).Ok?
    ensures var ls := RewriteKey(lines, key, pad, v).value;
      |ls| == |lines| + 1 && ls[..|lines|] == lines
      && IsKeyLine(ls[|lines|], key) && LineOk(ls[|lines|]) && EndsInNewline(ls[|lines|])
      && ReadKey(ls, key) == Ok(Some(v))
  {
    var line := AppendedLine(key, pad, v);
    var ls := lines + [line];
    assert StartsWith(key, [] + key);
    assert AllSpaces([]);
    WrittenLineShape(key, pad, v, key, []);
    ReadWrittenValue(key, pad, v, |lines|);
    assert ls[|lines|] == line;
    assert forall j :: 0 <= j < |lines| ==> ls[j] == lines[j];
    FindKeyLineAt(ls, key, |lines|);
    assert ls[..|lines|] == lines;
  }
}

module MdpFileProperties {
  import opened Wrappers
  import opened Text
  import opened MdpFile

  lemma KeysAreValid()
    ensures ValidKey(NstepsKey) && ValidKey(NstlistKey)
  {
    assert NstepsKey == ['n', 's', 't', 'e', 'p', 's'];
    assert NstlistKey == ['n', 's', 't', 'l', 'i', 's', 't'];
  }

  /** The last line `readlines` gives ends in a line break exactly when the text does. */
  lemma {:induction false} LastLineEnding(text: string)
    requires text != []
    ensures Lines(text) != []
    ensures EndsInNewline(Lines(text)[|Lines(text)| - 1]) <==> text[|text| - 1] == '\n'
  {
    var ls := Lines(text);
    var n := |ls|;
    assert n > 0;
    assert ls == ls[..n - 1] + [ls[n - 1]];
    ConcatAppend(ls[..n - 1], ls[n - 1]);
    assert text == Concat(ls[..n - 1]) + ls[n - 1];
    assert text[|text| - 1] == ls[n - 1][|ls[n - 1]| - 1];
  }

  /** A writer can append its key line as a line of its own: the file is empty or ends in a line break, or already has a key line. */
  predicate Appendable(text: string, key: string) {
    text == [] || text[|text| - 1] == '\n' || FindKeyLine(Lines(text), key).Some?
  }

  /** Rewriting a key line in place keeps the shape `readlines` gives. */
  lemma {:induction false} RewriteFoundWellFormed(lines: seq<string>, key: string, pad: nat, v: int, i: nat)
    requires ValidKey(key) && WellFormedLines(lines)
    requires FindKeyLine(lines, key) == Some(i) && RewriteKey(lines, key, pad, v).Ok?
    ensures WellFormedLines(RewriteKey(lines, key, pad, v).value)
  {
    RewriteFoundShape(lines, key, pad, v, i);
  }

  /** Appending a key line after a last line that ends in a line break keeps the shape `readlines` gives. */
  lemma {:induction false} RewriteAppendWellFormed(lines: seq<string>, key: string, pad: nat, v: int)
    requires ValidKey(key) && WellFormedLines(lines) && FindKeyLine(lines, key) == None
    requires lines == [] || EndsInNewline(lines[|lines| - 1])
    ensures WellFormedLines(RewriteKey(lines, key, pad, v).value)
  {
    var line := AppendedLine(key, pad, v);
    assert StartsWith(key, [] + key);
    assert AllSpaces([]);
    WrittenLineShape(key, pad, v, key, []);
    AppendWellFormed(lines, line);
  }

  /** The lines a successful rewrite leaves have the shape `readlines` gives, and the new key line reads back as `v`. */
  lemma {:induction false} RewriteWellFormed(lines: seq<string>, key: string, pad: nat, v: int)
    requires ValidKey(key) && WellFormedLines(lines) && RewriteKey(lines, key, pad, v).Ok?
    requires lines == [] || EndsInNewline(lines[|lines| - 1]) || FindKeyLine(lines, key).Some?
    ensures WellFormedLines(RewriteKey(lines, key, pad, v).value)
    ensures ReadKey(RewriteKey(lines, key, pad, v).value, key) == Ok(Some(v))
  {
    match FindKeyLine(lines, key)
    case Some(i) =>
      RewriteFoundWellFormed(lines, key, pad, v, i);
      RewriteFoundShape(lines, key, pad, v, i);
    case None =>
      RewriteAppendWellFormed(lines, key, pad, v);
      RewriteAppendShape(lines, key, pad, v);
  }

  /** Reading the file a successful write left gives back the rewritten lines, so the new key line reads back as `v`. */
  lemma {:induction false} WriteKeepsLines(text: string, key: string, pad: nat, v: int)
    requires ValidKey(key) && Appendable(text, key) && WriteKey(text, key, pad, v).Ok?
    ensures Lines(WriteKey(text, key, pad, v).value) == RewriteKey(Lines(text), key, pad, v).value
    ensures ReadKey(Lines(WriteKey(text, key, pad, v).value), key) == Ok(Some(v))
  {
    AppendableLines(text, key);
    var rewritten := RewriteKey(Lines(text), key, pad, v).value;
    RewriteWellFormed(Lines(text), key, pad, v);
    WrittenReadsBack(text, key, pad, v);
  }

  /** The text a successful write leaves reads back as the rewritten lines, once those have the shape `readlines` gives. */
  lemma WrittenReadsBack(text: string, key: string, pad: nat, v: int)
    requires WriteKey(text, key, pad, v).Ok? && WellFormedLines(RewriteKey(Lines(text), key, pad, v).value)
    ensures Lines(WriteKey(text, key, pad, v).value) == RewriteKey(Lines(text), key, pad, v).value
  {
    ConcatReadsBack(RewriteKey(Lines(text), key, pad, v).value, WriteKey(text, key, pad, v).value);
  }

  lemma ConcatReadsBack(ls: seq<string>, w: string)
    requires WellFormedLines(ls) && w == Concat(ls)
    ensures Lines(w) == ls
  {
    LinesOfConcat(ls);
  }

  /** A file `Appendable` describes reads as lines after which a key line can be appended or rewritten. */
  lemma AppendableLines(text: string, key: string)
    requires Appendable(text, key)
    ensures var ls := Lines(text); ls == [] || EndsInNewline(ls[|ls| - 1]) || FindKeyLine(ls, key).Some?
  {
    if text != [] && FindKeyLine(Lines(text), key).None? {
      LastLineEnding(text);
    }
  }

  /** `write_nsteps(path, v)` followed by `read_nsteps(path)` returns `v`. */
  lemma WriteThenReadNsteps(files: map<string, string>, path: string, v: int)
    requires path in files && Appendable(files[path], NstepsKey)
    requires WriteKey(files[path], NstepsKey, NstepsPadding, v).Ok?
    ensures ReadNsteps(files[path := WriteKey(files[path], NstepsKey, NstepsPadding, v).value], path) == Ok(Some(v))
  {
    KeysAreValid();
    WriteKeepsLines(files[path], NstepsKey, NstepsPadding, v);
  }

  /** A key line the writer produced is rewritten to itself. */
  lemma {:induction false} RewriteWrittenLine(lines: seq<string>, key: string, pad: nat, v: int, i: nat, kp: string)
    requires FindKeyLine(lines, key) == Some(i) && lines[i] == WrittenLine(kp, pad, v)
    requires '=' !in kp && RStrip(kp) == kp
    ensures RewriteKey(lines, key, pad, v) == Ok(lines)
  {
    WrittenLineSplit(kp, pad, v);
    RStripPadded(kp, Spaces(pad));
    assert RewrittenLine(kp + Spaces(pad), pad, v) == lines[i];
    assert lines[i := lines[i]] == lines;
  }

  /** After rewriting a key line in place, a second rewrite with the same value changes nothing. */
  lemma {:induction false} RewriteFoundIdempotent(lines: seq<string>, key: string, pad: nat, v: int, i: nat)
    requires ValidKey(key) && WellFormedLines(lines)
    requires FindKeyLine(lines, key) == Some(i) && RewriteKey(lines, key, pad, v).Ok?
    ensures var ls := RewriteKey(lines, key, pad, v).value;
      RewriteKey(ls, key, pad, v) == Ok(ls)
  {
    var ls := RewriteKey(lines, key, pad, v).value;
    RewriteFoundShape(lines, key, pad, v, i);
    var kp0 := SplitFirst(lines[i], '=').value.0;
    var kp := RStrip(kp0);
    assert ls[i] == WrittenLine(kp, pad, v);
    TrailingSpacesSpec(kp0);
    assert kp == kp0[..|kp|];
    RStripIdempotent(kp0);
    assert forall j :: 0 <= j < i ==> ls[j] == lines[j];
    FindKeyLineAt(ls, key, i);
    RewriteWrittenLine(ls, key, pad, v, i, kp);
  }

  /** After appending a key line, a second rewrite with the same value changes nothing. */
  lemma {:induction false} RewriteAppendIdempotent(lines: seq<string>, key: string, pad: nat, v: int)
    requires ValidKey(key) && FindKeyLine(lines, key) == None
    ensures var ls := RewriteKey(lines, key, pad, v).value;
      RewriteKey(ls, key, pad, v) == Ok(ls)
  {
    var ls := RewriteKey(lines, key, pad, v).value;
    RewriteAppendShape(lines, key, pad, v);
    assert ls[|lines|] == WrittenLine(key, pad, v);
    assert forall j :: 0 <= j < |lines| ==> ls[j] == lines[j];
    FindKeyLineAt(ls, key, |lines|);
    TrailingSpacesSpec(key);
    RewriteWrittenLine(ls, key, pad, v, |lines|, key);
  }

  /** Writing the same value a second time leaves the file as the first write left it. */
  lemma {:induction false} WriteIdempotent(text: string, key: string, pad: nat, v: int)
    requires ValidKey(key) && Appendable(text, key) && WriteKey(text, key, pad, v).Ok?
    ensures WriteKey(WriteKey(text, key, pad, v).value, key, pad, v) == WriteKey(text, key, pad, v)
  {
    var ls := Lines(text);
    var ls' := RewriteKey(ls, key, pad, v).value;
    var w := WriteKey(text, key, pad, v).value;
    WriteKeepsLines(text, key, pad, v);
    assert Lines(w) == ls';
    match FindKeyLine(ls, key)
    case Some(i) => RewriteFoundIdempotent(ls, key, pad, v, i);
    case None => RewriteAppendIdempotent(ls, key, pad, v);
    assert RewriteKey(Lines(w), key, pad, v) == Ok(ls');
  }

  /**
   * Without a final line break the appended key line is glued onto the last
   * line: a one-line file that does not start with the key gets the key
   * written, yet reading it back finds no key line.
   */
  lemma {:induction false} GluedAppendIsLost(text: string, key: string, pad: nat, v: int)
    requires ValidKey(key) && text != [] && '\n' !in text
    requires !IsSpace(text[0]) && text[0] != key[0]
    ensures WriteKey(text, key, pad, v) == Ok(text + AppendedLine(key, pad, v))
    ensures ReadKey(Lines(text + AppendedLine(key, pad, v)), key) == Ok(None)
  {
    var line := AppendedLine(key, pad, v);
    var written := text + line;
    assert WriteKey(text, key, pad, v) == Ok(written) by {
      LinesOfOneLine(text);
      VisibleFirstChar(text);
      assert FindKeyLine([text], key) == None;
      ConcatAppend([text], line);
    }
    assert ReadKey(Lines(written), key) == Ok(None) by {
      assert written == WrittenLine(text + key, pad, v);
      WrittenLineOk(text + key, pad, v);
      LinesOfOneLine(written);
      VisibleFirstChar(written);
      assert FindKeyLine([written], key) == None;
    }
  }

  /** For instance, `nsteps` written to a file holding only `dt = 0.002`, with no final line break, cannot be read back. */
  lemma GluedNstepsExample(v: int)
    ensures var written := "dt = 0.002" + AppendedLine(NstepsKey, NstepsPadding, v);
      WriteKey("dt = 0.002", NstepsKey, NstepsPadding, v) == Ok(written)
      && ReadNsteps(map["step5_production.mdp" := written], "step5_production.mdp") == Ok(None)
  {
    KeysAreValid();
    GluedAppendIsLost("dt = 0.002", NstepsKey, NstepsPadding, v);
  }

  /** A rewrite fails only on a key line without `=`, where the reader fails the same way. */
  lemma WriteFailsLikeRead(lines: seq<string>, key: string, pad: nat, v: int)
    ensures RewriteKey(lines, key, pad, v).Err? <==>
      FindKeyLine(lines, key).Some? && '=' !in lines[FindKeyLine(lines, key).value]
    ensures RewriteKey(lines, key, pad, v).Err? ==> ReadKey(lines, key) == Err(RewriteKey(lines, key, pad, v).error)
  {
  }

  /** Only the first key line is read: lines after it, key lines included, do not change the result. */
  lemma ReadIgnoresLaterLines(lines: seq<string>, more: seq<string>, key: string)
    requires FindKeyLine(lines, key).Some?
    ensures ReadKey(lines + more, key) == ReadKey(lines, key)
  {
    var i := FindKeyLine(lines, key).value;
    assert forall j :: 0 <= j <= i ==> (lines + more)[j] == lines[j];
    FindKeyLineAt(lines + more, key, i);
  }
}
