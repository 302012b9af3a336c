/** The env-file codec: a text is a list of lines, some of them assignments;
    a patch rewrites the first assignment of each key and appends the rest. */
module EnvFile {
  import opened Lifecycle

  datatype EnvLine = EnvLine(raw: string, key: string, value: string, isKV: bool)

  // ------------------------------------------------------------------- Text

  predicate IsSpace(c: char) {
    c == ' ' || '\t' <= c <= '\r' || c == '\U{85}' || c == '\U{A0}' || c == '\U{1680}'
    || '\U{2000}' <= c <= '\U{200A}' || c == '\U{2028}' || c == '\U{2029}' || c == '\U{202F}' || c == '\U{205F}'
    || c == '\U{3000}'
  }

  function TrimLeft(s: string): (t: string)
    ensures |t| <= |s|
  {
    if s != "" && IsSpace(s[0]) then TrimLeft(s[1..]) else s
  }

  function TrimRight(s: string): (t: string)
    ensures |t| <= |s|
  {
    if s != "" && IsSpace(s[|s| - 1]) then TrimRight(s[..|s| - 1]) else s
  }

  function Trim(s: string): string {
    TrimRight(TrimLeft(s))
  }

  predicate IsKeyChar(c: char) {
    'A' <= c <= 'Z' || '0' <= c <= '9' || c == '_'
  }

  predicate IsEnvKey(key: string) {
    key != "" && forall i :: 0 <= i < |key| ==> IsKeyChar(key[i])
  }

  /** The position of the first '=', or the length of the text. */
  function Equals(s: string): (n: nat)
    ensures n <= |s|
  {
    if s == "" || s[0] == '=' then 0 else 1 + Equals(s[1..])
  }

  function ParseLine(raw: string): EnvLine {
    var trimmed := Trim(raw);
    var n := Equals(raw);
    if trimmed != "" && trimmed[0] != '#' && 0 < n < |raw| && IsEnvKey(Trim(raw[..n])) then
      EnvLine(raw, Trim(raw[..n]), raw[n + 1..], true)
    else
      EnvLine(raw, "", "", false)
  }

  function Split(text: string): (parts: seq<string>)
    ensures parts != []
  {
    if text == "" then [""]
    else
      var rest := Split(text[1..]);
      if text[0] == '\n' then [""] + rest else [[text[0]] + rest[0]] + rest[1..]
  }

  function WithoutLastEmpty(parts: seq<string>): seq<string> {
    if parts != [] && parts[|parts| - 1] == "" then parts[..|parts| - 1] else parts
  }

  function ParseAll(parts: seq<string>): (lines: seq<EnvLine>)
    ensures |lines| == |parts|
  {
    seq(|parts|, i requires 0 <= i < |parts| => ParseLine(parts[i]))
  }

  function Parse(text: string): seq<EnvLine> {
    ParseAll(WithoutLastEmpty(Split(text)))
  }

  function Print(lines: seq<EnvLine>): string {
    if lines == [] then "" else lines[0].raw + "\n" + Print(lines[1..])
  }

  /** A line as it would be read back. */
  predicate Readable(line: EnvLine) {
    '\n' !in line.raw && ParseLine(line.raw) == line
  }

  predicate AllReadable(lines: seq<EnvLine>) {
    forall i :: 0 <= i < |lines| ==> Readable(lines[i])
  }

  // ------------------------------------------------------------ Round trips

  lemma {:induction false} SplitLine(line: string, rest: string)
    requires '\n' !in line
    ensures Split(line + "\n" + rest) == [line] + Split(rest)
  {
    var text := line + "\n" + rest;
    if line == "" {
      assert text[1..] == rest;
    } else {
      SplitLine(line[1..], rest);
      assert text[1..] == line[1..] + "\n" + rest;
      assert line == [line[0]] + line[1..];
    }
  }

  function Raws(lines: seq<EnvLine>): (raws: seq<string>)
    ensures |raws| == |lines|
  {
    seq(|lines|, i requires 0 <= i < |lines| => lines[i].raw)
  }

  lemma {:induction false} SplitPrinted(lines: seq<EnvLine>)
    requires AllReadable(lines)
    ensures Split(Print(lines)) == Raws(lines) + [""]
  {
    if lines == [] {
    } else {
      SplitPrinted(lines[1..]);
      SplitLine(lines[0].raw, Print(lines[1..]));
      assert Raws(lines) == [lines[0].raw] + Raws(lines[1..]);
    }
  }

  /** Reading what was printed gives the lines back. */
  lemma ParseUndoesPrint(lines: seq<EnvLine>)
    requires AllReadable(lines)
    ensures Parse(Print(lines)) == lines
  {
    SplitPrinted(lines);
    assert WithoutLastEmpty(Raws(lines) + [""]) == Raws(lines);
  }

  lemma {:induction false} SplitHasNoNewlines(text: string)
    ensures forall i :: 0 <= i < |Split(text)| ==> '\n' !in Split(text)[i]
  {
    if text != "" {
      SplitHasNoNewlines(text[1..]);
    }
  }

  lemma ParsedIsReadable(text: string)
    ensures AllReadable(Parse(text))
  {
    SplitHasNoNewlines(text);
  }

  function Terminated(text: string): string {
    if text == "" || text[|text| - 1] == '\n' then text else text + "\n"
  }

  function PrintRaws(parts: seq<string>): string {
    if parts == [] then "" else parts[0] + "\n" + PrintRaws(parts[1..])
  }

  lemma {:induction false} PrintsRaws(parts: seq<string>)
    ensures Print(ParseAll(parts)) == PrintRaws(parts)
  {
    if parts != [] {
      PrintsRaws(parts[1..]);
      assert ParseAll(parts)[1..] == ParseAll(parts[1..]);
    }
  }

  /** How the printed form grows when a character is put in front of the text. */
  lemma NewlineInFront(parts: seq<string>)
    requires parts != []
    ensures PrintRaws(WithoutLastEmpty([""] + parts)) == "\n" + PrintRaws(WithoutLastEmpty(parts))
  {
    assert WithoutLastEmpty([""] + parts) == [""] + WithoutLastEmpty(parts);
  }

  lemma CharInFront(c: char, parts: seq<string>)
    requires |parts| > 1
    ensures PrintRaws(WithoutLastEmpty([[c] + parts[0]] + parts[1..])) == [c] + PrintRaws(WithoutLastEmpty(parts))
  {
    var head := [c] + parts[0];
    var rest := WithoutLastEmpty(parts[1..]);
    assert WithoutLastEmpty([head] + parts[1..]) == [head] + rest;
    assert WithoutLastEmpty(parts) == [parts[0]] + rest;
    assert head + "\n" + PrintRaws(rest) == [c] + (parts[0] + "\n" + PrintRaws(rest));
  }

  lemma {:induction false} RawsOfSplit(text: string)
    ensures PrintRaws(WithoutLastEmpty(Split(text))) == Terminated(text)
  {
    if text != "" {
      var rest := text[1..];
      RawsOfSplit(rest);
      NewlineInFront(Split(rest));
      if |Split(rest)| > 1 { CharInFront(text[0], Split(rest)); }
      assert text == [text[0]] + rest;
      if text[0] != '\n' && |Split(rest)| == 1 {
        OnePart(rest);
        assert Split(text) == [text];
        assert PrintRaws([text]) == text + "\n";
      }
    }
  }

  lemma {:induction false} OnePart(text: string)
    requires |Split(text)| == 1
    ensures Split(text) == [text] && '\n' !in text
  {
    if text != "" {
      OnePart(text[1..]);
      assert text == [text[0]] + text[1..];
    }
  }

  /** Printing what was read gives the text back, with its last line ended. */
  lemma PrintUndoesParse(text: string)
    ensures Print(Parse(text)) == Terminated(text)
  {
    PrintsRaws(WithoutLastEmpty(Split(text)));
    RawsOfSplit(text);
  }

  // ------------------------------------------------------------ Assignments

  function KV(key: string, value: string): EnvLine {
    EnvLine(key + "=" + value, key, value, true)
  }

  lemma {:induction false} EqualsAfterKey(key: string, value: string)
    requires '=' !in key
    ensures Equals(key + "=" + value) == |key|
  {
    if key != "" {
      EqualsAfterKey(key[1..], value);
      assert (key + "=" + value)[1..] == key[1..] + "=" + value;
    }
  }

  lemma {:induction false} TrimRightKeepsFirst(s: string)
    requires s != "" && !IsSpace(s[0])
    ensures TrimRight(s) != "" && TrimRight(s)[0] == s[0]
  {
    if IsSpace(s[|s| - 1]) {
      TrimRightKeepsFirst(s[..|s| - 1]);
    }
  }

  /** An assignment the deployer writes is read back as it was meant. */
  lemma AssignmentIsReadable(key: string, value: string)
    requires IsEnvKey(key) && '\n' !in value
    ensures Readable(KV(key, value))
  {
    var raw := key + "=" + value;
    assert forall i :: 0 <= i < |key| ==> IsKeyChar(key[i]) && key[i] != '=' && key[i] != '\n';
    EqualsAfterKey(key, value);
    assert raw[..|key|] == key && raw[|key| + 1..] == value;
    assert IsKeyChar(key[0]) && raw[0] == key[0];
    TrimRightKeepsFirst(raw);
    assert IsKeyChar(key[|key| - 1]);
    assert TrimRight(key) == key;
  }

  // ------------------------------------------------------------------ Values

  /** What the lines assign: the last assignment of a key wins. */
  function Values(lines: seq<EnvLine>): map<string, string> {
    if lines == [] then map[]
    else
      var before := Values(lines[..|lines| - 1]);
      var last := lines[|lines| - 1];
      if last.isKV then before[last.key := last.value] else before
  }

  predicate Assigns(line: EnvLine, key: string) {
    line.isKV && line.key == key
  }

  predicate IsLast(lines: seq<EnvLine>, i: int, key: string) {
    0 <= i < |lines| && Assigns(lines[i], key) && forall j :: i < j < |lines| ==> !Assigns(lines[j], key)
  }

  lemma {:induction false} ValueIsLast(lines: seq<EnvLine>, key: string)
    ensures key !in Values(lines) <==> forall i :: 0 <= i < |lines| ==> !Assigns(lines[i], key)
    ensures forall i :: IsLast(lines, i, key) ==> key in Values(lines) && Values(lines)[key] == lines[i].value
    ensures key in Values(lines) ==> exists i :: IsLast(lines, i, key)
  {
    if lines != [] {
      var n := |lines| - 1;
      ValueIsLast(lines[..n], key);
      if Assigns(lines[n], key) {
        assert IsLast(lines, n, key);
      } else {
        forall i | IsLast(lines, i, key) ensures IsLast(lines[..n], i, key) { }
        if key in Values(lines[..n]) {
          var i :| IsLast(lines[..n], i, key);
          assert IsLast(lines, i, key);
        }
      }
    }
  }
}
