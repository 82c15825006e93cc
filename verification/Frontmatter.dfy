/** The leading `---` block of a skill file, as `key: value` pairs, block scalars folded to one line. */
module Frontmatter {
  import opened Json
  import opened Text

  // --- Lines ----------------------------------------------------------------------------------

  function NewlineIn(s: string): (r: Option<nat>)
    ensures r.Some? ==> r.value < |s| && s[r.value] == '\n' && '\n' !in s[..r.value]
    ensures r.None? ==> '\n' !in s
  {
    if s == "" then None
    else if s[0] == '\n' then Some(0)
    else
      var rest := NewlineIn(s[1..]);
      if rest.Some? then Some(rest.value + 1) else None
  }

  function StripCR(s: string): string {
    if s != "" && s[|s| - 1] == '\r' then s[..|s| - 1] else s
  }

  /** `split(/\r?\n/)` */
  function Lines(s: string): (r: seq<string>)
    ensures |r| > 0
    decreases |s|
  {
    match NewlineIn(s)
    case None => [s]
    case Some(i) => [StripCR(s[..i])] + Lines(s[i + 1..])
  }

  // --- Folding ----------------------------------------------------------------------------------

  /** Every run of whitespace becomes one space. */
  function Squeeze(s: string): string {
    if s == "" then ""
    else if !Space(s[0]) then [s[0]] + Squeeze(s[1..])
    else if |s| > 1 && Space(s[1]) then Squeeze(s[1..])
    else " " + Squeeze(s[1..])
  }

  /** Whitespace runs collapsed, ends trimmed. */
  function Collapse(s: string): string {
    Trim(Squeeze(s))
  }

  function Join(parts: seq<string>): string {
    if parts == [] then "" else if |parts| == 1 then parts[0] else parts[0] + " " + Join(parts[1..])
  }

  /** A line that belongs to a block scalar: blank, or indented. */
  predicate Continues(line: string) {
    Trim(line) == "" || (line != "" && Space(line[0]))
  }

  /** How far a block scalar reaches. */
  function BlockEnd(lines: seq<string>, at: nat): (r: nat)
    requires at <= |lines|
    ensures at <= r <= |lines|
    decreases |lines| - at
  {
    if at < |lines| && Continues(lines[at]) then BlockEnd(lines, at + 1) else at
  }

  function Trimmed(lines: seq<string>): (r: seq<string>)
    ensures |r| == |lines| && forall i :: 0 <= i < |r| ==> r[i] == Trim(lines[i])
  {
    seq(|lines|, i requires 0 <= i < |lines| => Trim(lines[i]))
  }

  lemma {:induction false} TrimmedNext(lines: seq<string>, from: nat, next: nat)
    requires from <= next < |lines|
    ensures Trimmed(lines[from..next + 1]) == Trimmed(lines[from..next]) + [Trim(lines[next])]
  {
  }

  method BlockScalar(lines: seq<string>, from: nat) returns (value: string, next: nat)
    requires from <= |lines|
    ensures next == BlockEnd(lines, from) && value == Collapse(Join(Trimmed(lines[from..next])))
  {
    var parts: seq<string> := [];
    next := from;
    assert lines[from..from] == [];
    while next < |lines|
      invariant from <= next <= |lines| && BlockEnd(lines, next) == BlockEnd(lines, from)
      invariant parts == Trimmed(lines[from..next])
    {
      var line := lines[next];
      if Trim(line) == "" {
        parts := parts + [""];
      } else if !Space(line[0]) {
        break;
      } else {
        parts := parts + [Trim(line)];
      }
      TrimmedNext(lines, from, next);
      next := next + 1;
    }
    value := Collapse(Join(parts));
  }

  // --- Keys ----------------------------------------------------------------------------------------

  predicate KeyChar(c: char) {
    'A' <= c <= 'Z' || 'a' <= c <= 'z' || '0' <= c <= '9' || c == '_' || c == '-'
  }

  predicate Terminator(c: char) {
    c == '\n' || c == '\r' || c == '\U{2028}' || c == '\U{2029}'
  }

  function KeyLength(line: string): (n: nat)
    ensures n <= |line| && (forall i :: 0 <= i < n ==> KeyChar(line[i])) && (n < |line| ==> !KeyChar(line[n]))
  {
    if line != "" && KeyChar(line[0]) then 1 + KeyLength(line[1..]) else 0
  }

  /** `^([A-Za-z0-9_-]+):\s*(.*)$` */
  function KeyLine(line: string): Option<(string, string)> {
    var n := KeyLength(line);
    if n == 0 || n >= |line| || line[n] != ':' then None
    else
      var rest := TrimStart(line[n + 1..]);
      if exists i :: 0 <= i < |rest| && Terminator(rest[i]) then None else Some((line[..n], rest))
  }

  predicate BlockMarker(inline: string) {
    inline == "|" || inline == "|-" || inline == ">" || inline == ">-"
  }

  function Unquote(value: string): string {
    if |value| >= 2 && value[0] == value[|value| - 1] && (value[0] == '"' || value[0] == '\'')
    then value[1..|value| - 1] else value
  }

  // --- The parser ------------------------------------------------------------------------------------

  function ParseLines(lines: seq<string>, at: nat, out: map<string, string>): map<string, string>
    requires at <= |lines|
    decreases |lines| - at
  {
    if at == |lines| then out
    else match KeyLine(lines[at])
      case None => ParseLines(lines, at + 1, out)
      case Some((key, rest)) =>
        if BlockMarker(Trim(rest)) then
          var end := BlockEnd(lines, at + 1);
          ParseLines(lines, end, out[key := Collapse(Join(Trimmed(lines[at + 1..end])))])
        else ParseLines(lines, at + 1, out[key := Unquote(Trim(rest))])
  }

  const FENCE := "\n---"

  predicate FenceAt(s: string, i: nat) {
    i + 4 <= |s| && s[i..i + 4] == FENCE
  }

  function FirstFence(s: string, from: nat): (r: Option<nat>)
    ensures r.Some? ==> from <= r.value && FenceAt(s, r.value)
    decreases |s| - from
  {
    if from >= |s| then None else if FenceAt(s, from) then Some(from) else FirstFence(s, from + 1)
  }

  function Parse(content: string): map<string, string> {
    if !("---" <= content) then map[]
    else match FirstFence(content, 3)
      case None => map[]
      case Some(end) => ParseLines(Lines(content[3..end]), 0, map[])
  }

  method ParseFrontmatter(content: string) returns (out: map<string, string>)
    ensures out == Parse(content)
  {
    out := map[];
    if !("---" <= content) { return; }
    var end := FirstFence(content, 3);
    if end.None? { return; }
    var lines := Lines(content[3..end.value]);
    var at := 0;
    while at < |lines|
      invariant at <= |lines| && ParseLines(lines, at, out) == ParseLines(lines, 0, map[])
      decreases |lines| - at
    {
      var pair := KeyLine(lines[at]);
      if pair.None? {
        at := at + 1;
        continue;
      }
      var (key, rest) := pair.value;
      var inline := Trim(rest);
      if BlockMarker(inline) {
        var value, next := BlockScalar(lines, at + 1);
        out := out[key := value];
        at := next;
      } else {
        out := out[key := Unquote(inline)];
        at := at + 1;
      }
    }
  }
}
