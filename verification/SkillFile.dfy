/** The skill file as it is written, and that it is read back as what it was written from. */
module SkillFile {
  import opened Json
  import opened Text
  import opened Frontmatter

  predicate Alnum(c: char) {
    'a' <= c <= 'z' || '0' <= c <= '9'
  }

  /** A directory name: lowercase kebab-case, at most 64 characters, no hyphen at either end. */
  predicate ValidName(s: string) {
    && 1 <= |s| <= 64 && Alnum(s[0]) && Alnum(s[|s| - 1])
    && forall i :: 0 <= i < |s| ==> Alnum(s[i]) || s[i] == '-'
  }

  /** Each line on a new line, indented. */
  function Indented(lines: seq<string>): string {
    if lines == [] then "" else "\n  " + lines[0] + Indented(lines[1..])
  }

  function Header(name: string, description: string): string {
    "\nname: " + name + "\ndescription: |" + Indented(Lines(description))
  }

  function Print(name: string, description: string, body: string): string {
    "---" + Header(name, description) + "\n---\n\n" + TrimEnd(body) + "\n"
  }

  // --- Words -----------------------------------------------------------------------------------

  /** A character before some words: the start of the first, or a word of its own. */
  function Attach(c: char, grows: bool, words: seq<string>): (r: seq<string>)
    ensures |r| > 0
  {
    if grows && words != [] then [[c] + words[0]] + words[1..] else [[c]] + words
  }

  lemma {:induction false} AttachConcat(c: char, grows: bool, a: seq<string>, b: seq<string>)
    requires grows ==> a != []
    ensures Attach(c, grows, a + b) == Attach(c, grows, a) + b
  {
  }

  /** The runs of characters between whitespace. */
  function Words(s: string): (r: seq<string>)
    ensures s != "" && !Space(s[0]) ==> |r| > 0
  {
    if s == "" then []
    else if Space(s[0]) then Words(s[1..])
    else Attach(s[0], |s| > 1 && !Space(s[1]), Words(s[1..]))
  }

  lemma {:induction false} WordsSplit(a: string, c: char, b: string)
    requires Space(c)
    ensures Words(a + [c] + b) == Words(a) + Words(b)
    decreases |a|
  {
    var s := a + [c] + b;
    if a == "" {
      assert s[1..] == b;
    } else {
      assert s[1..] == a[1..] + [c] + b && s[0] == a[0] && s[1] == (a[1..] + [c])[0];
      WordsSplit(a[1..], c, b);
      AttachConcat(a[0], |a| > 1 && !Space(a[1]), Words(a[1..]), Words(b));
    }
  }

  lemma {:induction false} WordsTrimStart(s: string)
    ensures Words(TrimStart(s)) == Words(s)
  {
    if s != "" && Space(s[0]) {
      WordsTrimStart(s[1..]);
    }
  }

  lemma {:induction false} WordsTrimEnd(s: string)
    ensures Words(TrimEnd(s)) == Words(s)
    decreases |s|
  {
    if s != "" && Space(s[|s| - 1]) {
      WordsTrimEnd(s[..|s| - 1]);
      WordsSplit(s[..|s| - 1], s[|s| - 1], "");
      assert s == s[..|s| - 1] + [s[|s| - 1]] + "";
    }
  }

  lemma {:induction false} WordsTrim(s: string)
    ensures Words(Trim(s)) == Words(s)
  {
    WordsTrimStart(s);
    WordsTrimEnd(TrimStart(s));
  }

  predicate Solid(w: string) {
    w != "" && forall i :: 0 <= i < |w| ==> !Space(w[i])
  }

  lemma {:induction false} WordsAreSolid(s: string)
    ensures forall i :: 0 <= i < |Words(s)| ==> Solid(Words(s)[i])
  {
    if s != "" {
      WordsAreSolid(s[1..]);
    }
  }

  // --- Collapsing is joining the words ----------------------------------------------------------

  lemma {:induction false} JoinCons(w: string, words: seq<string>)
    ensures Join([w] + words) == if words == [] then w else w + " " + Join(words)
  {
  }

  lemma {:induction false} JoinGrow(c: char, words: seq<string>)
    requires words != []
    ensures Join(Attach(c, true, words)) == [c] + Join(words)
  {
    assert Attach(c, true, words)[1..] == words[1..];
    if |words| > 1 {
      assert [c] + words[0] + " " + Join(words[1..]) == [c] + (words[0] + " " + Join(words[1..]));
    }
  }

  /** How a squeezed text reads: its words joined, with a space wherever it had some at an end. */
  function Ends(s: string): string
    requires s != ""
  {
    if Words(s) == [] then " "
    else (if Space(s[0]) then " " else "") + Join(Words(s)) + (if Space(s[|s| - 1]) then " " else "")
  }

  lemma {:induction false} SqueezeSpace(s: string)
    requires |s| > 1 && Space(s[0]) && Squeeze(s[1..]) == Ends(s[1..])
    ensures Squeeze(s) == Ends(s)
  {
  }

  lemma {:induction false} SameEnd(s: string, t: string)
    requires |s| > 1 && t == s[1..]
    ensures t[|t| - 1] == s[|s| - 1] && t[0] == s[1]
    ensures Space(s[0]) ==> Words(s) == Words(t)
  {
  }

  lemma {:induction false} SqueezeLone(s: string)
    requires |s| > 1 && !Space(s[0]) && Space(s[1]) && Squeeze(s[1..]) == Ends(s[1..])
    ensures Squeeze(s) == Ends(s)
  {
    var c, t := [s[0]], s[1..];
    SameEnd(s, t);
    JoinCons(c, Words(t));
    assert Words(s) == Attach(s[0], false, Words(t)) && Squeeze(s) == c + Squeeze(t);
    if Words(t) == [] {
      AllSpaceNoWords(t);
    } else {
      LoneThen(c, Join(Words(t)), if Space(t[|t| - 1]) then " " else "");
    }
  }

  lemma {:induction false} LoneThen(c: string, x: string, trail: string)
    ensures c + (" " + x + trail) == "" + (c + " " + x) + trail
  {
  }

  lemma {:induction false} SqueezeGrown(s: string)
    requires |s| > 1 && !Space(s[0]) && !Space(s[1]) && Squeeze(s[1..]) == Ends(s[1..])
    ensures Squeeze(s) == Ends(s)
  {
    var c, t := [s[0]], s[1..];
    SameEnd(s, t);
    JoinGrow(s[0], Words(t));
    assert Words(s) == Attach(s[0], true, Words(t)) && Squeeze(s) == c + Squeeze(t);
    GrownThen(c, Join(Words(t)), if Space(t[|t| - 1]) then " " else "");
  }

  lemma {:induction false} GrownThen(c: string, x: string, trail: string)
    ensures c + ("" + x + trail) == "" + (c + x) + trail
  {
  }

  lemma {:induction false} SqueezeForm(s: string)
    requires s != ""
    ensures Squeeze(s) == Ends(s)
    decreases |s|
  {
    if |s| == 1 {
      assert Words(s[1..]) == [] && Squeeze(s[1..]) == "";
      JoinCons([s[0]], []);
      return;
    }
    SqueezeForm(s[1..]);
    if Space(s[0]) {
      SqueezeSpace(s);
    } else if Space(s[1]) {
      SqueezeLone(s);
    } else {
      SqueezeGrown(s);
    }
  }

  lemma {:induction false} AllSpaceNoWords(s: string)
    requires Words(s) == []
    ensures AllSpace(s)
  {
    if s != "" {
      AllSpaceNoWords(s[1..]);
    }
  }

  lemma {:induction false} JoinIsSolidAtEnds(words: seq<string>)
    requires words != [] && forall i :: 0 <= i < |words| ==> Solid(words[i])
    ensures Join(words) != "" && !Space(Join(words)[0]) && !Space(Join(words)[|Join(words)| - 1])
    decreases |words|
  {
    if |words| > 1 {
      JoinIsSolidAtEnds(words[1..]);
    }
  }

  lemma {:induction false} TrimStartSolid(y: string, lead: string)
    requires y != "" && !Space(y[0]) && (lead == "" || lead == " ")
    ensures TrimStart(lead + y) == y
  {
  }

  lemma {:induction false} TrimEndSolid(x: string, trail: string)
    requires x != "" && !Space(x[|x| - 1]) && (trail == "" || trail == " ")
    ensures TrimEnd(x + trail) == x
  {
  }

  lemma {:induction false} TrimSolid(x: string, lead: string, trail: string)
    requires x != "" && !Space(x[0]) && !Space(x[|x| - 1])
    requires (lead == "" || lead == " ") && (trail == "" || trail == " ")
    ensures Trim(lead + x + trail) == x
  {
    assert lead + x + trail == lead + (x + trail);
    TrimStartSolid(x + trail, lead);
    TrimEndSolid(x, trail);
  }

  /** Collapsing whitespace keeps exactly the words, one space between. */
  lemma {:induction false} CollapseIsWords(s: string)
    ensures Collapse(s) == Join(Words(s))
  {
    if s != "" { SqueezeForm(s); }
    if s != "" && Words(s) != [] {
      WordsAreSolid(s);
      JoinIsSolidAtEnds(Words(s));
      TrimSolid(Join(Words(s)), if Space(s[0]) then " " else "", if Space(s[|s| - 1]) then " " else "");
    } else if s != "" {
      assert Trim(" ") == "";
    }
  }

  function AllWords(parts: seq<string>): seq<string>
    decreases |parts|
  {
    if parts == [] then [] else Words(parts[0]) + AllWords(parts[1..])
  }

  lemma {:induction false} WordsJoin(parts: seq<string>)
    ensures Words(Join(parts)) == AllWords(parts)
    decreases |parts|
  {
    if |parts| > 1 {
      WordsJoin(parts[1..]);
      WordsSplit(parts[0], ' ', Join(parts[1..]));
    } else if |parts| == 1 {
      assert parts[1..] == [];
    }
  }

  lemma {:induction false} MoreWords(line: string, lines: seq<string>)
    ensures AllWords([line] + lines) == Words(line) + AllWords(lines)
  {
  }

  lemma {:induction false} WordsStripCR(s: string)
    ensures Words(StripCR(s)) == Words(s)
  {
    if s != "" && s[|s| - 1] == '\r' {
      WordsSplit(s[..|s| - 1], '\r', "");
      assert s == s[..|s| - 1] + ['\r'] + "";
    }
  }

  /** Splitting into lines loses no word. */
  lemma {:induction false} WordsLines(s: string)
    ensures AllWords(Lines(s)) == Words(s)
    decreases |s|
  {
    match NewlineIn(s)
    case None => MoreWords(s, []);
    case Some(i) =>
      WordsLines(s[i + 1..]);
      WordsTwoLines(s[..i], s[i + 1..], Lines(s[i + 1..]));
      assert s == s[..i] + ['\n'] + s[i + 1..];
  }

  lemma {:induction false} WordsTwoLines(a: string, b: string, lines: seq<string>)
    requires AllWords(lines) == Words(b)
    ensures AllWords([StripCR(a)] + lines) == Words(a + ['\n'] + b)
  {
    WordsStripCR(a);
    WordsSplit(a, '\n', b);
    MoreWords(StripCR(a), lines);
  }

  // --- Where the block ends -----------------------------------------------------------------------

  /** Every newline is followed by something, and not by a dash. */
  predicate NoFence(s: string) {
    forall i :: 0 <= i < |s| && s[i] == '\n' ==> i + 1 < |s| && s[i + 1] != '-'
  }

  lemma {:induction false} NoFenceConcat(a: string, b: string)
    requires NoFence(a) && NoFence(b)
    ensures NoFence(a + b)
  {
  }

  lemma {:induction false} LinesHaveNoNewline(s: string)
    ensures forall i :: 0 <= i < |Lines(s)| ==> '\n' !in Lines(s)[i]
    decreases |s|
  {
    match NewlineIn(s)
    case None =>
    case Some(i) =>
      LinesHaveNoNewline(s[i + 1..]);
      assert forall c :: c in StripCR(s[..i]) ==> c in s[..i];
  }

  lemma {:induction false} IndentedHasNoFence(lines: seq<string>)
    requires forall i :: 0 <= i < |lines| ==> '\n' !in lines[i]
    ensures NoFence(Indented(lines))
  {
    if lines != [] {
      IndentedHasNoFence(lines[1..]);
      assert forall i :: 0 <= i < |lines[0]| ==> lines[0][i] in lines[0];
      NoFenceConcat("\n  ", lines[0]);
      NoFenceConcat("\n  " + lines[0], Indented(lines[1..]));
    }
  }

  lemma {:induction false} HeaderHasNoFence(name: string, description: string)
    requires ValidName(name)
    ensures NoFence(Header(name, description))
  {
    var lines := Lines(description);
    LinesHaveNoNewline(description);
    IndentedHasNoFence(lines);
    NoFenceConcat("\nname: ", name);
    NoFenceConcat("\nname: " + name, "\ndescription: |");
    NoFenceConcat("\nname: " + name + "\ndescription: |", Indented(lines));
  }

  lemma {:induction false} FirstFenceIs(s: string, from: nat, end: nat)
    requires from <= end && FenceAt(s, end) && forall i :: from <= i < end ==> !FenceAt(s, i)
    ensures FirstFence(s, from) == Some(end)
    decreases end - from
  {
    if from < end {
      FirstFenceIs(s, from + 1, end);
    }
  }

  /** Nothing in the description can end the block early, nor anything after it be taken for its end; and what follows it is
      the body, the whitespace at its end aside. */
  lemma {:induction false} BlockEndsAfterHeader(name: string, description: string, body: string)
    requires ValidName(name)
    ensures FirstFence(Print(name, description, body), 3) == Some(3 + |Header(name, description)|)
    ensures Print(name, description, body)[3..3 + |Header(name, description)|] == Header(name, description)
    ensures Print(name, description, body)[3 + |Header(name, description)|..] == "\n---\n\n" + TrimEnd(body) + "\n"
  {
    var x, s := Header(name, description), Print(name, description, body);
    HeaderHasNoFence(name, description);
    var rest := "\n\n" + TrimEnd(body) + "\n";
    assert s == "---" + x + (FENCE + rest);
    FenceFollows(x, FENCE + rest);
    assert s == "---" + (x + (FENCE + rest));
    forall i | 3 <= i < 3 + |x| ensures !FenceAt(s, i) {
      assert s[i] == x[i - 3];
      if x[i - 3] == '\n' {
        assert s[i + 1] == x[i - 2];
        assert i + 4 <= |s| ==> s[i..i + 4][1] == s[i + 1];
      } else {
        assert i + 4 <= |s| ==> s[i..i + 4][0] == s[i];
      }
    }
    FirstFenceIs(s, 3, 3 + |x|);
  }

  lemma {:induction false} FenceFollows(x: string, rest: string)
    requires FENCE <= rest
    ensures FenceAt("---" + x + rest, 3 + |x|)
  {
  }

  // --- Reading the lines back -----------------------------------------------------------------------

  lemma {:induction false} LinesNext(a: string, b: string)
    requires '\n' !in a
    ensures Lines(a + "\n" + b) == [StripCR(a)] + Lines(b)
  {
    var s := a + "\n" + b;
    NewlineAt(a, b);
    assert s[..|a|] == a && s[|a| + 1..] == b;
  }

  lemma {:induction false} NewlineAt(a: string, b: string)
    requires '\n' !in a
    ensures NewlineIn(a + "\n" + b) == Some(|a|)
  {
    var s := a + "\n" + b;
    if a != "" {
      assert s[1..] == a[1..] + "\n" + b && s[0] == a[0];
      NewlineAt(a[1..], b);
    }
  }

  /** The indented lines as they are split again; only a line that another follows can lose a CR. */
  function Reread(first: string, lines: seq<string>): (r: seq<string>)
    ensures |r| == |lines| + 1
    decreases |lines|
  {
    if lines == [] then [first] else [StripCR(first)] + Reread("  " + lines[0], lines[1..])
  }

  lemma {:induction false} LinesReread(first: string, lines: seq<string>)
    requires '\n' !in first && forall i :: 0 <= i < |lines| ==> '\n' !in lines[i]
    ensures Lines(first + Indented(lines)) == Reread(first, lines)
    decreases |lines|
  {
    if lines == [] {
      assert first + Indented(lines) == first;
    } else {
      var next := "  " + lines[0];
      IndentedLineIsOne(lines[0]);
      assert forall i :: 0 <= i < |lines[1..]| ==> lines[1..][i] == lines[i + 1];
      LinesReread(next, lines[1..]);
      FirstIndented(first, lines[0], Indented(lines[1..]));
      LinesNext(first, next + Indented(lines[1..]));
    }
  }

  lemma {:induction false} IndentedLineIsOne(line: string)
    requires '\n' !in line
    ensures '\n' !in "  " + line
  {
  }

  lemma {:induction false} FirstIndented(first: string, line: string, rest: string)
    ensures first + ("\n  " + line + rest) == first + "\n" + ("  " + line + rest)
  {
  }

  lemma {:induction false} WordsIndented(line: string)
    ensures Words("  " + line) == Words(line)
  {
  }

  /** Reread lines all continue the block, and hold the words they were written with. */
  lemma {:induction false} RereadContinues(line: string, lines: seq<string>)
    ensures var r := Reread("  " + line, lines);
      && (forall i :: 0 <= i < |r| ==> Continues(r[i]))
      && AllWords(r) == Words(line) + AllWords(lines)
    decreases |lines|
  {
    var first := "  " + line;
    WordsIndented(line);
    WordsStripCR(first);
    assert StripCR(first) != "" && StripCR(first)[0] == ' ';
    var r := Reread(first, lines);
    if lines == [] {
      assert r[1..] == [];
    } else {
      RereadContinues(lines[0], lines[1..]);
      assert r[1..] == Reread("  " + lines[0], lines[1..]);
    }
  }

  lemma {:induction false} AllContinue(lines: seq<string>, at: nat)
    requires at <= |lines| && forall i :: at <= i < |lines| ==> Continues(lines[i])
    ensures BlockEnd(lines, at) == |lines|
    decreases |lines| - at
  {
    if at < |lines| {
      AllContinue(lines, at + 1);
    }
  }

  lemma {:induction false} TrimmedKeepsWords(lines: seq<string>)
    ensures AllWords(Trimmed(lines)) == AllWords(lines)
    decreases |lines|
  {
    if lines != [] {
      assert Trimmed(lines)[1..] == Trimmed(lines[1..]);
      TrimmedKeepsWords(lines[1..]);
      WordsTrim(lines[0]);
    }
  }

  // --- Keys --------------------------------------------------------------------------------------------

  lemma {:induction false} KeyLengthIs(key: string, rest: string)
    requires forall i :: 0 <= i < |key| ==> KeyChar(key[i])
    ensures KeyLength(key + ":" + rest) == |key|
  {
    var s := key + ":" + rest;
    if key != "" {
      assert s[1..] == key[1..] + ":" + rest && s[0] == key[0];
      KeyLengthIs(key[1..], rest);
    }
  }

  lemma {:induction false} KeyLineIs(key: string, value: string)
    requires key != "" && forall i :: 0 <= i < |key| ==> KeyChar(key[i])
    requires value != "" && !Space(value[0]) && forall i :: 0 <= i < |value| ==> !Terminator(value[i])
    ensures KeyLine(key + ": " + value) == Some((key, value))
  {
    var line := key + ": " + value;
    assert line == key + ":" + (" " + value);
    KeyLengthIs(key, " " + value);
    assert line[..|key|] == key && line[|key| + 1..] == " " + value;
    assert (" " + value)[1..] == value && TrimStart(value) == value;
  }

  lemma {:induction false} SolidTrims(value: string)
    requires value != "" && !Space(value[0]) && !Space(value[|value| - 1])
    ensures Trim(value) == value
  {
  }

  lemma {:induction false} NameStands(name: string)
    requires ValidName(name)
    ensures Trim(name) == name && !BlockMarker(name) && Unquote(name) == name
  {
  }

  lemma {:induction false} NameLine(name: string)
    requires ValidName(name)
    ensures KeyLine("name: " + name) == Some(("name", name))
  {
    assert forall i :: 0 <= i < |name| ==> !Terminator(name[i]);
    KeyLineIs("name", name);
    assert "name" + ": " + name == "name: " + name;
  }

  lemma {:induction false} NameLineIsOne(name: string)
    requires ValidName(name)
    ensures StripCR("name: " + name) == "name: " + name && '\n' !in "name: " + name
  {
  }

  lemma {:induction false} DescriptionLine()
    ensures KeyLine("description: |") == Some(("description", "|"))
  {
    assert "description" + ": " + "|" == "description: |";
    KeyLineIs("description", "|");
  }

  // --- The round trip ----------------------------------------------------------------------------------------

  function Written(name: string, lines: seq<string>): seq<string>
    requires lines != []
  {
    ["", "name: " + name] + ([OPENS] + Reread("  " + lines[0], lines[1..]))
  }

  lemma {:induction false} HeaderLines(name: string, description: string)
    requires ValidName(name)
    ensures Lines(Header(name, description)) == Written(name, Lines(description))
  {
    var lines := Lines(description);
    LinesHaveNoNewline(description);
    NameLineIsOne(name);
    LinesReread(OPENS, lines);
    ThreeLines("name: " + name, OPENS + Indented(lines));
    HeaderForm(name, Indented(lines));
    OpensReread(lines);
  }

  lemma {:induction false} HeaderForm(name: string, rest: string)
    ensures "\nname: " + name + "\ndescription: |" + rest == "" + "\n" + ("name: " + name + "\n" + (OPENS + rest))
  {
  }

  lemma {:induction false} OpensReread(lines: seq<string>)
    requires lines != []
    ensures Reread(OPENS, lines) == [OPENS] + Reread("  " + lines[0], lines[1..])
  {
  }

  const OPENS := "description: |"

  lemma {:induction false} ThreeLines(a: string, tail: string)
    requires '\n' !in a && StripCR(a) == a
    ensures Lines("" + "\n" + (a + "\n" + tail)) == ["", a] + Lines(tail)
  {
    LinesNext(a, tail);
    LinesNext("", a + "\n" + tail);
    assert StripCR("") == "";
  }

  lemma {:induction false} KeysRead(name: string)
    requires ValidName(name)
    ensures KeyLine("") == None && KeyLine("name: " + name) == Some(("name", name)) && KeyLine(OPENS) == Some(("description", "|"))
    ensures Trim(name) == name && !BlockMarker(name) && Unquote(name) == name && BlockMarker(Trim("|"))
  {
    NameStands(name);
    NameLine(name);
    DescriptionLine();
    SolidTrims("|");
  }

  lemma {:induction false} WrittenParses(name: string, lines: seq<string>)
    requires ValidName(name) && lines != []
    ensures ParseLines(Written(name, lines), 0, map[])
      == map["name" := name]["description" := Collapse(Join(Trimmed(Reread("  " + lines[0], lines[1..]))))]
  {
    KeysRead(name);
    RereadContinues(lines[0], lines[1..]);
    BlockParses(name, Reread("  " + lines[0], lines[1..]), "name: " + name, OPENS, "|", "name", "description");
  }

  lemma {:induction false} BlockParses(name: string, block: seq<string>, a: string, c: string, marker: string, k: string, b: string)
    requires KeyLine("") == None && KeyLine(a) == Some((k, name)) && KeyLine(c) == Some((b, marker))
    requires Trim(name) == name && !BlockMarker(name) && Unquote(name) == name && BlockMarker(Trim(marker))
    requires forall i :: 0 <= i < |block| ==> Continues(block[i])
    ensures ParseLines(["", a] + ([c] + block), 0, map[]) == map[k := name][b := Collapse(Join(Trimmed(block)))]
  {
    ThreeThen("", a, c, block);
    TwoKeysParse(["", a] + ([c] + block), k, name, b, marker, block);
  }

  lemma {:induction false} ThreeThen(a: string, b: string, c: string, rest: seq<string>)
    ensures var all := [a, b] + ([c] + rest);
      |all| == 3 + |rest| && all[0] == a && all[1] == b && all[2] == c && all[3..] == rest
  {
  }

  lemma {:induction false} TwoKeysParse(all: seq<string>, k: string, v: string, b: string, marker: string, block: seq<string>)
    requires |all| == 3 + |block| && all[3..] == block && forall i :: 0 <= i < |block| ==> Continues(block[i])
    requires KeyLine(all[0]) == None && KeyLine(all[1]) == Some((k, v)) && KeyLine(all[2]) == Some((b, marker))
    requires Trim(v) == v && !BlockMarker(v) && Unquote(v) == v && BlockMarker(Trim(marker))
    ensures ParseLines(all, 0, map[]) == map[k := v][b := Collapse(Join(Trimmed(block)))]
  {
    forall i | 3 <= i < |all| ensures Continues(all[i]) {
      assert all[i] == block[i - 3];
    }
    AllContinue(all, 3);
    assert all[3..|all|] == block;
    var named := map[k := v];
    assert ParseLines(all, 1, map[]) == ParseLines(all, 2, named);
    assert ParseLines(all, 2, named) == ParseLines(all, |all|, named[b := Collapse(Join(Trimmed(block)))]);
  }

  /** For every valid name, every description and every body: what is written parses to exactly that name,
      and that description with its whitespace collapsed. No `---`, no `name:`, no CR in either can change
      a key. */
  lemma {:induction false} WrittenIsReadBack(name: string, description: string, body: string)
    requires ValidName(name)
    ensures Parse(Print(name, description, body)) == map["name" := name, "description" := Collapse(description)]
  {
    var lines := Lines(description);
    var block := Reread("  " + lines[0], lines[1..]);
    BlockEndsAfterHeader(name, description, body);
    HeaderLines(name, description);
    WrittenParses(name, lines);
    RereadContinues(lines[0], lines[1..]);
    TrimmedKeepsWords(block);
    WordsJoin(Trimmed(block));
    WordsLines(description);
    CollapseIsWords(Join(Trimmed(block)));
    CollapseIsWords(description);
    assert "---" <= Print(name, description, body);
  }
}
