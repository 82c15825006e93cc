/** What any frontmatter says, as a grammar: every list of lines is made of items in one way, and is read as what they say. */
module FrontmatterLaws {
  import opened Json
  import opened Text
  import opened Frontmatter
  import opened SkillFile

  /** A key with what stands behind its colon; one that opens a block, and its lines; or a line that says nothing. */
  datatype Item = Pair(key: string, rest: string) | Block(key: string, rest: string, body: seq<string>) | Prose(line: string)

  function LinesOf(item: Item): (r: seq<string>)
    ensures |r| > 0
  {
    match item
    case Pair(key, rest) => [key + ":" + rest]
    case Block(key, rest, body) => [key + ":" + rest] + body
    case Prose(line) => [line]
  }

  function Laid(items: seq<Item>): seq<string> {
    if items == [] then [] else LinesOf(items[0]) + Laid(items[1..])
  }

  /** A name of letters, digits, `_` and `-`, and behind the colon, but for space in front, no end of a line. */
  predicate Keyed(key: string, rest: string) {
    && key != ""
    && (forall c :: c in key ==> 'a' <= c <= 'z' || 'A' <= c <= 'Z' || '0' <= c <= '9' || c in "_-")
    && (forall c :: c in TrimStart(rest) ==> c !in "\n\r\U{2028}\U{2029}")
  }

  predicate Opens(rest: string) {
    Trim(rest) in ["|", "|-", ">", ">-"]
  }

  ghost predicate Silent(line: string) {
    forall n :: 0 <= n < |line| && line[n] == ':' ==> !Keyed(line[..n], line[n + 1..])
  }

  /** Blank, or indented. */
  predicate Within(line: string) {
    line == "" || Space(line[0])
  }

  ghost predicate FitsOne(item: Item) {
    match item
    case Pair(key, rest) => Keyed(key, rest) && !Opens(rest)
    case Block(key, rest, body) => Keyed(key, rest) && Opens(rest) && forall line :: line in body ==> Within(line)
    case Prose(line) => Silent(line)
  }

  /** A block is all the lines that can be in it. */
  ghost predicate Fits(items: seq<Item>) {
    items != [] ==>
      && FitsOne(items[0]) && Fits(items[1..])
      && (items[0].Block? && |items| > 1 ==> !Within(LinesOf(items[1])[0]))
  }

  /** Quotes around a value are no part of it. */
  function Meant(value: string): string {
    var n := |value|;
    if n >= 2 && value[0] in "\"'" && value[n - 1] == value[0] then value[1..n - 1] else value
  }

  /** The last that is said of a key stands; of a block, all the words in it. */
  function Say(out: map<string, string>, item: Item): map<string, string> {
    match item
    case Pair(key, rest) => out[key := Meant(Trim(rest))]
    case Block(key, rest, body) => out[key := Join(AllWords(body))]
    case Prose(line) => out
  }

  function SayAll(out: map<string, string>, items: seq<Item>): map<string, string>
    decreases items
  {
    if items == [] then out else SayAll(Say(out, items[0]), items[1..])
  }

  // --- Lines ------------------------------------------------------------------------------------

  lemma {:induction false} KeyedIsRead(key: string, rest: string)
    requires Keyed(key, rest)
    ensures KeyLine(key + ":" + rest) == Some((key, TrimStart(rest)))
  {
    var line := key + ":" + rest;
    var n := KeyLength(line);
    assert forall i :: 0 <= i < |key| ==> line[i] == key[i] && key[i] in key;
    assert line[|key|] == ':';
    assert n == |key|;
    assert line[..n] == key && line[n + 1..] == rest;
    var said := TrimStart(rest);
    forall i | 0 <= i < |said| ensures !Terminator(said[i]) {
      assert said[i] in said;
    }
  }

  lemma {:induction false} ReadIsKeyed(line: string) returns (n: nat)
    ensures KeyLine(line).None? ==> Silent(line)
    ensures KeyLine(line).Some? ==> n < |line| && line[n] == ':' && line == line[..n] + ":" + line[n + 1..] && Keyed(line[..n], line[n + 1..])
  {
    n := KeyLength(line);
    if KeyLine(line).None? {
      forall k | 0 <= k < |line| && line[k] == ':' ensures !Keyed(line[..k], line[k + 1..]) {
        assert line[..k] + ":" + line[k + 1..] == line;
        if Keyed(line[..k], line[k + 1..]) {
          KeyedIsRead(line[..k], line[k + 1..]);
        }
      }
    } else {
      var said := TrimStart(line[n + 1..]);
      forall c | c in said ensures c !in "\n\r\U{2028}\U{2029}" {
        var i :| 0 <= i < |said| && said[i] == c;
        assert !Terminator(said[i]);
      }
    }
  }

  lemma {:induction false} SilentIsSkipped(line: string)
    requires Silent(line)
    ensures KeyLine(line).None?
  {
    var n := ReadIsKeyed(line);
  }

  lemma {:induction false} TrimStartOnce(s: string)
    ensures Trim(TrimStart(s)) == Trim(s)
  {
    var n := TrimStartTells(s);
    var t := TrimStart(s);
    assert TrimStart(t) == t;
  }

  lemma {:induction false} BlankTrims(s: string)
    ensures Trim(s) == "" <==> AllSpace(s)
  {
    var from, to := TrimTells(s);
    assert AllSpace(s) && from < |s| ==> Space(s[from]);
  }

  lemma {:induction false} WithinContinues(line: string)
    ensures Continues(line) <==> Within(line)
  {
    BlankTrims(line);
  }

  lemma {:induction false} BlockReaches(lines: seq<string>, at: nat, end: nat)
    requires at <= end <= |lines| && (forall k :: at <= k < end ==> Within(lines[k])) && (end < |lines| ==> !Within(lines[end]))
    ensures BlockEnd(lines, at) == end
    decreases end - at
  {
    if at < |lines| {
      WithinContinues(lines[at]);
    }
    if at < end {
      BlockReaches(lines, at + 1, end);
    }
  }

  // --- Items --------------------------------------------------------------------------------------

  lemma {:induction false} LaidNext(lines: seq<string>, at: nat, items: seq<Item>)
    requires at <= |lines| && lines[at..] == Laid(items) && items != []
    ensures var next := at + |LinesOf(items[0])|;
      && at < next <= |lines| && lines[next..] == Laid(items[1..]) && lines[at..next] == LinesOf(items[0])
      && (|items| > 1 ==> next < |lines| && lines[next] == LinesOf(items[1])[0])
  {
    var head, rest := LinesOf(items[0]), Laid(items[1..]);
    assert lines[at..][..|head|] == head && lines[at..][|head|..] == rest;
  }

  lemma {:induction false} PairIsRead(lines: seq<string>, at: nat, item: Item, out: map<string, string>)
    requires at < |lines| && item.Pair? && FitsOne(item) && lines[at] == item.key + ":" + item.rest
    ensures ParseLines(lines, at, out) == ParseLines(lines, at + 1, Say(out, item))
  {
    KeyedIsRead(item.key, item.rest);
    TrimStartOnce(item.rest);
  }

  lemma {:induction false} BlockIsRead(lines: seq<string>, at: nat, end: nat, item: Item, out: map<string, string>)
    requires item.Block? && FitsOne(item) && at < end <= |lines| && lines[at..end] == LinesOf(item)
    requires end < |lines| ==> !Within(lines[end])
    ensures ParseLines(lines, at, out) == ParseLines(lines, end, Say(out, item))
  {
    assert lines[at] == lines[at..end][0] && lines[at + 1..end] == lines[at..end][1..];
    assert lines[at + 1..end] == item.body;
    forall k | at + 1 <= k < end ensures Within(lines[k]) {
      assert lines[k] == item.body[k - at - 1];
    }
    KeyedIsRead(item.key, item.rest);
    TrimStartOnce(item.rest);
    BlockReaches(lines, at + 1, end);
    BlockSays(item.body);
  }

  lemma {:induction false} BlockSays(body: seq<string>)
    ensures Collapse(Join(Trimmed(body))) == Join(AllWords(body))
  {
    CollapseIsWords(Join(Trimmed(body)));
    WordsJoin(Trimmed(body));
    TrimmedKeepsWords(body);
  }

  lemma {:induction false} ProseIsRead(lines: seq<string>, at: nat, item: Item, out: map<string, string>)
    requires at < |lines| && item.Prose? && FitsOne(item) && lines[at] == item.line
    ensures ParseLines(lines, at, out) == ParseLines(lines, at + 1, Say(out, item))
  {
    SilentIsSkipped(item.line);
  }

  lemma {:induction false} ItemIsRead(lines: seq<string>, at: nat, next: nat, item: Item, out: map<string, string>)
    requires at <= next <= |lines| && lines[at..next] == LinesOf(item) && FitsOne(item)
    requires item.Block? && next < |lines| ==> !Within(lines[next])
    ensures ParseLines(lines, at, out) == ParseLines(lines, next, Say(out, item))
  {
    assert lines[at] == lines[at..next][0];
    if item.Pair? {
      PairIsRead(lines, at, item, out);
    } else if item.Block? {
      BlockIsRead(lines, at, next, item, out);
    } else {
      ProseIsRead(lines, at, item, out);
    }
  }

  lemma {:induction false} NextItem(lines: seq<string>, at: nat, items: seq<Item>) returns (next: nat)
    requires at <= |lines| && lines[at..] == Laid(items) && Fits(items) && items != []
    ensures at < next <= |lines| && lines[at..next] == LinesOf(items[0]) && lines[next..] == Laid(items[1..])
    ensures FitsOne(items[0]) && Fits(items[1..]) && (items[0].Block? && next < |lines| ==> !Within(lines[next]))
  {
    next := at + |LinesOf(items[0])|;
    LaidNext(lines, at, items);
    if items[0].Block? {
      EndsThere(lines, next, items);
    }
  }

  lemma {:induction false} ItemsAreRead(lines: seq<string>, at: nat, items: seq<Item>, out: map<string, string>)
    requires at <= |lines| && lines[at..] == Laid(items) && Fits(items)
    ensures ParseLines(lines, at, out) == SayAll(out, items)
    decreases |items|
  {
    if items != [] {
      var next := NextItem(lines, at, items);
      ItemIsRead(lines, at, next, items[0], out);
      ItemsAreRead(lines, next, items[1..], Say(out, items[0]));
    }
  }

  lemma {:induction false} EndsThere(lines: seq<string>, next: nat, items: seq<Item>)
    requires items != [] && items[0].Block? && Fits(items) && next <= |lines| && lines[next..] == Laid(items[1..])
    requires |items| > 1 ==> next < |lines| && lines[next] == LinesOf(items[1])[0]
    ensures next < |lines| ==> !Within(lines[next])
  {
  }

  lemma {:induction false} KeyedItem(lines: seq<string>, key: string, rest: string) returns (item: Item, end: nat)
    requires lines != [] && lines[0] == key + ":" + rest && Keyed(key, rest)
    ensures 0 < end <= |lines| && LinesOf(item) == lines[..end] && FitsOne(item)
    ensures item.Block? && end < |lines| ==> !Within(lines[end])
  {
    item, end := Pair(key, rest), 1;
    if Opens(rest) {
      end := LastWithin(lines, 1);
      item := Block(key, rest, lines[1..end]);
      assert lines[..end] == [lines[0]] + lines[1..end];
    } else {
      assert lines[..1] == [lines[0]];
    }
  }

  /** The item that a list of lines begins with. */
  lemma {:induction false} FirstItem(lines: seq<string>) returns (item: Item, end: nat)
    requires lines != []
    ensures 0 < end <= |lines| && LinesOf(item) == lines[..end] && FitsOne(item)
    ensures item.Block? && end < |lines| ==> !Within(lines[end])
  {
    var n := ReadIsKeyed(lines[0]);
    if KeyLine(lines[0]).Some? {
      item, end := KeyedItem(lines, lines[0][..n], lines[0][n + 1..]);
    } else {
      item, end := Prose(lines[0]), 1;
    }
  }

  /** Every list of lines is made of fitting items. */
  lemma {:induction false} EveryLineFits(lines: seq<string>) returns (items: seq<Item>)
    ensures Laid(items) == lines && Fits(items)
    decreases |lines|
  {
    items := [];
    if lines != [] {
      var item, end := FirstItem(lines);
      var rest := EveryLineFits(lines[end..]);
      items := [item] + rest;
      assert items[1..] == rest;
      assert lines[..end] + lines[end..] == lines;
      if rest != [] {
        assert LinesOf(rest[0])[0] == Laid(rest)[0] == lines[end];
      }
    }
  }

  lemma {:induction false} LastWithin(lines: seq<string>, at: nat) returns (end: nat)
    requires at <= |lines|
    ensures at <= end <= |lines| && (forall k :: at <= k < end ==> Within(lines[k])) && (end < |lines| ==> !Within(lines[end]))
    decreases |lines| - at
  {
    end := at;
    if at < |lines| && Within(lines[at]) {
      end := LastWithin(lines, at + 1);
    }
  }

  /** Whatever its lines, a frontmatter is read as what its items say, however they are told apart. */
  lemma {:induction false} FrontmatterIsRead(lines: seq<string>) returns (items: seq<Item>)
    ensures Laid(items) == lines && Fits(items)
    ensures forall others: seq<Item> :: Laid(others) == lines && Fits(others) ==> ParseLines(lines, 0, map[]) == SayAll(map[], others)
  {
    items := EveryLineFits(lines);
    forall others: seq<Item> | Laid(others) == lines && Fits(others)
      ensures ParseLines(lines, 0, map[]) == SayAll(map[], others)
    {
      ItemsAreRead(lines, 0, others, map[]);
    }
  }
}
