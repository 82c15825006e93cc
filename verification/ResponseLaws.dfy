/** What is recorded of a whole Converse response, read off the response alone. */
module ResponseLaws {
  import opened Json
  import opened Text
  import opened Contract
  import opened ConverseStream
  import opened ConverseResponse
  import opened StreamLaws
  import opened RoundTrip
  import opened WireLaws

  function TextBlock(text: string): Value {
    Obj(map["text" := Str(text)])
  }

  function CallBlock(id: Option<string>, name: Option<string>, input: Value): Value {
    Obj(map["type" := Str("tool_use"), "input" := input] + (IfSaid("id", id) + IfSaid("name", name)))
  }

  /** The call that is narrated in a block of text. */
  ghost function Narrated(codec: Codec, names: seq<string>, b: Value): Option<Narrated> {
    if TextField(b, "text").Some? then NarratedToolCall(codec, TextField(b, "text").value, names) else None
  }

  /** The text of a block of reasoning. */
  function Thought(b: Value): Option<string> {
    match Field(b, "reasoningContent")
    case None => None
    case Some(content) =>
      match Field(content, "reasoningText")
      case None => None
      case Some(said) => TextField(said, "text")
  }

  /** What is recorded of a narrated call, when `place` blocks were opened before it and `calls` of them were narrated: the
      prose in front of it, if any, and the call, under an id made up of its number and its place. */
  function Told(n: Narrated, place: nat, calls: nat): seq<Value>
    decreases n.prose != ""
  {
    if n.prose != "" then [TextBlock(n.prose)] + Told(n.(prose := ""), place + 1, calls)
    else [CallBlock(Some("narrated_" + Decimal(calls + 1) + "_" + Decimal(place)), Some(n.name), n.input)]
  }

  /** What is recorded of one block: of a narrated call as said; text as it is; a call with what it says of itself; reasoning;
      nothing of what is not known. */
  ghost function Kept(codec: Codec, names: seq<string>, b: Value, place: nat, calls: nat): seq<Value> {
    var narrated := Narrated(codec, names, b);
    if narrated.Some? then Told(narrated.value, place, calls)
    else if TextField(b, "text").Some? then [TextBlock(TextField(b, "text").value)]
    else if Truthy(Field(b, "toolUse")) then
      var use := Field(b, "toolUse").value;
      [CallBlock(TextField(use, "toolUseId"), TextField(use, "name"), OrEmpty(Field(use, "input")))]
    else if Truthy(Field(b, "reasoningContent")) then
      if Thought(b).Some? then [Obj(map["reasoningContent" := Obj(map["reasoningText" := TextBlock(Thought(b).value)])])] else []
    else []
  }

  /** A block that is not known takes up a place, although nothing of it is kept; reasoning without text takes none. */
  predicate Unheard(b: Value) {
    TextField(b, "text").None? && !Truthy(Field(b, "toolUse")) && !Truthy(Field(b, "reasoningContent"))
  }

  ghost function Places(codec: Codec, names: seq<string>, content: seq<Value>): nat
    decreases |content|
  {
    if content == [] then 0
    else
      var b := content[|content| - 1];
      Places(codec, names, content[..|content| - 1]) + if Unheard(b) then 1 else |Kept(codec, names, b, 0, 0)|
  }

  /** How many calls are narrated. */
  ghost function Calls(codec: Codec, names: seq<string>, content: seq<Value>): nat
    decreases |content|
  {
    if content == [] then 0
    else Calls(codec, names, content[..|content| - 1]) + if Narrated(codec, names, content[|content| - 1]).Some? then 1 else 0
  }

  ghost function KeptAll(codec: Codec, names: seq<string>, content: seq<Value>): seq<Value>
    decreases |content|
  {
    if content == [] then []
    else
      var init := content[..|content| - 1];
      KeptAll(codec, names, init) + Kept(codec, names, content[|content| - 1], Places(codec, names, init), Calls(codec, names, init))
  }

  // --- Block by block ---------------------------------------------------------------------------

  lemma {:induction false} CallStored(codec: Codec, id: Option<string>, name: Option<string>, input: Option<Value>)
    requires codec.Lawful()
    ensures Stored(codec, ToolForm(id, name, input)) == CallBlock(id, name, OrEmpty(input))
  {
    var head: map<string, Value> := map["type" := Str("tool_use"), "input" := OrEmpty(input)];
    var i, n := Present("id", NonEmpty(id)), Present("name", NonEmpty(name));
    assert i == IfSaid("id", id) && n == IfSaid("name", name);
    assert head + i + n == head + (i + n);
  }

  lemma {:induction false} ReasoningMaps(codec: Codec, stream: seq<WireEvent>, index: int, text: string, model: string)
    requires MapperAfter(codec, stream, model).0 == IDLE
    ensures var (m, out) := MapperAfter(codec, stream + ReasoningEvents(index, text), model);
      m == IDLE
      && Stopped(out) == Stopped(MapperAfter(codec, stream, model).1) + [Obj(map["reasoningContent" := Obj(map["reasoningText" := TextBlock(text)])])]
  {
    var events := ReasoningEvents(index, text);
    var out := MapperAfter(codec, stream, model).1;
    MapNext(codec, stream, events[0], model);
    MapNext(codec, stream + [events[0]], events[1], model);
    assert stream + events == stream + [events[0]] + [events[1]];
    var held := OpenBlock(ThinkingKind, text, "", None, None, None);
    var a, b, c := BlockStart(index, ThinkingKind), ThinkingDelta(index, text), BlockStop(index, Verbatim(codec, held));
    assert out + ([a] + [b]) + [c] == out + [a] + [b] + [c];
    StoppedNext(out, a);
    StoppedNext(out + [a], b);
    StoppedNext(out + [a] + [b], c);
    var m1 := Take(codec, IDLE, events[0], model).0;
    assert "" + text == text;
    assert m1.open[index] == held;
    assert m1.open - {index} == map[];
  }

  lemma {:induction false} UnknownMaps(codec: Codec, stream: seq<WireEvent>, index: int, model: string)
    requires MapperAfter(codec, stream, model).0 == IDLE
    ensures var (m, out) := MapperAfter(codec, stream + [BlockDelta(index, Some(Delta(None, None, None)))], model);
      m == IDLE && Stopped(out) == Stopped(MapperAfter(codec, stream, model).1)
  {
    MapNext(codec, stream, BlockDelta(index, Some(Delta(None, None, None))), model);
    StoppedNext(MapperAfter(codec, stream, model).1, Raw);
  }

  /** What is narrated is given something: `{}` where nothing is said. */
  lemma {:induction false} NarratedIsGiven(codec: Codec, names: seq<string>, text: string)
    ensures var n := NarratedToolCall(codec, text, names);
      n.Some? ==> !n.value.input.Null?
  {
  }

  lemma {:induction false} CallMapsAs(codec: Codec, stream: seq<WireEvent>, at: int, id: Option<string>, name: Option<string>, input: Option<Value>, model: string)
    requires codec.Lawful() && MapperAfter(codec, stream, model).0 == IDLE
    ensures var (m, out) := MapperAfter(codec, stream + ToolEvents(at, id, name, codec.stringify(OrEmpty(input))), model);
      m == IDLE && Stopped(out) == Stopped(MapperAfter(codec, stream, model).1) + [CallBlock(id, name, OrEmpty(input))]
  {
    ToolMaps(codec, stream, at, ToolForm(id, name, input), model);
    CallStored(codec, id, name, input);
  }

  lemma {:induction false} TextMapsAs(codec: Codec, stream: seq<WireEvent>, at: int, text: string, model: string)
    requires MapperAfter(codec, stream, model).0 == IDLE
    ensures var (m, out) := MapperAfter(codec, stream + TextEvents(at, text), model);
      m == IDLE && Stopped(out) == Stopped(MapperAfter(codec, stream, model).1) + [TextBlock(text)]
  {
    TextMaps(codec, stream, at, text, model);
  }

  /** So far the replay has come to this: where it stands, how many calls it made, and what was kept. */
  ghost predicate Replays(codec: Codec, r: Replayed, place: nat, calls: nat, kept: seq<Value>, model: string) {
    var (m, out) := MapperAfter(codec, r.events, model);
    r.index == place && r.converted == calls && m == IDLE && Stopped(out) == kept
  }

  lemma {:induction false} BareReplays(codec: Codec, r: Replayed, n: Narrated, kept: seq<Value>, model: string)
    requires codec.Lawful() && Replays(codec, r, r.index, r.converted, kept, model) && n.prose == "" && !n.input.Null?
    ensures Replays(codec, ReplayNarrated(codec, r, n), r.index + 1, r.converted + 1, kept + Told(n, r.index, r.converted), model)
  {
    CallMapsAs(codec, r.events, r.index, Some(NarratedId(r.converted + 1, r.index)), Some(n.name), Some(n.input), model);
    assert r.events + [] == r.events;
  }

  lemma {:induction false} TextReplays(codec: Codec, r: Replayed, text: string, kept: seq<Value>, model: string)
    requires Replays(codec, r, r.index, r.converted, kept, model)
    ensures Replays(codec, Replayed(r.index + 1, r.converted, r.events + TextEvents(r.index, text)), r.index + 1, r.converted,
                    kept + [TextBlock(text)], model)
  {
    TextMapsAs(codec, r.events, r.index, text, model);
  }

  lemma {:induction false} ProseFirst(codec: Codec, r: Replayed, n: Narrated)
    requires n.prose != ""
    ensures ReplayNarrated(codec, r, n)
      == ReplayNarrated(codec, Replayed(r.index + 1, r.converted, r.events + TextEvents(r.index, n.prose)), n.(prose := ""))
  {
    var said := r.events + TextEvents(r.index, n.prose);
    assert said + [] == said;
  }

  lemma {:induction false} NarratedReplays(codec: Codec, r: Replayed, n: Narrated, kept: seq<Value>, model: string)
    requires codec.Lawful() && Replays(codec, r, r.index, r.converted, kept, model) && !n.input.Null?
    ensures var more := Told(n, r.index, r.converted);
      Replays(codec, ReplayNarrated(codec, r, n), r.index + |more|, r.converted + 1, kept + more, model)
  {
    if n.prose == "" {
      BareReplays(codec, r, n, kept, model);
    } else {
      var said := Replayed(r.index + 1, r.converted, r.events + TextEvents(r.index, n.prose));
      TextReplays(codec, r, n.prose, kept, model);
      ProseFirst(codec, r, n);
      BareReplays(codec, said, n.(prose := ""), kept + [TextBlock(n.prose)], model);
      var call := Told(n.(prose := ""), r.index + 1, r.converted);
      assert kept + [TextBlock(n.prose)] + call == kept + ([TextBlock(n.prose)] + call);
    }
  }

  lemma {:induction false} OtherReplays(codec: Codec, names: seq<string>, r: Replayed, b: Value, kept: seq<Value>, model: string)
    requires codec.Lawful() && Replays(codec, r, r.index, r.converted, kept, model) && Narrated(codec, names, b).None?
    ensures var more := Kept(codec, names, b, r.index, r.converted);
      Replays(codec, ReplayBlock(codec, names, r, b), r.index + if Unheard(b) then 1 else |more|, r.converted, kept + more, model)
  {
    if TextField(b, "text").Some? {
      TextMapsAs(codec, r.events, r.index, TextField(b, "text").value, model);
    } else if Truthy(Field(b, "toolUse")) {
      var use := Field(b, "toolUse").value;
      CallMapsAs(codec, r.events, r.index, TextField(use, "toolUseId"), TextField(use, "name"), Field(use, "input"), model);
    } else if Unheard(b) {
      UnknownMaps(codec, r.events, r.index, model);
      assert kept + [] == kept;
    } else if Thought(b).Some? {
      ReasoningMaps(codec, r.events, r.index, Thought(b).value, model);
    } else {
      assert kept + [] == kept;
    }
  }

  /** How many blocks are kept of one does not depend on what came before. */
  lemma {:induction false} ToldSameMany(n: Narrated, place: nat, calls: nat)
    ensures |Told(n, place, calls)| == if n.prose == "" then 1 else 2
  {
  }

  lemma {:induction false} SameMany(codec: Codec, names: seq<string>, b: Value, place: nat, calls: nat)
    ensures |Kept(codec, names, b, place, calls)| == |Kept(codec, names, b, 0, 0)|
    ensures Narrated(codec, names, b).Some? ==> !Unheard(b)
  {
    if Narrated(codec, names, b).Some? {
      ToldSameMany(Narrated(codec, names, b).value, place, calls);
      ToldSameMany(Narrated(codec, names, b).value, 0, 0);
    }
  }

  lemma {:induction false} ReplayKeeps(codec: Codec, names: seq<string>, content: seq<Value>, model: string)
    requires codec.Lawful()
    ensures Replays(codec, ReplayContent(codec, names, content), Places(codec, names, content), Calls(codec, names, content),
                    KeptAll(codec, names, content), model)
    decreases |content|
  {
    if content == [] {
      NothingIsStored(codec, names, model);
    } else {
      var init, b := content[..|content| - 1], content[|content| - 1];
      ReplayKeeps(codec, names, init, model);
      var r := ReplayContent(codec, names, init);
      SameMany(codec, names, b, r.index, r.converted);
      if Narrated(codec, names, b).Some? {
        NarratedIsGiven(codec, names, TextField(b, "text").value);
        NarratedReplays(codec, r, Narrated(codec, names, b).value, KeptAll(codec, names, init), model);
      } else {
        OtherReplays(codec, names, r, b, KeptAll(codec, names, init), model);
      }
    }
  }

  /** This says so much: these blocks, then once why it stopped and what was used, and then that it is over. */
  ghost predicate Sums(out: seq<ProviderEvent>, blocks: seq<Value>, forTools: bool, usage: Option<(nat, nat)>) {
    && Stopped(out) == blocks
    && |out| >= 2 && out[|out| - 2].MessageDelta? && out[|out| - 1].MessageStop?
    && (out[|out| - 2].stopReason == ToolUse <==> forTools)
    && out[|out| - 2].usage == if usage.Some? then Usage(usage.value.0, usage.value.1, 0, 0) else Usage(0, 0, 0, 0)
  }

  /** For every response: the blocks recorded of it are, in order, what it holds: text and reasoning as they came, each call
      with its own id, name and input, and a call that was only narrated as a call, its prose in front of it; nothing else. And
      it stops for its tools if any call was narrated, whatever it said itself. */
  lemma {:induction false} ResponseIsKept(codec: Codec, names: seq<string>, content: seq<Value>,
                                          stopReason: Option<string>, usage: Option<(nat, nat)>, model: string)
    requires codec.Lawful()
    ensures Sums(Mapped(codec, StreamOf(codec, names, content, stopReason, usage), model), KeptAll(codec, names, content),
                 Calls(codec, names, content) > 0 || stopReason == Some("tool_use"), usage)
  {
    ReplayKeeps(codec, names, content, model);
    ResponseSettlesOnce(codec, names, content, stopReason, usage, model);
    var r := ReplayContent(codec, names, content);
    EndsSo(MapperAfter(codec, r.events, model).1, FinalReason(r.converted, stopReason), usage);
  }

  lemma {:induction false} EndsSo(body: seq<ProviderEvent>, reason: string, usage: Option<(nat, nat)>)
    ensures Sums(body + ClosingOf(reason, usage), Stopped(body), reason == "tool_use", usage)
  {
    var closing := ClosingOf(reason, usage);
    StoppedNext(body, closing[0]);
    StoppedNext(body + [closing[0]], MessageStop);
    assert body + closing == body + [closing[0]] + [MessageStop];
  }

  // --- What a text is read for -------------------------------------------------------------------

  lemma {:induction false} TagEnds(inner: string, gap: string, body: string, trail: string)
    requires inner == gap + body + trail && AllSpace(trail) && !("json" <= gap + body)
    ensures !("json" <= inner)
  {
    var n := |gap + body|;
    if n >= 4 {
      assert inner[..4] == (gap + body)[..4];
    } else if |inner| >= 4 {
      assert Space(inner[n]) && !Space("json"[n]);
    }
  }

  lemma {:induction false} Unfenced(text: string, inner: string)
    requires Trim(text) == "```" + inner + "```"
    ensures StripFence(text) == Trim(if "json" <= inner then inner[4..] else inner)
  {
    var t := "```" + inner + "```";
    assert t[..3] == "```" && t[|t| - 3..] == "```" && t[3..|t| - 3] == inner;
    assert "json" <= inner <==> |inner| >= 4 && inner[..4] == "json";
  }

  /** A fence around a text, tagged or not, and the space about it are no part of it. */
  lemma {:induction false} FenceIsStripped(lead: string, tag: string, gap: string, body: string, space: string, trail: string)
    requires AllSpace(lead) && AllSpace(gap) && AllSpace(space) && AllSpace(trail)
    requires body != "" ==> !Space(body[0]) && !Space(body[|body| - 1])
    requires tag == "json" || (tag == "" && !("json" <= gap + body))
    ensures StripFence(lead + ("```" + (tag + (gap + body + space)) + "```") + trail) == body
  {
    var inner := tag + (gap + body + space);
    TrimIs(lead, "```" + inner + "```", trail);
    Unfenced(lead + ("```" + inner + "```") + trail, inner);
    TrimIs(gap, body, space);
    if tag == "json" {
      assert inner[..4] == "json" && inner[4..] == gap + body + space;
    } else {
      assert inner == gap + body + space;
      TagEnds(inner, gap, body, space);
    }
  }

  /** And nothing else is taken off. */
  lemma {:induction false} OnlyFencesAreStripped(text: string)
    requires var t := Trim(text); |t| < 6 || !("```" <= t) || t[|t| - 3..] != "```"
    ensures StripFence(text) == text
  {
  }

  /** A narrated call is given what is said under the first of three names under which something is said. */
  lemma {:induction false} NarratedInput(p: Value)
    requires p.Obj?
    ensures var said := (name: string) => name in p.fields && p.fields[name] != Null;
      InputOf(p) ==
        if said("parameters") then p.fields["parameters"]
        else if said("arguments") then p.fields["arguments"]
        else if said("input") then p.fields["input"]
        else Obj(map[])
  {
  }
}
