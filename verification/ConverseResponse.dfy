/** A whole Converse response, replayed as the stream it would have been. */
module ConverseResponse {
  import opened Json
  import opened Text
  import opened ConverseStream

  datatype Narrated = Narrated(name: string, input: Value, prose: string)

  const FENCE := "```"

  /** Models often wrap the JSON in a markdown fence. */
  function StripFence(text: string): string {
    var t := Trim(text);
    if |t| >= 6 && t[..3] == FENCE && t[|t| - 3..] == FENCE then
      var inner := t[3..|t| - 3];
      Trim(if |inner| >= 4 && inner[..4] == "json" then inner[4..] else inner)
    else text
  }

  /** `{` stands at `i`, and from there on the text parses. */
  predicate ParsesAt(codec: Codec, text: string, i: nat) {
    i < |text| && text[i] == '{' && codec.parse(Trim(text[i..])).Some?
  }

  function Coalesce(a: Option<Value>, b: Option<Value>): Option<Value> {
    if a.None? || a.value.Null? then b else a
  }

  /** `p.parameters ?? p.arguments ?? p.input ?? {}` */
  function InputOf(p: Value): Value {
    Coalesce(Field(p, "parameters"), Coalesce(Field(p, "arguments"), Coalesce(Field(p, "input"), Some(Obj(map[]))))).value
  }

  predicate EndsInBrace(text: string) {
    TrimEnd(text) != "" && TrimEnd(text)[|TrimEnd(text)| - 1] == '}'
  }

  /** The text, without a fence around it, is prose and then, from `at` to its end, one JSON object that calls a
      tool that was offered; and from no earlier brace does the rest parse. */
  ghost predicate Narrates(codec: Codec, text: string, names: seq<string>, at: nat, n: Narrated) {
    var fenced := StripFence(text);
    && EndsInBrace(fenced)
    && ParsesAt(codec, fenced, at) && (forall i :: 0 <= i < at ==> !ParsesAt(codec, fenced, i))
    && var p := codec.parse(Trim(fenced[at..])).value;
       && p.Obj? && TextField(p, "name") == Some(n.name) && n.name in names
       && n == Narrated(n.name, InputOf(p), Trim(fenced[..at]))
  }

  /** The call a text narrates, if it does: there is never more than one. */
  ghost function NarratedToolCall(codec: Codec, text: string, names: seq<string>): (r: Option<Narrated>)
    ensures r.Some? ==> exists at :: Narrates(codec, text, names, at, r.value)
    ensures r.None? ==> forall at, n :: !Narrates(codec, text, names, at, n)
  {
    if exists at, n :: Narrates(codec, text, names, at, n) then
      var at, n :| Narrates(codec, text, names, at, n);
      Some(n)
    else None
  }

  lemma {:induction false} NarratesOnce(codec: Codec, text: string, names: seq<string>, at: nat, n: Narrated, at': nat, n': Narrated)
    requires Narrates(codec, text, names, at, n) && Narrates(codec, text, names, at', n')
    ensures at == at' && n == n'
  {
  }

  /** Left to right: the innermost brace of a nested payload would never parse. */
  method ScanBraces(codec: Codec, text: string) returns (at: Option<nat>)
    ensures at.Some? ==> ParsesAt(codec, text, at.value) && forall i :: 0 <= i < at.value ==> !ParsesAt(codec, text, i)
    ensures at.None? ==> forall i: nat :: !ParsesAt(codec, text, i)
  {
    var i := 0;
    while i < |text|
      invariant 0 <= i <= |text| && forall k :: 0 <= k < i ==> !ParsesAt(codec, text, k)
    {
      if ParsesAt(codec, text, i) { return Some(i); }
      i := i + 1;
    }
    at := None;
  }

  /** A call is found exactly when the text narrates one, and it is the one it narrates. */
  method FindNarrated(codec: Codec, text: string, names: seq<string>) returns (r: Option<Narrated>)
    ensures r.Some? ==> exists at :: Narrates(codec, text, names, at, r.value)
    ensures r.None? ==> forall at, n :: !Narrates(codec, text, names, at, n)
    ensures r == NarratedToolCall(codec, text, names)
  {
    if |names| == 0 { return None; }
    var fenced := StripFence(text);
    var tail := TrimEnd(fenced);
    if tail == "" || tail[|tail| - 1] != '}' { return None; }
    var at := ScanBraces(codec, fenced);
    if at.None? { return None; }
    var p := codec.parse(Trim(fenced[at.value..])).value;
    var name := TextField(p, "name");
    if !p.Obj? || name.None? || name.value !in names {
      assert forall k, n :: Narrates(codec, text, names, k, n) ==> k == at.value;
      return None;
    }
    r := Some(Narrated(name.value, InputOf(p), Trim(fenced[..at.value])));
    assert Narrates(codec, text, names, at.value, r.value);
    ghost var found := NarratedToolCall(codec, text, names);
    ghost var there :| Narrates(codec, text, names, there, found.value);
    NarratesOnce(codec, text, names, at.value, r.value, there, found.value);
  }

  // --- The replay ------------------------------------------------------------------------

  function TextEvents(index: int, text: string): seq<WireEvent> {
    [BlockDelta(index, Some(Delta(Some(text), None, None))), BlockClose(index)]
  }

  function ToolEvents(index: int, id: Option<string>, name: Option<string>, json: string): seq<WireEvent> {
    [BlockOpen(index, Some(ToolStart(id, name))), BlockDelta(index, Some(Delta(None, Some(json), None))), BlockClose(index)]
  }

  function ReasoningEvents(index: int, text: string): seq<WireEvent> {
    [BlockDelta(index, Some(Delta(None, None, Some(Reasoning(Some(text), None))))), BlockClose(index)]
  }

  function NarratedId(converted: nat, index: nat): string {
    "narrated_" + Decimal(converted) + "_" + Decimal(index)
  }

  datatype Replayed = Replayed(index: nat, converted: nat, events: seq<WireEvent>)

  function ReplayNarrated(codec: Codec, r: Replayed, n: Narrated): Replayed {
    var prose := if n.prose == "" then [] else TextEvents(r.index, n.prose);
    var at := if n.prose == "" then r.index else r.index + 1;
    Replayed(at + 1, r.converted + 1,
             r.events + prose + ToolEvents(at, Some(NarratedId(r.converted + 1, at)), Some(n.name), codec.stringify(n.input)))
  }

  ghost function ReplayBlock(codec: Codec, names: seq<string>, r: Replayed, b: Value): Replayed {
    if TextField(b, "text").Some? then
      var text := TextField(b, "text").value;
      match NarratedToolCall(codec, text, names)
      case Some(n) => ReplayNarrated(codec, r, n)
      case None => Replayed(r.index + 1, r.converted, r.events + TextEvents(r.index, text))
    else if Truthy(Field(b, "toolUse")) then
      var use := Field(b, "toolUse").value;
      Replayed(r.index + 1, r.converted,
               r.events + ToolEvents(r.index, TextField(use, "toolUseId"), TextField(use, "name"),
                                     codec.stringify(OrEmpty(Field(use, "input")))))
    else if Truthy(Field(b, "reasoningContent")) then
      var inner := Field(Field(b, "reasoningContent").value, "reasoningText");
      var text := if inner.Some? then TextField(inner.value, "text") else None;
      if text.Some? then Replayed(r.index + 1, r.converted, r.events + ReasoningEvents(r.index, text.value)) else r
    else Replayed(r.index + 1, r.converted, r.events + [BlockDelta(r.index, Some(Delta(None, None, None)))])
  }

  ghost function ReplayContent(codec: Codec, names: seq<string>, content: seq<Value>): Replayed
    decreases |content|
  {
    if content == [] then Replayed(0, 0, [Start])
    else ReplayBlock(codec, names, ReplayContent(codec, names, content[..|content| - 1]), content[|content| - 1])
  }

  /** A converted call must report `tool_use`, whatever the response claimed. */
  function Ending(converted: nat, stopReason: Option<string>, usage: Option<(nat, nat)>): seq<WireEvent> {
    [Stop(if converted > 0 then "tool_use" else if stopReason.Some? then stopReason.value else "end_turn")]
    + (if usage.Some? then [Metadata(usage.value.0, usage.value.1)] else [])
  }

  ghost function StreamOf(codec: Codec, names: seq<string>, content: seq<Value>, stopReason: Option<string>, usage: Option<(nat, nat)>): seq<WireEvent> {
    var r := ReplayContent(codec, names, content);
    r.events + Ending(r.converted, stopReason, usage)
  }

  /** One block of the response. */
  method ReplayNext(codec: Codec, names: seq<string>, r: Replayed, b: Value) returns (r': Replayed)
    ensures r' == ReplayBlock(codec, names, r, b)
  {
    if TextField(b, "text").Some? {
      var text := TextField(b, "text").value;
      var narrated := FindNarrated(codec, text, names);
      match narrated
      case Some(n) => r' := ReplayNarrated(codec, r, n);
      case None => r' := Replayed(r.index + 1, r.converted, r.events + TextEvents(r.index, text));
    } else if Truthy(Field(b, "toolUse")) {
      var use := Field(b, "toolUse").value;
      r' := Replayed(r.index + 1, r.converted,
                     r.events + ToolEvents(r.index, TextField(use, "toolUseId"), TextField(use, "name"),
                                           codec.stringify(OrEmpty(Field(use, "input")))));
    } else if Truthy(Field(b, "reasoningContent")) {
      var inner := Field(Field(b, "reasoningContent").value, "reasoningText");
      var text := if inner.Some? then TextField(inner.value, "text") else None;
      r' := if text.Some? then Replayed(r.index + 1, r.converted, r.events + ReasoningEvents(r.index, text.value)) else r;
    } else {
      r' := Replayed(r.index + 1, r.converted, r.events + [BlockDelta(r.index, Some(Delta(None, None, None)))]);
    }
  }

  method ResponseToStreamEvents(codec: Codec, names: seq<string>, content: seq<Value>, stopReason: Option<string>, usage: Option<(nat, nat)>)
    returns (events: seq<WireEvent>)
    ensures events == StreamOf(codec, names, content, stopReason, usage)
  {
    var r := Replayed(0, 0, [Start]);
    for i := 0 to |content|
      invariant r == ReplayContent(codec, names, content[..i])
    {
      assert content[..i + 1][..i] == content[..i];
      r := ReplayNext(codec, names, r, content[i]);
    }
    assert content[..|content|] == content;
    events := r.events + Ending(r.converted, stopReason, usage);
  }

  // --- Made-up ids ------------------------------------------------------------------------

  /** The first block is a call written as text, with nothing before it. */
  ghost predicate OpensWithCall(codec: Codec, names: seq<string>, content: seq<Value>) {
    && content != [] && TextField(content[0], "text").Some?
    && exists at, n :: Narrates(codec, TextField(content[0], "text").value, names, at, n) && n.prose == ""
  }

  lemma {:induction false} ReplayGrows(codec: Codec, names: seq<string>, content: seq<Value>, k: nat)
    requires k <= |content|
    ensures ReplayContent(codec, names, content[..k]).events <= ReplayContent(codec, names, content).events
    decreases |content|
  {
    if k < |content| {
      var init := content[..|content| - 1];
      assert init[..k] == content[..k];
      ReplayGrows(codec, names, init, k);
    } else {
      assert content[..k] == content;
    }
  }

  /** Its events, up to the end of the call. */
  function FirstCall(codec: Codec, n: Narrated): seq<WireEvent> {
    [Start] + ToolEvents(0, Some(NarratedId(1, 0)), Some(n.name), codec.stringify(n.input))
  }

  lemma {:induction false} FirstCallReplays(codec: Codec, names: seq<string>, content: seq<Value>) returns (n: Narrated)
    requires OpensWithCall(codec, names, content)
    ensures ReplayContent(codec, names, content[..1]).events == FirstCall(codec, n)
  {
    var text := TextField(content[0], "text").value;
    var at, call :| Narrates(codec, text, names, at, call) && call.prose == "";
    n := call;
    var found := NarratedToolCall(codec, text, names);
    var there :| Narrates(codec, text, names, there, found.value);
    NarratesOnce(codec, text, names, at, n, there, found.value);
    FirstBlockReplays(codec, names, content[0], n);
    assert content[..1][..0] == [];
    assert ReplayContent(codec, names, []) == Replayed(0, 0, [Start]);
    assert ReplayContent(codec, names, content[..1]) == ReplayBlock(codec, names, Replayed(0, 0, [Start]), content[0]);
  }

  lemma {:induction false} FirstBlockReplays(codec: Codec, names: seq<string>, b: Value, n: Narrated)
    requires TextField(b, "text").Some? && NarratedToolCall(codec, TextField(b, "text").value, names) == Some(n) && n.prose == ""
    ensures ReplayBlock(codec, names, Replayed(0, 0, [Start]), b).events == FirstCall(codec, n)
  {
  }

  /** So does every stream that opens so. */
  lemma {:induction false} FirstCallStreams(codec: Codec, names: seq<string>, content: seq<Value>, stopReason: Option<string>, usage: Option<(nat, nat)>)
    returns (n: Narrated)
    requires OpensWithCall(codec, names, content)
    ensures var stream := StreamOf(codec, names, content, stopReason, usage);
      FirstCall(codec, n) <= stream && stream[1] == BlockOpen(0, Some(ToolStart(Some(NarratedId(1, 0)), Some(n.name))))
  {
    n := FirstCallReplays(codec, names, content);
    ReplayGrows(codec, names, content, 1);
    assert FirstCall(codec, n)[1] == BlockOpen(0, Some(ToolStart(Some(NarratedId(1, 0)), Some(n.name))));
  }

  /** The ids start over in every response: any two that open with a narrated call, of whatever tools, open it
      under one id. */
  lemma {:induction false} NarratedIdsRestart(codec: Codec, names: seq<string>, others: seq<string>, a: seq<Value>, b: seq<Value>,
                                              aReason: Option<string>, bReason: Option<string>,
                                              aUsage: Option<(nat, nat)>, bUsage: Option<(nat, nat)>)
    requires OpensWithCall(codec, names, a) && OpensWithCall(codec, others, b)
    ensures var s, t := StreamOf(codec, names, a, aReason, aUsage), StreamOf(codec, others, b, bReason, bUsage);
      && |s| > 1 && |t| > 1 && s[1].BlockOpen? && t[1].BlockOpen? && s[1].toolUse.Some? && t[1].toolUse.Some?
      && s[1].toolUse.value.toolUseId == t[1].toolUse.value.toolUseId == Some(NarratedId(1, 0))
  {
    var m := FirstCallStreams(codec, names, a, aReason, aUsage);
    var n := FirstCallStreams(codec, others, b, bReason, bUsage);
  }
}
