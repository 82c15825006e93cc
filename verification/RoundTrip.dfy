/** A Converse response, replayed as a stream, mapped to blocks, kept, and sent back with the next request. */
module RoundTrip {
  import opened Json
  import opened Contract
  import opened ConverseStream
  import opened ConverseResponse
  import opened Translation
  import opened StreamLaws
  import ConverseRequest
  import Surface

  // --- Every response settles once -----------------------------------------------------------

  predicate Settles(e: ProviderEvent) {
    e.MessageDelta? || e.MessageStop?
  }

  ghost predicate NoneSettles(events: seq<ProviderEvent>) {
    forall i :: 0 <= i < |events| ==> !Settles(events[i])
  }

  ghost predicate Unstopped(stream: seq<WireEvent>) {
    forall i :: 0 <= i < |stream| ==> !stream[i].Stop? && !stream[i].Metadata?
  }

  lemma {:induction false} UnstoppedMaps(codec: Codec, stream: seq<WireEvent>, model: string)
    requires Unstopped(stream)
    ensures var (m, out) := MapperAfter(codec, stream, model);
      !m.sawStop && m.stopReason == EndTurn && NoneSettles(out)
    decreases |stream|
  {
    if stream != [] {
      var init := stream[..|stream| - 1];
      assert forall i :: 0 <= i < |init| ==> init[i] == stream[i];
      UnstoppedMaps(codec, init, model);
    }
  }

  lemma {:induction false} NarratedUnstopped(codec: Codec, r: Replayed, n: Narrated)
    requires Unstopped(r.events)
    ensures Unstopped(ReplayNarrated(codec, r, n).events)
  {
  }

  lemma {:induction false} BlockUnstopped(codec: Codec, names: seq<string>, r: Replayed, b: Value)
    requires Unstopped(r.events)
    ensures Unstopped(ReplayBlock(codec, names, r, b).events)
  {
    if TextField(b, "text").Some? && NarratedToolCall(codec, TextField(b, "text").value, names).Some? {
      NarratedUnstopped(codec, r, NarratedToolCall(codec, TextField(b, "text").value, names).value);
    }
  }

  lemma {:induction false} ReplayUnstopped(codec: Codec, names: seq<string>, content: seq<Value>)
    ensures Unstopped(ReplayContent(codec, names, content).events)
    decreases |content|
  {
    if content != [] {
      ReplayUnstopped(codec, names, content[..|content| - 1]);
      BlockUnstopped(codec, names, ReplayContent(codec, names, content[..|content| - 1]), content[|content| - 1]);
    }
  }

  lemma {:induction false} MapNext(codec: Codec, stream: seq<WireEvent>, e: WireEvent, model: string)
    ensures var (m, out) := MapperAfter(codec, stream, model);
      MapperAfter(codec, stream + [e], model) == (Take(codec, m, e, model).0, out + Take(codec, m, e, model).1)
  {
  }

  function ClosingOf(reason: string, usage: Option<(nat, nat)>): seq<ProviderEvent> {
    [MessageDelta(ReasonFor(reason), if usage.Some? then Usage(usage.value.0, usage.value.1, 0, 0) else ZERO_USAGE), MessageStop]
  }

  lemma {:induction false} EndingMaps(codec: Codec, stream: seq<WireEvent>, reason: string, usage: Option<(nat, nat)>, model: string)
    requires !MapperAfter(codec, stream, model).0.sawStop
    ensures Mapped(codec, stream + ([Stop(reason)] + (if usage.Some? then [Metadata(usage.value.0, usage.value.1)] else [])), model)
      == MapperAfter(codec, stream, model).1 + ClosingOf(reason, usage)
  {
    var (m, body) := MapperAfter(codec, stream, model);
    MapNext(codec, stream, Stop(reason), model);
    assert body + [] == body;
    if usage.Some? {
      var metadata := Metadata(usage.value.0, usage.value.1);
      MapNext(codec, stream + [Stop(reason)], metadata, model);
      assert stream + ([Stop(reason)] + [metadata]) == stream + [Stop(reason)] + [metadata];
      assert body + ClosingOf(reason, usage) + [] == body + ClosingOf(reason, usage);
    } else {
      assert stream + ([Stop(reason)] + []) == stream + [Stop(reason)];
    }
  }

  function FinalReason(converted: nat, stopReason: Option<string>): string {
    if converted > 0 then "tool_use" else if stopReason.Some? then stopReason.value else "end_turn"
  }

  /** Whatever the response holds, its stream is mapped to events that end with exactly one
      `message_delta`, followed by one `message_stop`. */
  lemma {:induction false} ResponseSettlesOnce(codec: Codec, names: seq<string>, content: seq<Value>,
                                               stopReason: Option<string>, usage: Option<(nat, nat)>, model: string)
    ensures var r := ReplayContent(codec, names, content);
      var body := MapperAfter(codec, r.events, model).1;
      && NoneSettles(body)
      && Mapped(codec, StreamOf(codec, names, content, stopReason, usage), model)
         == body + ClosingOf(FinalReason(r.converted, stopReason), usage)
  {
    var r := ReplayContent(codec, names, content);
    ReplayUnstopped(codec, names, content);
    UnstoppedMaps(codec, r.events, model);
    EndingMaps(codec, r.events, FinalReason(r.converted, stopReason), usage, model);
  }

  // --- And is echoed as it came ------------------------------------------------------------------

  /** The blocks of a response that is text and tool use. */
  datatype Form =
    | TextForm(text: string)
    | ToolForm(id: Option<string>, name: Option<string>, input: Option<Value>)

  function ToolFields(f: Form): map<string, Value>
    requires f.ToolForm?
  {
    Present("toolUseId", f.id) + Present("name", f.name) + (if f.input.Some? then map["input" := f.input.value] else map[])
  }

  function Shape(f: Form): Value {
    match f
    case TextForm(text) => ConverseRequest.TextOnly(text)
    case ToolForm(_, _, _) => Obj(map["toolUse" := Obj(ToolFields(f))])
  }

  function Content(forms: seq<Form>): (r: seq<Value>)
    ensures |r| == |forms| && forall i :: 0 <= i < |r| ==> r[i] == Shape(forms[i])
  {
    seq(|forms|, i requires 0 <= i < |forms| => Shape(forms[i]))
  }

  ghost predicate NothingNarrated(codec: Codec, names: seq<string>, forms: seq<Form>) {
    forall i :: 0 <= i < |forms| && forms[i].TextForm? ==> NarratedToolCall(codec, forms[i].text, names) == None
  }

  /** A call that says what it is and what it is given. */
  predicate Complete(f: Form) {
    f.ToolForm? ==> f.id.Some? && f.name.Some? && f.input.Some? && !f.input.value.Null?
  }

  /** What the surface keeps of a block. */
  function Stored(codec: Codec, f: Form): Value {
    match f
    case TextForm(text) => Verbatim(codec, OpenBlock(TextKind, text, "", None, None, None))
    case ToolForm(id, name, input) =>
      Verbatim(codec, OpenBlock(ToolUseKind, "", codec.stringify(OrEmpty(input)), NonEmpty(id), NonEmpty(name), None))
  }

  function StoredAll(codec: Codec, forms: seq<Form>): (r: seq<Value>)
    ensures |r| == |forms| && forall i :: 0 <= i < |r| ==> r[i] == Stored(codec, forms[i])
  {
    seq(|forms|, i requires 0 <= i < |forms| => Stored(codec, forms[i]))
  }

  function EventsOf(codec: Codec, index: int, f: Form): seq<WireEvent> {
    match f
    case TextForm(text) => TextEvents(index, text)
    case ToolForm(id, name, input) => ToolEvents(index, id, name, codec.stringify(OrEmpty(input)))
  }

  lemma {:induction false} FormReplays(codec: Codec, names: seq<string>, r: Replayed, f: Form)
    requires f.TextForm? ==> NarratedToolCall(codec, f.text, names) == None
    ensures ReplayBlock(codec, names, r, Shape(f)) == Replayed(r.index + 1, r.converted, r.events + EventsOf(codec, r.index, f))
  {
  }

  lemma {:induction false} StoppedNext(events: seq<ProviderEvent>, e: ProviderEvent)
    ensures Stopped(events + [e]) == if e.BlockStop? then Stopped(events) + [e.block] else Stopped(events)
  {
  }

  lemma {:induction false} TextMaps(codec: Codec, stream: seq<WireEvent>, index: int, text: string, model: string)
    requires MapperAfter(codec, stream, model).0 == IDLE
    ensures var (m, out) := MapperAfter(codec, stream + TextEvents(index, text), model);
      m == IDLE && Stopped(out) == Stopped(MapperAfter(codec, stream, model).1) + [Stored(codec, TextForm(text))]
  {
    var events := TextEvents(index, text);
    var out := MapperAfter(codec, stream, model).1;
    MapNext(codec, stream, events[0], model);
    MapNext(codec, stream + [events[0]], events[1], model);
    assert stream + events == stream + [events[0]] + [events[1]];
    var a, b, c := BlockStart(index, TextKind), TextDelta(index, text), BlockStop(index, Stored(codec, TextForm(text)));
    assert out + ([a] + [b]) + [c] == out + [a] + [b] + [c];
    StoppedNext(out, a);
    StoppedNext(out + [a], b);
    StoppedNext(out + [a] + [b], c);
    var m1 := Take(codec, IDLE, events[0], model).0;
    assert m1.open[index] == OpenBlock(TextKind, text, "", None, None, None);
    assert m1.open - {index} == map[];
  }

  lemma {:induction false} ToolMaps(codec: Codec, stream: seq<WireEvent>, index: int, f: Form, model: string)
    requires MapperAfter(codec, stream, model).0 == IDLE && f.ToolForm?
    ensures var (m, out) := MapperAfter(codec, stream + EventsOf(codec, index, f), model);
      m == IDLE && Stopped(out) == Stopped(MapperAfter(codec, stream, model).1) + [Stored(codec, f)]
  {
    var events := EventsOf(codec, index, f);
    var json := codec.stringify(OrEmpty(f.input));
    var out := MapperAfter(codec, stream, model).1;
    MapNext(codec, stream, events[0], model);
    MapNext(codec, stream + [events[0]], events[1], model);
    MapNext(codec, stream + [events[0]] + [events[1]], events[2], model);
    assert stream + events == stream + [events[0]] + [events[1]] + [events[2]];
    var a, b, c := BlockStart(index, ToolUseKind), ToolInputDelta(index, json), BlockStop(index, Stored(codec, f));
    StoppedNext(out, a);
    StoppedNext(out + [a], b);
    StoppedNext(out + [a] + [b], c);
    var m1 := Take(codec, IDLE, events[0], model).0;
    var m2 := Take(codec, m1, events[1], model).0;
    assert "" + json == json;
    assert m2.open[index] == OpenBlock(ToolUseKind, "", json, NonEmpty(f.id), NonEmpty(f.name), None);
    assert m2.open - {index} == map[];
  }

  /** The blocks kept of a response are its own, in order, each in the stored shape. */
  lemma {:induction false} ResponseIsStored(codec: Codec, names: seq<string>, forms: seq<Form>, model: string)
    requires NothingNarrated(codec, names, forms)
    ensures var r := ReplayContent(codec, names, Content(forms));
      var (m, out) := MapperAfter(codec, r.events, model);
      m == IDLE && Stopped(out) == StoredAll(codec, forms)
    decreases |forms|
  {
    if forms == [] {
      NothingIsStored(codec, names, model);
      assert Content(forms) == [];
    } else {
      var init, f := forms[..|forms| - 1], forms[|forms| - 1];
      assert forall i :: 0 <= i < |init| ==> init[i] == forms[i];
      ResponseIsStored(codec, names, init, model);
      var r := ReplayContent(codec, names, Content(init));
      FormIsStored(codec, names, r, f, model);
      ReplayLast(codec, names, forms);
      StoredLast(codec, forms);
    }
  }

  lemma {:induction false} ReplayLast(codec: Codec, names: seq<string>, forms: seq<Form>)
    requires forms != []
    ensures ReplayContent(codec, names, Content(forms))
      == ReplayBlock(codec, names, ReplayContent(codec, names, Content(forms[..|forms| - 1])), Shape(forms[|forms| - 1]))
  {
    assert Content(forms)[..|forms| - 1] == Content(forms[..|forms| - 1]);
  }

  lemma {:induction false} StoredLast(codec: Codec, forms: seq<Form>)
    requires forms != []
    ensures StoredAll(codec, forms) == StoredAll(codec, forms[..|forms| - 1]) + [Stored(codec, forms[|forms| - 1])]
  {
  }

  lemma {:induction false} NothingIsStored(codec: Codec, names: seq<string>, model: string)
    ensures var (m, out) := MapperAfter(codec, ReplayContent(codec, names, []).events, model);
      m == IDLE && Stopped(out) == []
  {
  }

  lemma {:induction false} FormIsStored(codec: Codec, names: seq<string>, r: Replayed, f: Form, model: string)
    requires f.TextForm? ==> NarratedToolCall(codec, f.text, names) == None
    requires MapperAfter(codec, r.events, model).0 == IDLE
    ensures var (m, out) := MapperAfter(codec, ReplayBlock(codec, names, r, Shape(f)).events, model);
      m == IDLE && Stopped(out) == Stopped(MapperAfter(codec, r.events, model).1) + [Stored(codec, f)]
  {
    FormReplays(codec, names, r, f);
    if f.TextForm? {
      TextMaps(codec, r.events, r.index, f.text, model);
    } else {
      ToolMaps(codec, r.events, r.index, f, model);
    }
  }

  /** What is sent back of one kept block. */
  lemma {:induction false} TextEchoes(codec: Codec, text: string)
    ensures ConverseRequest.TranslateBlock(codec, Stored(codec, TextForm(text))) == Kept(Shape(TextForm(text)))
  {
  }

  function EchoedFields(f: Form): map<string, Value>
    requires f.ToolForm?
  {
    map["toolUseId" := Str(if f.id.Some? then f.id.value else ""), "name" := Str(if f.name.Some? then f.name.value else ""),
        "input" := OrEmpty(f.input)]
  }

  /** What the surface holds of a call, field by field. */
  lemma {:induction false} StoredTool(codec: Codec, f: Form)
    requires codec.Lawful() && f.ToolForm?
    ensures var b := Stored(codec, f);
      && b.Obj? && TextField(b, "type") == Some("tool_use") && Field(b, "input") == Some(OrEmpty(f.input))
      && ShowField(b, "id") == Some(if f.id.Some? then f.id.value else "")
      && ShowField(b, "name") == Some(if f.name.Some? then f.name.value else "")
  {
  }

  lemma {:induction false} ToolEchoes(codec: Codec, f: Form)
    requires codec.Lawful() && f.ToolForm?
    ensures ConverseRequest.TranslateBlock(codec, Stored(codec, f)) == Kept(Obj(map["toolUse" := Obj(EchoedFields(f))]))
  {
    var b := Stored(codec, f);
    StoredTool(codec, f);
    var id := if f.id.Some? then f.id.value else "";
    var name := if f.name.Some? then f.name.value else "";
    assert map["toolUseId" := Str(id), "name" := Str(name)] + map["input" := OrEmpty(f.input)] == EchoedFields(f);
  }

  lemma {:induction false} EchoIsExact(codec: Codec, f: Form)
    requires codec.Lawful()
    ensures ConverseRequest.TranslateBlock(codec, Stored(codec, f)).Kept?
    ensures ConverseRequest.TranslateBlock(codec, Stored(codec, f)) == Kept(Shape(f)) <==> Complete(f)
  {
    match f
    case TextForm(text) => TextEchoes(codec, text);
    case ToolForm(id, name, input) =>
      ToolEchoes(codec, f);
      var a, b := EchoedFields(f), ToolFields(f);
      if Complete(f) {
        assert a == b;
      } else {
        FieldsDiffer(f);
      }
  }

  lemma {:induction false} FieldsDiffer(f: Form)
    requires f.ToolForm? && !Complete(f)
    ensures Obj(map["toolUse" := Obj(EchoedFields(f))]) != Shape(f)
  {
    var x, y := Obj(map["toolUse" := Obj(EchoedFields(f))]), Shape(f);
    assert Field(x, "toolUse") == Some(Obj(EchoedFields(f))) && Field(y, "toolUse") == Some(Obj(ToolFields(f)));
    if f.id.None? {
      assert "toolUseId" in EchoedFields(f) && "toolUseId" !in ToolFields(f);
    } else if f.name.None? {
      assert "name" in EchoedFields(f) && "name" !in ToolFields(f);
    } else if f.input.None? {
      assert "input" in EchoedFields(f) && "input" !in ToolFields(f);
    } else {
      assert EchoedFields(f)["input"] == Obj(map[]) && ToolFields(f)["input"] == Null;
    }
  }

  lemma {:induction false} EchoAll(codec: Codec, forms: seq<Form>)
    requires codec.Lawful()
    ensures CarryBlocks(ConverseRequest.Translator(codec), StoredAll(codec, forms)).Some?
    ensures |CarryBlocks(ConverseRequest.Translator(codec), StoredAll(codec, forms)).value| == |forms|
    ensures CarryBlocks(ConverseRequest.Translator(codec), StoredAll(codec, forms)).value == Content(forms)
      <==> forall f :: f in forms ==> Complete(f)
    decreases |forms|
  {
    if forms != [] {
      var init, f := forms[..|forms| - 1], forms[|forms| - 1];
      EchoAll(codec, init);
      EchoIsExact(codec, f);
      EchoLast(codec, forms);
      var t := ConverseRequest.Translator(codec);
      SameParts(CarryBlocks(t, StoredAll(codec, init)).value, t(Stored(codec, f)).block, Content(init), Shape(f));
      CompleteParts(init, f);
    }
  }

  lemma {:induction false} EchoLast(codec: Codec, forms: seq<Form>)
    requires forms != []
    ensures var t, init, f := ConverseRequest.Translator(codec), forms[..|forms| - 1], forms[|forms| - 1];
      && forms == init + [f] && Content(forms) == Content(init) + [Shape(f)]
      && (CarryBlocks(t, StoredAll(codec, init)).Some? && t(Stored(codec, f)).Kept? ==>
            CarryBlocks(t, StoredAll(codec, forms)) == Some(CarryBlocks(t, StoredAll(codec, init)).value + [t(Stored(codec, f)).block]))
  {
    assert StoredAll(codec, forms)[..|forms| - 1] == StoredAll(codec, forms[..|forms| - 1]);
  }

  lemma {:induction false} SameParts(a: seq<Value>, x: Value, b: seq<Value>, y: Value)
    ensures a + [x] == b + [y] <==> a == b && x == y
  {
    if a + [x] == b + [y] {
      assert |a| == |b| && (a + [x])[|a|] == x && (b + [y])[|b|] == y;
      assert a == (a + [x])[..|a|] && b == (b + [y])[..|b|];
    }
  }

  lemma {:induction false} CompleteParts(init: seq<Form>, f: Form)
    ensures (forall g :: g in init + [f] ==> Complete(g)) <==> Complete(f) && forall g :: g in init ==> Complete(g)
  {
  }

  /** Every response of text and tool use in which nothing is narrated comes back unchanged with the next
      request, exactly when each of its calls carries an id, a name and an input. */
  lemma {:induction false} ResponseRoundTrips(codec: Codec, names: seq<string>, forms: seq<Form>,
                                              stopReason: Option<string>, usage: Option<(nat, nat)>, model: string)
    requires codec.Lawful() && NothingNarrated(codec, names, forms)
    ensures var kept := Stopped(Mapped(codec, StreamOf(codec, names, Content(forms), stopReason, usage), model));
      CarryBlocks(ConverseRequest.Translator(codec), kept) == Some(Content(forms))
      <==> forall f :: f in forms ==> Complete(f)
  {
    ResponseIsStored(codec, names, forms, model);
    ResponseSettlesOnce(codec, names, Content(forms), stopReason, usage, model);
    var r := ReplayContent(codec, names, Content(forms));
    var body := MapperAfter(codec, r.events, model).1;
    var all := Mapped(codec, StreamOf(codec, names, Content(forms), stopReason, usage), model);
    var delta := all[|body|];
    StoppedNext(body, delta);
    StoppedNext(body + [delta], MessageStop);
    assert all == body + [delta] + [MessageStop];
    EchoAll(codec, forms);
  }

  // --- Made-up ids, once recorded -------------------------------------------------------------

  lemma {:induction false} MapGrows(codec: Codec, stream: seq<WireEvent>, k: nat, model: string)
    requires k <= |stream|
    ensures MapperAfter(codec, stream[..k], model).1 <= MapperAfter(codec, stream, model).1
    decreases |stream|
  {
    if k < |stream| {
      var init := stream[..|stream| - 1];
      assert init[..k] == stream[..k];
      MapGrows(codec, init, k, model);
    } else {
      assert stream[..k] == stream;
    }
  }

  lemma {:induction false} CallMaps(codec: Codec, stream: seq<WireEvent>, start: ToolStart, json: string, model: string)
    requires stream == [Start, BlockOpen(0, Some(start)), BlockDelta(0, Some(Delta(None, Some(json), None))), BlockClose(0)]
    ensures var out := MapperAfter(codec, stream, model).1;
      |out| == 4 && out[3] == BlockStop(0, Verbatim(codec, OpenBlock(ToolUseKind, "", json, NonEmpty(start.toolUseId), NonEmpty(start.name), None)))
  {
    MapNext(codec, [], stream[0], model);
    MapNext(codec, [stream[0]], stream[1], model);
    MapNext(codec, [stream[0]] + [stream[1]], stream[2], model);
    MapNext(codec, [stream[0]] + [stream[1]] + [stream[2]], stream[3], model);
    assert [] + [stream[0]] == [stream[0]];
    assert stream == [stream[0]] + [stream[1]] + [stream[2]] + [stream[3]];
    assert "" + json == json;
  }

  /** A response that opens with a narrated call is recorded as a call under the one id all such are given:
      over a run of two the id comes twice. */
  lemma {:induction false} NarratedIdIsRecorded(codec: Codec, names: seq<string>, content: seq<Value>,
                                                stopReason: Option<string>, usage: Option<(nat, nat)>, model: string)
    requires OpensWithCall(codec, names, content)
    ensures var out := Mapped(codec, StreamOf(codec, names, content, stopReason, usage), model);
      |out| >= 4 && out[3].BlockStop? && Surface.UseId(out[3].block) == Some(NarratedId(1, 0))
  {
    var n := FirstCallStreams(codec, names, content, stopReason, usage);
    CallComesFirst(codec, StreamOf(codec, names, content, stopReason, usage), n, model);
  }

  lemma {:induction false} CallComesFirst(codec: Codec, stream: seq<WireEvent>, n: Narrated, model: string)
    requires FirstCall(codec, n) <= stream
    ensures var out := Mapped(codec, stream, model);
      |out| >= 4 && out[3].BlockStop? && Surface.UseId(out[3].block) == Some(NarratedId(1, 0))
  {
    assert stream[..4] == FirstCall(codec, n);
    CallMaps(codec, FirstCall(codec, n), ToolStart(Some(NarratedId(1, 0)), Some(n.name)), codec.stringify(n.input), model);
    MapGrows(codec, stream, 4, model);
    NarratedIsRead(codec, codec.stringify(n.input), Some(n.name));
  }

  lemma {:induction false} NarratedIsRead(codec: Codec, json: string, name: Option<string>)
    ensures var id := Some(NarratedId(1, 0));
      Surface.UseId(Verbatim(codec, OpenBlock(ToolUseKind, "", json, NonEmpty(id), NonEmpty(name), None))) == id
  {
  }
}
