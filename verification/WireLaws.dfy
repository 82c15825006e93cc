/** What a wire stream is mapped to, read off the wire alone: every finished block, and why and at what cost it stopped. */
module WireLaws {
  import opened Json
  import opened Contract
  import opened ConverseStream
  import opened StreamLaws

  // --- What came for a block --------------------------------------------------------------------

  /** What is open at this index, if anything: a call since it was opened, text or reasoning since its first delta. */
  function WireKind(stream: seq<WireEvent>, index: int): Option<BlockKind>
    decreases |stream|
  {
    if stream == [] then None
    else
      var before := WireKind(stream[..|stream| - 1], index);
      match stream[|stream| - 1]
      case BlockOpen(i, Some(_)) => if i == index then Some(ToolUseKind) else before
      case BlockClose(i) => if i == index then None else before
      case BlockDelta(i, Some(Delta(text, input, reasoning))) =>
        if i != index || before.Some? then before
        else if text.Some? then Some(TextKind)
        else if input.None? && reasoning.Some? then Some(ThinkingKind)
        else None
      case _ => before
  }

  /** The text that came for it since, or the reasoning. */
  function WireText(stream: seq<WireEvent>, index: int): string
    decreases |stream|
  {
    if stream == [] then ""
    else
      var before := WireText(stream[..|stream| - 1], index);
      match stream[|stream| - 1]
      case BlockOpen(i, Some(_)) => if i == index then "" else before
      case BlockClose(i) => if i == index then "" else before
      case BlockDelta(i, Some(Delta(Some(text), _, _))) => if i == index then before + text else before
      case BlockDelta(i, Some(Delta(None, None, Some(Reasoning(Some(text), _))))) => if i == index then before + text else before
      case _ => before
  }

  /** The input that came for it since, in fragments; what comes for nothing that is open is lost. */
  function WireInput(stream: seq<WireEvent>, index: int): string
    decreases |stream|
  {
    if stream == [] then ""
    else
      var before := WireInput(stream[..|stream| - 1], index);
      match stream[|stream| - 1]
      case BlockOpen(i, Some(_)) => if i == index then "" else before
      case BlockClose(i) => if i == index then "" else before
      case BlockDelta(i, Some(Delta(None, Some(input), _))) =>
        if i == index && WireKind(stream[..|stream| - 1], index).Some? then before + input else before
      case _ => before
  }

  /** What the call was opened with. */
  function WireCall(stream: seq<WireEvent>, index: int): Option<ToolStart>
    decreases |stream|
  {
    if stream == [] then None
    else
      var before := WireCall(stream[..|stream| - 1], index);
      match stream[|stream| - 1]
      case BlockOpen(i, Some(start)) => if i == index then Some(start) else before
      case BlockClose(i) => if i == index then None else before
      case _ => before
  }

  /** A key for a string that is there and not empty. */
  function IfSaid(key: string, s: Option<string>): map<string, Value> {
    if s.Some? && s.value != "" then map[key := Str(s.value)] else map[]
  }

  /** The block that is finished: a call with the id and the name it was opened with and the input that came for it, parsed,
      or kept as it came if it cannot be; reasoning, encrypted if any of it came so; or text. */
  function WireBlock(codec: Codec, stream: seq<WireEvent>, index: int): Value {
    match WireKind(stream, index)
    case Some(ToolUseKind) =>
      var input, start := WireInput(stream, index), WireCall(stream, index);
      Obj(map["type" := Str("tool_use"),
              "input" := if input == "" then Obj(map[])
                         else if codec.parse(input).Some? then codec.parse(input).value
                         else Obj(map["__unparsed" := Str(input)])]
          + (if start.Some? then IfSaid("id", start.value.toolUseId) + IfSaid("name", start.value.name) else map[]))
    case Some(ThinkingKind) =>
      if WireRedacted(stream, index).Some? then Encrypted(codec, WireRedacted(stream, index).value)
      else Reasoned(WireText(stream, index))
    case _ => Obj(map["text" := Str(WireText(stream, index))])
  }

  /** What the mapper holds for a block is what came for it. */
  ghost predicate HoldsWire(open: map<int, OpenBlock>, stream: seq<WireEvent>, index: int) {
    && (index in open <==> WireKind(stream, index).Some?)
    && (index in open ==>
          var b := open[index];
          && Some(b.kind) == WireKind(stream, index) && b.text == WireText(stream, index) && b.partialJson == WireInput(stream, index)
          && b.toolUseId == (match WireCall(stream, index) case None => None case Some(start) => NonEmpty(start.toolUseId))
          && b.name == (match WireCall(stream, index) case None => None case Some(start) => NonEmpty(start.name)))
    && (index !in open ==> WireText(stream, index) == "" && WireInput(stream, index) == "" && WireCall(stream, index) == None)
  }

  lemma {:induction false} TakenText(m: Mapper, i: int, d: Delta)
    requires d.text.Some?
    ensures var was := if i in m.open then m.open[i] else OpenBlock(TextKind, "", "", None, None, None);
      TakeDelta(m, i, d).0.open == m.open[i := was.(text := was.text + d.text.value)]
  {
  }

  lemma {:induction false} TextComes(stream: seq<WireEvent>, d: Delta, i: int, index: int)
    requires d.text.Some?
    ensures var after := stream + [BlockDelta(i, Some(d))];
      && WireText(after, index) == WireText(stream, index) + (if i == index then d.text.value else "")
      && WireKind(after, index) == (if i == index && WireKind(stream, index).None? then Some(TextKind) else WireKind(stream, index))
      && WireInput(after, index) == WireInput(stream, index) && WireCall(after, index) == WireCall(stream, index)
  {
    assert (stream + [BlockDelta(i, Some(d))])[..|stream|] == stream;
    assert WireText(stream, index) + "" == WireText(stream, index);
  }

  lemma {:induction false} TextHolds(m: Mapper, stream: seq<WireEvent>, d: Delta, i: int, index: int)
    requires HoldsWire(m.open, stream, index) && d.text.Some?
    ensures HoldsWire(TakeDelta(m, i, d).0.open, stream + [BlockDelta(i, Some(d))], index)
  {
    TakenText(m, i, d);
    TextComes(stream, d, i, index);
  }

  lemma {:induction false} InputHolds(m: Mapper, stream: seq<WireEvent>, d: Delta, i: int, index: int)
    requires HoldsWire(m.open, stream, index) && d.text.None? && d.toolInput.Some?
    ensures HoldsWire(TakeDelta(m, i, d).0.open, stream + [BlockDelta(i, Some(d))], index)
  {
    assert (stream + [BlockDelta(i, Some(d))])[..|stream|] == stream;
  }

  lemma {:induction false} ReasoningHolds(m: Mapper, stream: seq<WireEvent>, d: Delta, i: int, index: int)
    requires HoldsWire(m.open, stream, index) && d.text.None? && d.toolInput.None?
    ensures HoldsWire(TakeDelta(m, i, d).0.open, stream + [BlockDelta(i, Some(d))], index)
  {
    assert (stream + [BlockDelta(i, Some(d))])[..|stream|] == stream;
  }

  lemma {:induction false} DeltaHolds(m: Mapper, stream: seq<WireEvent>, d: Delta, i: int, index: int)
    requires HoldsWire(m.open, stream, index)
    ensures HoldsWire(TakeDelta(m, i, d).0.open, stream + [BlockDelta(i, Some(d))], index)
  {
    if d.text.Some? {
      TextHolds(m, stream, d, i, index);
    } else if d.toolInput.Some? {
      InputHolds(m, stream, d, i, index);
    } else {
      ReasoningHolds(m, stream, d, i, index);
    }
  }

  lemma {:induction false} OtherHolds(codec: Codec, m: Mapper, stream: seq<WireEvent>, e: WireEvent, model: string, index: int)
    requires HoldsWire(m.open, stream, index) && (e.BlockDelta? ==> e.delta.None?)
    ensures HoldsWire(Take(codec, m, e, model).0.open, stream + [e], index)
  {
    assert (stream + [e])[..|stream|] == stream;
  }

  lemma {:induction false} MapperHoldsWire(codec: Codec, stream: seq<WireEvent>, model: string, index: int)
    ensures HoldsWire(MapperAfter(codec, stream, model).0.open, stream, index)
    decreases |stream|
  {
    if stream != [] {
      var init, e := stream[..|stream| - 1], stream[|stream| - 1];
      var m := MapperAfter(codec, init, model).0;
      assert stream == init + [e];
      MapperHoldsWire(codec, init, model, index);
      if e.BlockDelta? && e.delta.Some? {
        DeltaHolds(m, init, e.delta.value, e.index, index);
      } else {
        OtherHolds(codec, m, init, e, model, index);
      }
    }
  }

  lemma {:induction false} CallIsWire(b: OpenBlock, start: Option<ToolStart>)
    requires b.toolUseId == (match start case None => None case Some(s) => NonEmpty(s.toolUseId))
    requires b.name == (match start case None => None case Some(s) => NonEmpty(s.name))
    ensures Present("id", b.toolUseId) + Present("name", b.name)
      == if start.Some? then IfSaid("id", start.value.toolUseId) + IfSaid("name", start.value.name) else map[]
  {
  }

  lemma {:induction false} HeldIsWire(codec: Codec, b: OpenBlock, stream: seq<WireEvent>, index: int)
    requires HoldsWire(map[index := b], stream, index) && b.redacted == WireRedacted(stream, index)
    ensures Verbatim(codec, b) == WireBlock(codec, stream, index)
  {
    if b.kind.ToolUseKind? {
      CallIsWire(b, WireCall(stream, index));
      var head: map<string, Value> := map["type" := Str("tool_use"), "input" := ParseOrRaw(codec, b.partialJson)];
      assert head + Present("id", b.toolUseId) + Present("name", b.name) == head + (Present("id", b.toolUseId) + Present("name", b.name));
    }
  }

  /** For every wire stream: every block that is stopped answers one close on the wire, and is what came for it. */
  lemma {:induction false} StoppedBlockIs(codec: Codec, stream: seq<WireEvent>, model: string, k: nat) returns (j: nat)
    requires k < |Mapped(codec, stream, model)| && Mapped(codec, stream, model)[k].BlockStop?
    ensures var e := Mapped(codec, stream, model)[k];
      j < |stream| && stream[j] == BlockClose(e.index) && e.block == WireBlock(codec, stream[..j], e.index)
  {
    j := StopAt(codec, stream, model, k);
  }

  lemma {:induction false} StopAt(codec: Codec, stream: seq<WireEvent>, model: string, k: nat) returns (j: nat)
    requires k < |MapperAfter(codec, stream, model).1| && MapperAfter(codec, stream, model).1[k].BlockStop?
    ensures var e := MapperAfter(codec, stream, model).1[k];
      j < |stream| && stream[j] == BlockClose(e.index) && e.block == WireBlock(codec, stream[..j], e.index)
    decreases |stream|
  {
    var init, last := stream[..|stream| - 1], stream[|stream| - 1];
    var (m, before) := MapperAfter(codec, init, model);
    if k < |before| {
      j := StopAt(codec, init, model, k);
      assert stream[..j] == init[..j];
    } else {
      j := |init|;
      OneStop(codec, m, last, model, k - |before|);
      MapperHoldsWire(codec, init, model, last.index);
      MapperHoldsRedacted(codec, init, model, last.index);
      HeldIsWire(codec, m.open[last.index], init, last.index);
    }
  }

  // --- Why it stopped -------------------------------------------------------------------------------

  /** The last reason given on the wire, in the harness's words; what is not known reads as the end of the turn. */
  function WireReason(stream: seq<WireEvent>): StopReason
    decreases |stream|
  {
    if stream == [] then EndTurn
    else match stream[|stream| - 1]
      case Stop(reason) =>
        if reason == "tool_use" then ToolUse
        else if reason == "max_tokens" then MaxTokens
        else if reason in {"guardrail_intervened", "content_filtered"} then Refusal
        else EndTurn
      case _ => WireReason(stream[..|stream| - 1])
  }

  /** It stopped and no figures have come for it yet. */
  predicate Unsettled(stream: seq<WireEvent>)
    decreases |stream|
  {
    stream != []
    && match stream[|stream| - 1]
       case Stop(_) => true
       case Metadata(_, _) => false
       case _ => Unsettled(stream[..|stream| - 1])
  }

  /** One settlement for each set of figures, with the reason given before it. */
  function Settlements(stream: seq<WireEvent>): seq<ProviderEvent>
    decreases |stream|
  {
    if stream == [] then []
    else
      var init := stream[..|stream| - 1];
      match stream[|stream| - 1]
      case Metadata(input, output) => Settlements(init) + [MessageDelta(WireReason(init), Usage(input, output, 0, 0))]
      case _ => Settlements(init)
  }

  function Deltas(events: seq<ProviderEvent>): seq<ProviderEvent>
    decreases |events|
  {
    if events == [] then []
    else if events[|events| - 1].MessageDelta? then Deltas(events[..|events| - 1]) + [events[|events| - 1]]
    else Deltas(events[..|events| - 1])
  }

  lemma {:induction false} DeltasConcat(a: seq<ProviderEvent>, b: seq<ProviderEvent>)
    ensures Deltas(a + b) == Deltas(a) + Deltas(b)
    decreases |b|
  {
    if b == [] {
      assert a + b == a;
    } else {
      assert (a + b)[..|a + b| - 1] == a + b[..|b| - 1];
      DeltasConcat(a, b[..|b| - 1]);
    }
  }

  lemma {:induction false} Closes(e: ProviderEvent)
    requires e.MessageDelta?
    ensures Deltas([e, MessageStop]) == [e]
  {
    assert [e, MessageStop][..1] == [e] && [e][..0] == [];
    assert Deltas([]) == [];
    assert Deltas([e]) == [] + [e];
  }

  lemma {:induction false} OneSettles(codec: Codec, m: Mapper, e: WireEvent, model: string)
    ensures Deltas(Take(codec, m, e, model).1) ==
      match e case Metadata(input, output) => [MessageDelta(m.stopReason, Usage(input, output, 0, 0))] case _ => []
  {
    var out := Take(codec, m, e, model).1;
    if e.Metadata? {
      Closes(out[0]);
    } else {
      NoDelta(out);
    }
  }

  lemma {:induction false} NoDelta(events: seq<ProviderEvent>)
    requires forall i :: 0 <= i < |events| ==> !events[i].MessageDelta?
    ensures Deltas(events) == []
    decreases |events|
  {
    if events != [] {
      NoDelta(events[..|events| - 1]);
    }
  }

  lemma {:induction false} NextReason(codec: Codec, m: Mapper, stream: seq<WireEvent>, e: WireEvent, model: string)
    requires m.stopReason == WireReason(stream) && (m.sawStop <==> Unsettled(stream))
    ensures var m' := Take(codec, m, e, model).0;
      m'.stopReason == WireReason(stream + [e]) && (m'.sawStop <==> Unsettled(stream + [e]))
  {
    assert (stream + [e])[..|stream|] == stream;
  }

  lemma {:induction false} NextSettles(codec: Codec, m: Mapper, stream: seq<WireEvent>, e: WireEvent, model: string)
    requires m.stopReason == WireReason(stream)
    ensures Settlements(stream + [e]) == Settlements(stream) + Deltas(Take(codec, m, e, model).1)
  {
    assert (stream + [e])[..|stream|] == stream;
    OneSettles(codec, m, e, model);
    assert Settlements(stream) + [] == Settlements(stream);
  }

  lemma {:induction false} MapperSettles(codec: Codec, stream: seq<WireEvent>, model: string)
    ensures var (m, out) := MapperAfter(codec, stream, model);
      Deltas(out) == Settlements(stream) && m.stopReason == WireReason(stream) && (m.sawStop <==> Unsettled(stream))
    decreases |stream|
  {
    if stream != [] {
      var init, e := stream[..|stream| - 1], stream[|stream| - 1];
      assert stream == init + [e];
      MapperSettles(codec, init, model);
      var (m, out) := MapperAfter(codec, init, model);
      NextReason(codec, m, init, e, model);
      NextSettles(codec, m, init, e, model);
      DeltasConcat(out, Take(codec, m, e, model).1);
    }
  }

  /** For every wire stream: what it is mapped to settles once for each set of figures that came, with those figures and the
      last reason given before them; and once more, at no cost, if it stopped and none came. */
  lemma {:induction false} MappedSettles(codec: Codec, stream: seq<WireEvent>, model: string)
    ensures Deltas(Mapped(codec, stream, model))
      == Settlements(stream) + if Unsettled(stream) then [MessageDelta(WireReason(stream), Usage(0, 0, 0, 0))] else []
  {
    var (m, out) := MapperAfter(codec, stream, model);
    MapperSettles(codec, stream, model);
    DeltasConcat(out, Closing(m));
    if m.sawStop {
      Closes(MessageDelta(m.stopReason, ZERO_USAGE));
    }
  }
}
