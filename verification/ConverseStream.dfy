/** Bedrock's Converse stream, mapped to the neutral vocabulary. */
module ConverseStream {
  import opened Json
  import opened Contract
  import opened Normalize

  datatype Reasoning = Reasoning(text: Option<string>, redacted: Option<string>)

  datatype Delta = Delta(text: Option<string>, toolInput: Option<string>, reasoning: Option<Reasoning>)

  datatype ToolStart = ToolStart(toolUseId: Option<string>, name: Option<string>)

  /** One wire event; a missing index reads as 0. */
  datatype WireEvent =
    | Start
    | BlockOpen(index: int, toolUse: Option<ToolStart>)
    | BlockDelta(index: int, delta: Option<Delta>)
    | BlockClose(index: int)
    | Stop(reason: string)
    | Metadata(inputTokens: nat, outputTokens: nat)
    | Unknown

  datatype OpenBlock = OpenBlock(kind: BlockKind, text: string, partialJson: string,
                                 toolUseId: Option<string>, name: Option<string>, redacted: Option<string>)

  datatype Mapper = Mapper(open: map<int, OpenBlock>, stopReason: StopReason, sawStop: bool)

  const IDLE := Mapper(map[], EndTurn, false)

  function ReasonFor(reason: string): StopReason {
    if reason == "tool_use" then ToolUse
    else if reason == "max_tokens" then MaxTokens
    else if reason == "guardrail_intervened" || reason == "content_filtered" then Refusal
    else EndTurn
  }

  function ParseOrRaw(codec: Codec, partialJson: string): Value {
    if partialJson == "" then Obj(map[])
    else match codec.parse(partialJson)
      case Some(v) => v
      case None => Obj(map["__unparsed" := Str(partialJson)])
  }

  function Present(key: string, text: Option<string>): map<string, Value> {
    if text.Some? then map[key := Str(text.value)] else map[]
  }

  /** The block the surface stores: canonical for a tool call, Converse's own shape otherwise. */
  function Verbatim(codec: Codec, b: OpenBlock): Value {
    match b.kind
    case ToolUseKind =>
      Obj(map["type" := Str("tool_use"), "input" := ParseOrRaw(codec, b.partialJson)]
          + Present("id", b.toolUseId) + Present("name", b.name))
    case ThinkingKind =>
      Obj(map["reasoningContent" :=
        (if b.redacted.Some?
         then Obj(map["redactedContent" := Obj(map["__bytes_b64" := Str(codec.encode64(b.redacted.value))])])
         else Obj(map["reasoningText" := Obj(map["text" := Str(b.text)])]))])
    case _ => Obj(map["text" := Str(b.text)])
  }

  /** Only a truthy string is recorded. */
  function NonEmpty(s: Option<string>): Option<string> {
    if s == Some("") then None else s
  }

  /** An unseen index is opened by its first text or reasoning delta. */
  function Opened(m: Mapper, index: int, kind: BlockKind): (Mapper, seq<ProviderEvent>) {
    if index in m.open then (m, [])
    else (m.(open := m.open[index := OpenBlock(kind, "", "", None, None, None)]), [BlockStart(index, kind)])
  }

  function Take(codec: Codec, m: Mapper, event: WireEvent, model: string): (Mapper, seq<ProviderEvent>) {
    match event
    case Start => (m, [MessageStart(model)])
    case BlockOpen(index, toolUse) =>
      if toolUse.Some? then
        (m.(open := m.open[index := OpenBlock(ToolUseKind, "", "", NonEmpty(toolUse.value.toolUseId),
                                              NonEmpty(toolUse.value.name), None)]),
         [BlockStart(index, ToolUseKind)])
      else (m, [Raw])
    case BlockDelta(index, delta) =>
      if delta.None? then (m, [Raw]) else TakeDelta(m, index, delta.value)
    case BlockClose(index) =>
      if index !in m.open then (m, [Raw])
      else (m.(open := m.open - {index}), [BlockStop(index, Verbatim(codec, m.open[index]))])
    case Stop(reason) => (m.(stopReason := ReasonFor(reason), sawStop := true), [])
    case Metadata(input, output) =>
      (m.(sawStop := false), [MessageDelta(m.stopReason, Usage(input, output, 0, 0)), MessageStop])
    case Unknown => (m, [Raw])
  }

  function TakeDelta(m: Mapper, index: int, d: Delta): (Mapper, seq<ProviderEvent>) {
    if d.text.Some? then
      var (o, start) := Opened(m, index, TextKind);
      (o.(open := o.open[index := o.open[index].(text := o.open[index].text + d.text.value)]),
       start + [TextDelta(index, d.text.value)])
    else if d.toolInput.Some? then
      if index !in m.open then (m, [Raw])
      else
        (m.(open := m.open[index := m.open[index].(partialJson := m.open[index].partialJson + d.toolInput.value)]),
         [ToolInputDelta(index, d.toolInput.value)])
    else if d.reasoning.Some? then
      var (o, start) := Opened(m, index, ThinkingKind);
      var r := d.reasoning.value;
      if r.text.Some? then
        (o.(open := o.open[index := o.open[index].(text := o.open[index].text + r.text.value)]),
         start + [ThinkingDelta(index, r.text.value)])
      else if r.redacted.Some? then
        var held := if o.open[index].redacted.Some? then o.open[index].redacted.value else "";
        (o.(open := o.open[index := o.open[index].(redacted := Some(held + r.redacted.value))]), start)
      else (o, start + [Raw])
    else (m, [Raw])
  }

  function MapperAfter(codec: Codec, stream: seq<WireEvent>, model: string): (Mapper, seq<ProviderEvent>)
    decreases |stream|
  {
    if stream == [] then (IDLE, [])
    else
      var (m, out) := MapperAfter(codec, stream[..|stream| - 1], model);
      var (m', more) := Take(codec, m, stream[|stream| - 1], model);
      (m', out + more)
  }

  function Closing(m: Mapper): seq<ProviderEvent> {
    if m.sawStop then [MessageDelta(m.stopReason, ZERO_USAGE), MessageStop] else []
  }

  /** Everything a stream is mapped to. */
  function Mapped(codec: Codec, stream: seq<WireEvent>, model: string): seq<ProviderEvent> {
    var (m, out) := MapperAfter(codec, stream, model);
    out + Closing(m)
  }

  method MapConverseStream(codec: Codec, stream: seq<WireEvent>, model: string) returns (out: seq<ProviderEvent>)
    ensures out == Mapped(codec, stream, model)
  {
    var open: map<int, OpenBlock> := map[];
    var stopReason := EndTurn;
    var sawStop := false;
    out := [];
    for i := 0 to |stream|
      invariant (Mapper(open, stopReason, sawStop), out) == MapperAfter(codec, stream[..i], model)
    {
      assert stream[..i + 1][..i] == stream[..i];
      ghost var taken := Take(codec, Mapper(open, stopReason, sawStop), stream[i], model);
      ghost var heard := out;
      match stream[i] {
        case Start => out := out + [MessageStart(model)];
        case BlockOpen(index, toolUse) =>
          if toolUse.Some? {
            open := open[index := OpenBlock(ToolUseKind, "", "", NonEmpty(toolUse.value.toolUseId),
                                            NonEmpty(toolUse.value.name), None)];
            out := out + [BlockStart(index, ToolUseKind)];
          } else {
            out := out + [Raw];
          }
        case BlockDelta(index, delta) =>
          if delta.None? {
            out := out + [Raw];
          } else {
            var (m, more) := TakeDelta(Mapper(open, stopReason, sawStop), index, delta.value);
            open := m.open;
            out := out + more;
          }
        case BlockClose(index) =>
          if index !in open {
            out := out + [Raw];
          } else {
            out := out + [BlockStop(index, Verbatim(codec, open[index]))];
            open := open - {index};
          }
        case Stop(reason) =>
          stopReason := ReasonFor(reason);
          sawStop := true;
        case Metadata(input, output) =>
          out := out + [MessageDelta(stopReason, Usage(input, output, 0, 0)), MessageStop];
          sawStop := false;
        case Unknown => out := out + [Raw];
      }
      assert open == taken.0.open;
      assert out == heard + taken.1;
    }
    assert stream[..|stream|] == stream;
    if sawStop {
      out := out + [MessageDelta(stopReason, ZERO_USAGE), MessageStop];
    }
  }
}
