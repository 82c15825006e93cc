/** The Messages vocabulary, outbound: a block that already speaks it is passed through untouched. */
module AnthropicRequest {
  import opened Json
  import opened Contract
  import opened Surface
  import opened Translation

  function TextParts(codec: Codec, parts: seq<Value>): Option<seq<Value>>
    decreases |parts|
  {
    if parts == [] then Some([])
    else
      var before := TextParts(codec, parts[..|parts| - 1]);
      var p := parts[|parts| - 1];
      if before.None? || p.Null? then None
      else Some(before.value + [TextBlock(if TextField(p, "text").Some? then TextField(p, "text").value else codec.stringify(p))])
  }

  function ResultContent(codec: Codec, content: Option<Value>): Option<seq<Value>> {
    if content.Some? && content.value.Arr? then TextParts(codec, content.value.items) else Some([TextBlock("")])
  }

  function TranslateBlock(codec: Codec, b: Value): Translated {
    if !b.Obj? then Dropped
    else if TextField(b, "type").Some? then Kept(b)
    else if TextField(b, "text").Some? then Kept(TextBlock(TextField(b, "text").value))
    else if Truthy(Field(b, "toolUse")) then
      var use := Field(b, "toolUse").value;
      var id, name := ShowField(use, "toolUseId"), ShowField(use, "name");
      if id.None? || name.None? then Threw
      else Kept(ToolUseBlock(id.value, name.value, OrEmpty(Field(use, "input"))))
    else if Truthy(Field(b, "toolResult")) then
      var result := Field(b, "toolResult").value;
      var id, content := ShowField(result, "toolUseId"), ResultContent(codec, Field(result, "content"));
      if id.None? || content.None? then Threw
      else Kept(Obj(map["type" := Str("tool_result"), "tool_use_id" := Str(id.value), "content" := Arr(content.value),
                        "is_error" := Bool(Field(result, "status") == Some(Str("error")))]))
    else Dropped
  }

  function Translator(codec: Codec): Value -> Translated {
    b => TranslateBlock(codec, b)
  }

  function ToAnthropic(codec: Codec, messages: seq<Message>): Option<seq<Message>> {
    Carry(Translator(codec), messages)
  }

  // --- Ids ------------------------------------------------------------------------------------

  /** The call's id on what is sent for a block that could be read. */
  function SentUse(b: Value): Option<string> {
    if TextField(b, "type").Some? then UseId(b)
    else if TextField(b, "text").Some? || !Truthy(Field(b, "toolUse")) then None
    else ShowField(Field(b, "toolUse").value, "toolUseId")
  }

  function SentResult(b: Value): Option<string> {
    if TextField(b, "type").Some? then ResultId(b)
    else if TextField(b, "text").Some? || Truthy(Field(b, "toolUse")) || !Truthy(Field(b, "toolResult")) then None
    else ShowField(Field(b, "toolResult").value, "toolUseId")
  }

  lemma {:induction false} BlockSends(codec: Codec, b: Value)
    requires !TranslateBlock(codec, b).Threw?
    ensures SendsAs(Translator(codec), b, SentUse(b), SentResult(b))
  {
  }

  /** A block with a `type` may be anything. One without is text, a call or a result, and not two of them. */
  predicate WellPlaced(b: Value) {
    || TextField(b, "type").Some?
    || (if TextField(b, "text").Some? then InnerUse(b).None? && InnerResult(b).None?
        else if Truthy(Field(b, "toolUse")) then InnerUse(b).Some? && InnerResult(b).None?
        else Truthy(Field(b, "toolResult")) ==> InnerResult(b).Some?)
  }

  /** Exactly the well placed blocks are sent with the ids the fold read on them, no more and no fewer. */
  lemma {:induction false} KeepsIdsExactly(codec: Codec, b: Value)
    requires !TranslateBlock(codec, b).Threw?
    ensures SendsAs(Translator(codec), b, UseId(b), ResultId(b)) <==> WellPlaced(b)
  {
    BlockSends(codec, b);
  }
}
