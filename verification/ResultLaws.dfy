/** What the model is told of its calls, word for word, on the way to either provider. */
module ResultLaws {
  import opened Json
  import opened Contract
  import opened Record
  import opened Surface
  import opened SurfaceLaws
  import opened Translation
  import AnthropicRequest
  import ConverseRequest

  /** A part reads as its own text, or else as itself written out. */
  function Reads(codec: Codec, part: Value): string {
    if TextField(part, "text").Some? then TextField(part, "text").value else codec.stringify(part)
  }

  /** The parts of a result; one that holds no list of them reads as one empty text. */
  function PartsOf(content: Option<Value>): seq<Value> {
    if content.Some? && content.value.Arr? then content.value.items else [Obj(map["text" := Str("")])]
  }

  // --- Converse ---------------------------------------------------------------------------------

  /** In Converse's vocabulary: these texts, under this id. */
  function ConverseResult(id: string, texts: seq<string>): Value {
    Obj(map["toolResult" := Obj(map[
      "toolUseId" := Str(id),
      "content" := Arr(seq(|texts|, i requires 0 <= i < |texts| => Obj(map["text" := Str(texts[i])])))])])
  }

  /** Part for part and in order, the first marked exactly when the call failed. */
  function Worded(codec: Codec, parts: seq<Value>, failed: bool): (r: seq<string>) {
    seq(|parts|, i requires 0 <= i < |parts| =>
      (if i == 0 && failed then "[tool error] " else "") + Reads(codec, parts[i]))
  }

  lemma {:induction false} PartsRead(codec: Codec, parts: seq<Value>)
    ensures ConverseRequest.Parts(codec, parts).None? <==> Null in parts
    ensures Null !in parts ==>
      && |ConverseRequest.Parts(codec, parts).value| == |parts|
      && forall i :: 0 <= i < |parts| ==>
           ConverseRequest.Parts(codec, parts).value[i] == Obj(map["text" := Str(Reads(codec, parts[i]))])
    decreases |parts|
  {
    if parts != [] {
      var init, last := parts[..|parts| - 1], parts[|parts| - 1];
      assert parts == init + [last];
      PartsRead(codec, init);
    }
  }

  /** A recorded result can be sent exactly when its id can be made a string and none of its parts is null; and then it
      goes out under that id with one text per part, in order, each the part's own text or the part written out, and
      the first marked as an error exactly when the result says it is one. */
  lemma {:induction false} ConverseTellsResult(codec: Codec, b: Value)
    requires HasType(b, "tool_result")
    ensures var parts, id := PartsOf(Field(b, "content")), ShowField(b, "tool_use_id");
      ConverseRequest.TranslateBlock(codec, b) ==
        if id.None? || Null in parts then Threw
        else Kept(ConverseResult(id.value, Worded(codec, parts, Field(b, "is_error") == Some(Bool(true)))))
  {
    var parts := PartsOf(Field(b, "content"));
    PartsRead(codec, parts);
    var failed := Field(b, "is_error") == Some(Bool(true));
    if Null !in parts {
      ContentIsWorded(codec, Field(b, "content"), failed);
    }
  }

  lemma {:induction false} ContentIsWorded(codec: Codec, content: Option<Value>, failed: bool)
    requires Null !in PartsOf(content)
    ensures var texts := Worded(codec, PartsOf(content), failed);
      ConverseRequest.ResultContent(codec, content, failed)
      == Some(seq(|texts|, i requires 0 <= i < |texts| => Obj(map["text" := Str(texts[i])])))
  {
    var parts := PartsOf(content);
    PartsRead(codec, parts);
    var texts := Worded(codec, parts, failed);
    var said := seq(|texts|, i requires 0 <= i < |texts| => Obj(map["text" := Str(texts[i])]));
    var sent := ConverseRequest.ResultContent(codec, content, failed).value;
    assert |sent| == |said|;
    forall i | 0 <= i < |sent| ensures sent[i] == said[i] {
      assert "" + Reads(codec, parts[i]) == Reads(codec, parts[i]);
    }
    assert sent == said;
  }

  /** The harness's own answer goes out as one text, its own, marked when the call failed. */
  lemma {:induction false} AnswerIsTold(codec: Codec, id: string, text: string, failed: bool)
    ensures ConverseRequest.TranslateBlock(codec, ToolResultBlock(id, text, failed))
      == Kept(ConverseResult(id, [if failed then "[tool error] " + text else text]))
  {
    var b := ToolResultBlock(id, text, failed);
    ConverseTellsResult(codec, b);
    assert PartsOf(Field(b, "content")) == [TextBlock(text)];
    assert Reads(codec, TextBlock(text)) == text;
    assert "" + text == text;
    assert Worded(codec, [TextBlock(text)], failed) == [if failed then "[tool error] " + text else text];
  }

  /** Text of either vocabulary goes out as text, a canonical call under its id and name with its input if it has one, a
      call in Converse's own shape as it is, and of reasoning only what is encrypted, to the byte; nothing else goes out. */
  lemma {:induction false} ConverseTells(codec: Codec, b: Value)
    requires b.Obj? && !HasType(b, "tool_result")
    ensures ConverseRequest.TranslateBlock(codec, b) ==
      if TextField(b, "text").Some? && (HasType(b, "text") || "type" !in b.fields)
      then Kept(Obj(map["text" := Str(TextField(b, "text").value)]))
      else if HasType(b, "tool_use") then ConverseCall(b)
      else if Truthy(Field(b, "toolUse")) then Kept(Obj(map["toolUse" := Field(b, "toolUse").value]))
      else if Truthy(Field(b, "reasoningContent")) then Encrypted(codec, Field(b, "reasoningContent").value)
      else Dropped
  {
  }

  function ConverseCall(b: Value): Translated {
    var id, name := ShowField(b, "id"), ShowField(b, "name");
    if id.None? || name.None? then Threw
    else Kept(Obj(map["toolUse" := Obj(map["toolUseId" := Str(id.value), "name" := Str(name.value)]
                                       + (if b.Obj? && "input" in b.fields then map["input" := b.fields["input"]] else map[]))]))
  }

  /** The bytes a stored text stands for, if there are any. */
  function Encrypted(codec: Codec, reasoning: Value): Translated {
    match Field(reasoning, "redactedContent")
    case Some(Obj(tagged)) =>
      if "__bytes_b64" in tagged && tagged["__bytes_b64"].Str? && tagged["__bytes_b64"].s != "" && codec.decode64(tagged["__bytes_b64"].s) != ""
      then Kept(Obj(map["reasoningContent" := Obj(map["redactedContent" := Str(codec.decode64(tagged["__bytes_b64"].s))])]))
      else Dropped
    case _ => Dropped
  }

  lemma {:induction false} CarriesEach(t: Value -> Translated, said: seq<Said>, x: Said)
    requires x in said && t(x.block).Kept?
    ensures Said(x.role, t(x.block).block) in CarrySaid(t, said)
    decreases |said|
  {
    if x in said[..|said| - 1] {
      CarriesEach(t, said[..|said| - 1], x);
    }
  }

  lemma {:induction false} ReachesConverse(codec: Codec, messages: seq<Message>, x: Said, sent: Value)
    requires ConverseRequest.ToConverse(codec, messages).Some? && x in Spoken(messages)
    requires ConverseRequest.TranslateBlock(codec, x.block) == Kept(sent)
    ensures Said(x.role, sent) in Spoken(ConverseRequest.ToConverse(codec, messages).value)
  {
    CarrySays(ConverseRequest.Translator(codec), messages);
    CarriesEach(ConverseRequest.Translator(codec), Spoken(messages), x);
  }

  lemma {:induction false} PromptIsKept(surface: seq<Entry>, x: Said, text: string)
    requires x in Flat(surface) && x.block == TextBlock(text)
    ensures x in Spoken(Fold(surface))
  {
    CanonicalIds("", "", Null, text, false);
    FoldSays(surface);
  }

  /** Every prompt on the surface reaches Converse word for word. */
  lemma {:induction false} PromptsReachConverse(codec: Codec, surface: seq<Entry>, role: Role, text: string)
    requires ConverseRequest.ToConverse(codec, Fold(surface)).Some?
    requires Said(role, TextBlock(text)) in Flat(surface)
    ensures Said(role, Obj(map["text" := Str(text)])) in Spoken(ConverseRequest.ToConverse(codec, Fold(surface)).value)
  {
    PromptIsKept(surface, Said(role, TextBlock(text)), text);
    ConverseTells(codec, TextBlock(text));
    ReachesConverse(codec, Fold(surface), Said(role, TextBlock(text)), Obj(map["text" := Str(text)]));
  }

  /** Every answer to a call on the surface reaches Converse under the call's id with its own text, marked exactly when
      the call failed. */
  lemma {:induction false} AnswersReachConverse(codec: Codec, surface: seq<Entry>, role: Role, id: string, text: string, failed: bool)
    requires ConverseRequest.ToConverse(codec, Fold(surface)).Some?
    requires Said(role, ToolResultBlock(id, text, failed)) in Flat(surface) && id in UseIds(Flat(surface))
    ensures Said(role, ConverseResult(id, [if failed then "[tool error] " + text else text]))
      in Spoken(ConverseRequest.ToConverse(codec, Fold(surface)).value)
  {
    AnswerIsKept(surface, role, id, text, failed);
    AnswerIsTold(codec, id, text, failed);
    ReachesConverse(codec, Fold(surface), Said(role, ToolResultBlock(id, text, failed)),
                    ConverseResult(id, [if failed then "[tool error] " + text else text]));
  }

  lemma {:induction false} AnswerIsKept(surface: seq<Entry>, role: Role, id: string, text: string, failed: bool)
    requires Said(role, ToolResultBlock(id, text, failed)) in Flat(surface) && id in UseIds(Flat(surface))
    ensures Said(role, ToolResultBlock(id, text, failed)) in Spoken(Fold(surface))
  {
    var said, b := Flat(surface), ToolResultBlock(id, text, failed);
    CanonicalIds(id, "", Null, text, failed);
    FoldSays(surface);
    var i :| 0 <= i < |said| && said[i] == Said(role, b);
    assert ResultId(said[i].block) == Some(id);
    assert id in ResultIds(said);
    assert Keeps(b, Paired(said));
  }

  // --- Anthropic --------------------------------------------------------------------------------

  function AnthropicResult(id: string, texts: seq<string>, failed: bool): Value {
    Obj(map["type" := Str("tool_result"), "tool_use_id" := Str(id),
            "content" := Arr(seq(|texts|, i requires 0 <= i < |texts| => Obj(map["type" := Str("text"), "text" := Str(texts[i])]))),
            "is_error" := Bool(failed)])
  }

  lemma {:induction false} TextPartsRead(codec: Codec, parts: seq<Value>)
    ensures AnthropicRequest.TextParts(codec, parts).None? <==> Null in parts
    ensures Null !in parts ==>
      && |AnthropicRequest.TextParts(codec, parts).value| == |parts|
      && forall i :: 0 <= i < |parts| ==> AnthropicRequest.TextParts(codec, parts).value[i] == TextBlock(Reads(codec, parts[i]))
    decreases |parts|
  {
    if parts != [] {
      var init, last := parts[..|parts| - 1], parts[|parts| - 1];
      assert parts == init + [last];
      TextPartsRead(codec, init);
    }
  }

  lemma {:induction false} AnthropicContent(codec: Codec, content: Option<Value>)
    requires Null !in PartsOf(content)
    ensures var texts := Worded(codec, PartsOf(content), false);
      AnthropicRequest.ResultContent(codec, content)
      == Some(seq(|texts|, i requires 0 <= i < |texts| => Obj(map["type" := Str("text"), "text" := Str(texts[i])])))
  {
    var parts := PartsOf(content);
    TextPartsRead(codec, parts);
    var texts := Worded(codec, parts, false);
    var said := seq(|texts|, i requires 0 <= i < |texts| => Obj(map["type" := Str("text"), "text" := Str(texts[i])]));
    var sent := AnthropicRequest.ResultContent(codec, content).value;
    forall i | 0 <= i < |sent| ensures sent[i] == said[i] {
      assert "" + Reads(codec, parts[i]) == Reads(codec, parts[i]);
    }
    assert sent == said;
  }

  /** Whatever has a `type` goes to Anthropic untouched. What Converse wrote is put in its words: text as text, a call
      with its id, its name and its input, a result part for part under its id, failed exactly when its status said so;
      the first of these a block can be read as. */
  lemma {:induction false} AnthropicTells(codec: Codec, b: Value)
    requires b.Obj?
    ensures var t := AnthropicRequest.TranslateBlock(codec, b);
      && (TextField(b, "type").Some? ==> t == Kept(b))
      && (TextField(b, "type").None? && TextField(b, "text").Some? ==>
            t == Kept(Obj(map["type" := Str("text"), "text" := Str(TextField(b, "text").value)])))
      && (TextField(b, "type").None? && TextField(b, "text").None? && Truthy(Field(b, "toolUse")) ==>
            t == AnthropicCall(Field(b, "toolUse").value))
      && (TextField(b, "type").None? && TextField(b, "text").None? && !Truthy(Field(b, "toolUse")) ==>
            t == if Truthy(Field(b, "toolResult")) then AnthropicAnswer(codec, Field(b, "toolResult").value) else Dropped)
  {
    if Truthy(Field(b, "toolResult")) {
      var content := Field(Field(b, "toolResult").value, "content");
      TextPartsRead(codec, PartsOf(content));
      if Null !in PartsOf(content) {
        AnthropicContent(codec, content);
      }
    }
  }

  /** A call in Anthropic's words; no input reads as an empty one. */
  function AnthropicCall(use: Value): Translated {
    var id, name, input := ShowField(use, "toolUseId"), ShowField(use, "name"), Field(use, "input");
    if id.None? || name.None? then Threw
    else Kept(Obj(map["type" := Str("tool_use"), "id" := Str(id.value), "name" := Str(name.value),
                      "input" := if input.None? || input == Some(Null) then Obj(map[]) else input.value]))
  }

  function AnthropicAnswer(codec: Codec, result: Value): Translated {
    var id, parts := ShowField(result, "toolUseId"), PartsOf(Field(result, "content"));
    if id.None? || Null in parts then Threw
    else Kept(AnthropicResult(id.value, Worded(codec, parts, false), Field(result, "status") == Some(Str("error"))))
  }
}
