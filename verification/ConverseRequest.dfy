/** The Converse vocabulary, outbound. */
module ConverseRequest {
  import opened Json
  import opened Contract
  import opened Surface
  import opened Translation

  function TextOnly(text: string): Value {
    Obj(map["text" := Str(text)])
  }

  /** One part of a tool result. None: reading it throws. */
  function Part(codec: Codec, part: Value): Option<string> {
    if part.Null? then None
    else if TextField(part, "text").Some? then TextField(part, "text")
    else Some(codec.stringify(part))
  }

  function Parts(codec: Codec, parts: seq<Value>): Option<seq<Value>>
    decreases |parts|
  {
    if parts == [] then Some([])
    else
      var before := Parts(codec, parts[..|parts| - 1]);
      var last := Part(codec, parts[|parts| - 1]);
      if before.None? || last.None? then None else Some(before.value + [TextOnly(last.value)])
  }

  /** A failed result says so in its first part: there is no status field to say it in. */
  function ResultContent(codec: Codec, content: Option<Value>, isError: bool): Option<seq<Value>> {
    var parts := if content.Some? && content.value.Arr? then Parts(codec, content.value.items) else Some([TextOnly("")]);
    if parts.None? then None
    else if isError && parts.value != [] && TextField(parts.value[0], "text").Some? then
      Some([TextOnly("[tool error] " + TextField(parts.value[0], "text").value)] + parts.value[1..])
    else parts
  }

  /** Encrypted reasoning to send back, if there is any. */
  function DecodeBytes(codec: Codec, redacted: Option<Value>): Option<string> {
    var tagged := if redacted.Some? then TextField(redacted.value, "__bytes_b64") else None;
    if tagged.None? || tagged.value == "" || codec.decode64(tagged.value) == "" then None
    else Some(codec.decode64(tagged.value))
  }

  function TranslateBlock(codec: Codec, b: Value): Translated {
    if !b.Obj? then Dropped
    else if HasType(b, "text") && TextField(b, "text").Some? then Kept(TextOnly(TextField(b, "text").value))
    else if HasType(b, "tool_result") then
      var id := ShowField(b, "tool_use_id");
      var content := ResultContent(codec, Field(b, "content"), Field(b, "is_error") == Some(Bool(true)));
      if id.None? || content.None? then Threw
      else Kept(Obj(map["toolResult" := Obj(map["toolUseId" := Str(id.value), "content" := Arr(content.value)])]))
    else if HasType(b, "tool_use") then
      var id, name := ShowField(b, "id"), ShowField(b, "name");
      if id.None? || name.None? then Threw
      else Kept(Obj(map["toolUse" := Obj(map["toolUseId" := Str(id.value), "name" := Str(name.value)]
                                         + (if Field(b, "input").Some? then map["input" := Field(b, "input").value] else map[]))]))
    else if TextField(b, "text").Some? && Field(b, "type").None? then Kept(TextOnly(TextField(b, "text").value))
    else if Truthy(Field(b, "toolUse")) then Kept(Obj(map["toolUse" := Field(b, "toolUse").value]))
    else if Truthy(Field(b, "reasoningContent")) then
      var bytes := DecodeBytes(codec, Field(Field(b, "reasoningContent").value, "redactedContent"));
      if bytes.Some? then Kept(Obj(map["reasoningContent" := Obj(map["redactedContent" := Str(bytes.value)])])) else Dropped
    else Dropped
  }

  function Translator(codec: Codec): Value -> Translated {
    b => TranslateBlock(codec, b)
  }

  /** What of a folded surface Converse is sent; None when a block could not be read. */
  function ToConverse(codec: Codec, messages: seq<Message>): Option<seq<Message>> {
    Carry(Translator(codec), messages)
  }

  // --- Ids ------------------------------------------------------------------------------------

  /** The call's id on what is sent for a block that could be read. */
  function SentUse(b: Value): Option<string> {
    if TextField(b, "text").Some? && (HasType(b, "text") || Field(b, "type").None?) then None
    else if HasType(b, "tool_use") then ShowField(b, "id")
    else if HasType(b, "tool_result") then None
    else InnerUse(b)
  }

  /** Of results, only canonical ones are sent. */
  function SentResult(b: Value): Option<string> {
    if HasType(b, "tool_result") then ShowField(b, "tool_use_id") else None
  }

  /** A block of one key has the id that lies under it, and no other. */
  lemma {:induction false} KeyedIds(key: string, v: Value)
    requires key != "type"
    ensures var b := Obj(map[key := v]);
      && UseId(b) == (if key == "toolUse" then TextField(v, "toolUseId") else None)
      && ResultId(b) == (if key == "toolResult" then TextField(v, "toolUseId") else None)
  {
  }

  predicate OneKeyed(b: Value, key: string) {
    b.Obj? && key in b.fields && b == Obj(map[key := b.fields[key]])
  }

  lemma {:induction false} SentShape(codec: Codec, b: Value)
    requires TranslateBlock(codec, b).Kept?
    ensures var v := TranslateBlock(codec, b).block;
      || (OneKeyed(v, "text") && SentUse(b).None? && SentResult(b).None?)
      || (OneKeyed(v, "reasoningContent") && SentUse(b).None? && SentResult(b).None?)
      || (OneKeyed(v, "toolUse") && SentUse(b) == TextField(v.fields["toolUse"], "toolUseId") && SentResult(b).None?)
      || (OneKeyed(v, "toolResult") && SentUse(b).None? && SentResult(b) == TextField(v.fields["toolResult"], "toolUseId"))
  {
  }

  lemma {:induction false} BlockSends(codec: Codec, b: Value)
    requires !TranslateBlock(codec, b).Threw?
    ensures SendsAs(Translator(codec), b, SentUse(b), SentResult(b))
  {
    if TranslateBlock(codec, b).Kept? {
      SentShape(codec, b);
      KeptSends(TranslateBlock(codec, b).block, SentUse(b), SentResult(b));
    } else {
      DroppedSends(codec, b);
    }
  }

  lemma {:induction false} KeptSends(v: Value, use: Option<string>, result: Option<string>)
    requires
      || (OneKeyed(v, "text") && use.None? && result.None?)
      || (OneKeyed(v, "reasoningContent") && use.None? && result.None?)
      || (OneKeyed(v, "toolUse") && use == TextField(v.fields["toolUse"], "toolUseId") && result.None?)
      || (OneKeyed(v, "toolResult") && use.None? && result == TextField(v.fields["toolResult"], "toolUseId"))
    ensures UseId(v) == use && ResultId(v) == result
  {
    var key :| key in v.fields && OneKeyed(v, key);
    KeyedIds(key, v.fields[key]);
  }

  lemma {:induction false} DroppedSends(codec: Codec, b: Value)
    requires TranslateBlock(codec, b).Dropped?
    ensures SentUse(b).None? && SentResult(b).None?
  {
  }

  /** A block that speaks two vocabularies at once, or holds both halves in Converse's. */
  predicate Mixed(b: Value) {
    || ((Field(b, "type").Some? || TextField(b, "text").Some?) && (InnerUse(b).Some? || InnerResult(b).Some?))
    || (InnerUse(b).Some? && InnerResult(b).Some?)
  }

  /** A canonical block without a string to be known by: it goes out under a made-up id. */
  predicate Anonymous(b: Value) {
    || (HasType(b, "tool_use") && TextField(b, "id").None?)
    || (HasType(b, "tool_result") && TextField(b, "tool_use_id").None?)
  }

  /** On any block of one vocabulary every id the fold reads is kept but that of a result in Converse's own
      shape, and an id is added just where a canonical block has none of its own. */
  lemma {:induction false} KeepsIdsExactly(codec: Codec, b: Value)
    requires !Mixed(b) && !TranslateBlock(codec, b).Threw?
    ensures SendsAs(Translator(codec), b, SentUse(b), SentResult(b))
    ensures SentUse(b) == UseId(b) <==> !(HasType(b, "tool_use") && Anonymous(b))
    ensures SentResult(b) == ResultId(b) <==> !(HasType(b, "tool_result") && Anonymous(b)) && InnerResult(b).None?
    ensures Anonymous(b) ==> UseId(b).None? && ResultId(b).None?
    ensures InnerResult(b).Some? ==> SentResult(b).None?
  {
    BlockSends(codec, b);
  }
}
