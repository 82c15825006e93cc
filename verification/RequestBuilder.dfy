/** Building a request from the record, and rebuilding one from a prefix of the log. */
module RequestBuilder {
  import opened Json
  import opened Contract
  import opened Record
  import opened Surface
  import Breakpoints

  const THINKING_HEADROOM := 8192
  const MIN_THINKING_BUDGET := 1024
  const DEFAULT_ANSWER := 8192

  // --- Sizing ------------------------------------------------------------------------

  function AnswerRoom(answerTokens: Option<nat>): nat {
    if answerTokens.Some? then answerTokens.value else DEFAULT_ANSWER
  }

  /** The thinking budget to send, when one can be sent validly. */
  function BudgetFor(caps: Capabilities, answerTokens: Option<nat>): Option<int> {
    if caps.thinkingBudgetTokens.None? then None
    else
      var declared := caps.thinkingBudgetTokens.value;
      var room := caps.maxOutputTokens - AnswerRoom(answerTokens) - 1;
      var budget := if declared <= room then declared else room;
      if budget >= MIN_THINKING_BUDGET then Some(budget) else None
  }

  function ThinkingFor(caps: Capabilities, answerTokens: Option<nat>): Thinking {
    if caps.adaptiveThinking then Adaptive(caps.thinkingDisplaySummarized)
    else match BudgetFor(caps, answerTokens)
      case None => NoThinking
      case Some(b) => Enabled(b)
  }

  function SizeMaxTokens(caps: Capabilities, answerTokens: Option<nat>): int {
    var budget := BudgetFor(caps, answerTokens);
    var headroom := if caps.adaptiveThinking then THINKING_HEADROOM
                    else if budget.Some? then budget.value + 1 else 0;
    var want := AnswerRoom(answerTokens) + headroom;
    if want <= caps.maxOutputTokens then want else caps.maxOutputTokens
  }

  /** A budget is only ever sent strictly under the limit, at or over the provider's floor, with the
      whole answer still fitting beside it; and it is withheld only when no such budget exists. */
  lemma {:induction false} BudgetLeavesRoom(caps: Capabilities, answerTokens: Option<nat>)
    requires !caps.adaptiveThinking
    ensures match ThinkingFor(caps, answerTokens)
      case Enabled(b) =>
        && MIN_THINKING_BUDGET <= b <= caps.thinkingBudgetTokens.value
        && SizeMaxTokens(caps, answerTokens) == b + 1 + AnswerRoom(answerTokens) <= caps.maxOutputTokens
      case NoThinking =>
        || caps.thinkingBudgetTokens.None?
        || caps.thinkingBudgetTokens.value < MIN_THINKING_BUDGET
        || caps.maxOutputTokens <= AnswerRoom(answerTokens) + MIN_THINKING_BUDGET
      case Adaptive(_) => false
  {
  }

  // --- Building -----------------------------------------------------------------------

  predicate Named(effort: Option<string>) {
    effort.Some? && effort.value != ""
  }

  function CountBlocks(messages: seq<Message>): nat {
    |Spoken(messages)|
  }

  function Build(model: string, caps: Capabilities, systemPrompt: string, tools: seq<ToolSchema>,
                 surface: seq<Entry>, effort: Option<string>, answerTokens: Option<nat>): Request
  {
    var messages := Fold(surface);
    Request(
      model,
      SizeMaxTokens(caps, answerTokens),
      systemPrompt,
      caps.promptCaching
        && (caps.minCacheablePrefixTokens.None? || |systemPrompt| >= 4 * caps.minCacheablePrefixTokens.value),
      messages,
      tools,
      ThinkingFor(caps, answerTokens),
      if Named(effort) && effort.value in caps.effortLevels then effort else None,
      caps.serverSideCompaction,
      if caps.promptCaching then Breakpoints.Place(CountBlocks(messages)) else [])
  }

  // --- Fingerprints -----------------------------------------------------------------------

  const WORD := 0x1_0000_0000

  /** djb2: times 33, plus the character, in 32 bits. */
  function Djb2(s: string): nat
    decreases |s|
  {
    if s == "" then 5381 else (33 * Djb2(s[..|s| - 1]) + s[|s| - 1] as int) % WORD
  }

  /** `x | 0`: the signed 32-bit reading. */
  function ToInt32(x: int): int {
    var low := x % WORD;
    if low < WORD / 2 then low else low - WORD
  }

  /** The loop works in signed 32-bit words and reads the last one unsigned. */
  method Digest(s: string) returns (r: nat)
    ensures r == Djb2(s)
  {
    var hash: int := 5381;
    for i := 0 to |s|
      invariant hash == ToInt32(hash) && hash % WORD == Djb2(s[..i])
    {
      assert s[..i + 1][..i] == s[..i];
      var shifted := ToInt32(hash * 32);
      Wraps(hash, shifted, s[i] as int, Djb2(s[..i]));
      hash := ToInt32(shifted + hash + s[i] as int);
    }
    assert s[..|s|] == s;
    r := hash % WORD;
  }

  lemma {:induction false} Wraps(hash: int, shifted: int, code: int, before: nat)
    requires shifted == ToInt32(hash * 32) && hash % WORD == before
    ensures ToInt32(shifted + hash + code) % WORD == (33 * before + code) % WORD
    ensures ToInt32(ToInt32(shifted + hash + code)) == ToInt32(shifted + hash + code)
  {
    var a := hash * 32 / WORD;
    var k := hash / WORD;
    assert hash == k * WORD + before;
    var j := if shifted == (hash * 32) % WORD then a else a + 1;
    assert shifted == hash * 32 - j * WORD;
    assert shifted + hash + code == 33 * before + code + (33 * k - j) * WORD;
    SameRemainder(33 * before + code, 33 * k - j);
  }

  lemma {:induction false} SameRemainder(x: int, m: int)
    ensures (x + m * WORD) % WORD == x % WORD
  {
    var q, r := x / WORD, x % WORD;
    assert x + m * WORD == (q + m) * WORD + r;
    assert (x + m * WORD) / WORD == q + m by {
      var y := x + m * WORD;
      assert (y / WORD) * WORD + y % WORD == y;
      var d := y / WORD - (q + m);
      assert d * WORD == r - y % WORD;
    }
  }

  function MessageValue(m: Message): Value {
    Obj(map["role" := Str(if m.role == UserRole then "user" else "assistant"), "content" := Arr(m.content)])
  }

  function MessagesValue(messages: seq<Message>): Value {
    Arr(seq(|messages|, i requires 0 <= i < |messages| => MessageValue(messages[i])))
  }

  function ToolValue(t: ToolSchema): Value {
    Obj(map["name" := Str(t.name)] + (if t.inputSchema.Some? then map["input_schema" := t.inputSchema.value] else map[]))
  }

  function ToolsValue(tools: seq<ToolSchema>): Value {
    Arr(seq(|tools|, i requires 0 <= i < |tools| => ToolValue(tools[i])))
  }

  function MessagesDigest(codec: Codec, messages: seq<Message>): nat {
    Djb2(codec.stringify(MessagesValue(messages)))
  }

  function ToolsDigest(codec: Codec, tools: seq<ToolSchema>): nat {
    Djb2(codec.stringify(ToolsValue(tools)))
  }

  // --- Rebuilding ---------------------------------------------------------------------------

  datatype Verdict = Match | Mismatch | NotAtBoundary | Unrecorded

  datatype Rebuilt =
    | Ok(request: Request, snapshot: Snapshot, messages: Verdict)
    | NoSnapshot
    | PromptMismatch
    | ToolsMismatch

  /** The last `request_header` of a prefix, by position. */
  function LatestHeader(entries: seq<Entry>): (r: Option<nat>)
    ensures r.Some? ==> r.value < |entries| && entries[r.value].etype == RequestHeader
    ensures r.Some? ==> forall j :: r.value < j < |entries| ==> entries[j].etype != RequestHeader
    ensures r.None? ==> forall j :: 0 <= j < |entries| ==> entries[j].etype != RequestHeader
    decreases |entries|
  {
    if entries == [] then None
    else if entries[|entries| - 1].etype == RequestHeader then Some(|entries| - 1)
    else LatestHeader(entries[..|entries| - 1])
  }

  method FindHeader(entries: seq<Entry>) returns (r: Option<nat>)
    ensures r == LatestHeader(entries)
  {
    var i := |entries|;
    assert entries[..|entries|] == entries;
    while i > 0
      invariant 0 <= i <= |entries| && LatestHeader(entries[..i]) == LatestHeader(entries)
    {
      assert entries[..i][..i - 1] == entries[..i - 1];
      if entries[i - 1].etype == RequestHeader { return Some(i - 1); }
      i := i - 1;
    }
    r := None;
  }

  function VerdictOn(codec: Codec, rebuilt: seq<Message>, recorded: Option<nat>, entries: seq<Entry>, at: nat): Verdict {
    if recorded.None? then Unrecorded
    else if at + 1 != |entries| then NotAtBoundary
    else if MessagesDigest(codec, rebuilt) == recorded.value then Match
    else Mismatch
  }

  /** Model and effort come from the record; the prompt, the tools and the capabilities are supplied,
      and refused unless they have the recorded fingerprints. */
  function Reconstruct(codec: Codec, entries: seq<Entry>, systemPrompt: string, tools: seq<ToolSchema>,
                       caps: Capabilities, answerTokens: Option<nat>): Rebuilt
  {
    match LatestHeader(entries)
    case None => NoSnapshot
    case Some(at) =>
      if !entries[at].payload.Header? then NoSnapshot
      else
        var Header(snapshot, recorded) := entries[at].payload;
        if Djb2(systemPrompt) != snapshot.systemPromptDigest then PromptMismatch
        else if ToolsDigest(codec, tools) != snapshot.toolSchemasDigest then ToolsMismatch
        else
          var request := Build(snapshot.model, caps, systemPrompt, tools, OnSurface(entries),
                               if Named(snapshot.effort) then snapshot.effort else None, answerTokens);
          Ok(request, snapshot, VerdictOn(codec, request.messages, recorded, entries, at))
  }
}
