/** The provider-neutral vocabulary: what an adapter streams, what the loop sends,
    and the envelopes the room sees. */
module Contract {
  import opened Json

  datatype StopReason =
    | EndTurn
    | ToolUse
    | MaxTokens
    | PauseTurn
    | Refusal
    | ContextWindowExceeded

  function ReasonName(r: StopReason): string {
    match r
    case EndTurn => "end_turn"
    case ToolUse => "tool_use"
    case MaxTokens => "max_tokens"
    case PauseTurn => "pause_turn"
    case Refusal => "refusal"
    case ContextWindowExceeded => "model_context_window_exceeded"
  }

  datatype Usage = Usage(input: nat, output: nat, cacheRead: nat, cacheCreation: nat)

  const ZERO_USAGE := Usage(0, 0, 0, 0)

  function AddUsage(a: Usage, b: Usage): Usage {
    Usage(a.input + b.input, a.output + b.output,
          a.cacheRead + b.cacheRead, a.cacheCreation + b.cacheCreation)
  }

  datatype BlockKind = TextKind | ThinkingKind | ToolUseKind | CompactionKind

  datatype ProviderEvent =
    | MessageStart(model: string)
    | BlockStart(index: int, kind: BlockKind)
    | TextDelta(index: int, text: string)
    | ThinkingDelta(index: int, text: string)
    | ToolInputDelta(index: int, partialJson: string)
    | BlockStop(index: int, block: Value)
    | MessageDelta(stopReason: StopReason, usage: Usage)
    | MessageStop
    | Raw

  /** The blocks a stream finished, in provider order. */
  function Stopped(events: seq<ProviderEvent>): seq<Value>
    decreases |events|
  {
    if events == [] then []
    else
      var before := Stopped(events[..|events| - 1]);
      match events[|events| - 1]
      case BlockStop(_, block) => before + [block]
      case _ => before
  }

  datatype Role = UserRole | AssistantRole

  /** Content blocks are carried verbatim and never flattened to text. */
  datatype Message = Message(role: Role, content: seq<Value>)

  function TextBlock(text: string): Value {
    Obj(map["type" := Str("text"), "text" := Str(text)])
  }

  function ToolUseBlock(id: string, name: string, input: Value): Value {
    Obj(map["type" := Str("tool_use"), "id" := Str(id), "name" := Str(name), "input" := input])
  }

  function ToolResultBlock(id: string, text: string, isError: bool): Value {
    Obj(map["type" := Str("tool_result"), "tool_use_id" := Str(id),
            "content" := Arr([TextBlock(text)]), "is_error" := Bool(isError)])
  }

  datatype ToolSchema = ToolSchema(name: string, inputSchema: Option<Value>)

  datatype Thinking = NoThinking | Adaptive(summarized: bool) | Enabled(budget: int)

  datatype Capabilities = Capabilities(
    toolUse: bool,
    promptCaching: bool,
    minCacheablePrefixTokens: Option<nat>,
    adaptiveThinking: bool,
    thinkingDisplaySummarized: bool,
    thinkingBudgetTokens: Option<nat>,
    maxOutputTokens: nat,
    effortLevels: seq<string>,
    serverSideCompaction: bool)

  /** The request an adapter is handed; the live abort signal is not part of it. */
  datatype Request = Request(
    model: string,
    maxTokens: int,
    system: string,
    systemCached: bool,
    messages: seq<Message>,
    tools: seq<ToolSchema>,
    thinking: Thinking,
    effort: Option<string>,
    compaction: bool,
    cacheBreakpoints: seq<nat>)

  datatype EventType =
    | UserPrompt | RunStarted | RequestHeader
    | AiTextDelta | AiThinkingDelta | AiText | AiThinking
    | ToolStarted | ToolFinished | ToolFailed | ToolRefused
    | TerminalOutput | FileChanged | ContextCompacted | ContextUsage
    | ProviderError | RunFinished | RunFailed | RunInterrupted
    | AiRaw | RecoveryApplied | PresenceChanged

  /** The types that are broadcast and never persisted. */
  predicate Ephemeral(t: EventType) {
    t in {AiTextDelta, AiThinkingDelta, PresenceChanged, ContextUsage}
  }

  datatype Actor = Claude | User | System

  /** How a tool call came out, as the model is told. */
  datatype Outcome = Outcome(ok: bool, text: string)

  /** `"<turnId>:<index>"`. */
  datatype BlockKey = BlockKey(turnId: string, index: int)

  /** What a request was made with; fingerprinted to decide whether to restate it. */
  datatype Snapshot = Snapshot(
    provider: string,
    credentialSource: string,
    model: string,
    effort: Option<string>,
    systemPromptDigest: nat,
    toolSchemasDigest: nat,
    plugins: seq<string>)

  datatype Payload =
    | NoPayload
    | BlockText(block: BlockKey, text: string)
    | Tool(toolUseId: string)
    | Header(snapshot: Snapshot, messagesDigest: Option<nat>)
    | Uncertain
    | Spend(usage: Usage)

  datatype Envelope = Envelope(seqNo: Option<nat>, etype: EventType, actor: Actor, payload: Payload)
}
