/** Turning a provider's stream into envelopes, and numbering the durable ones. */
module Normalize {
  import opened Json
  import opened Contract

  datatype Acc = Acc(kind: BlockKind, text: string, partialJson: string)

  datatype Norm = Norm(seqNo: nat, turnId: string, blocks: map<int, Acc>)

  // --- Numbering ------------------------------------------------------------------------

  /** Only a durable envelope takes a number. */
  function Mint(n: Norm, etype: EventType, actor: Actor, payload: Payload): (Norm, Envelope) {
    if Ephemeral(etype) then (n, Envelope(None, etype, actor, payload))
    else (n.(seqNo := n.seqNo + 1), Envelope(Some(n.seqNo + 1), etype, actor, payload))
  }

  function BeginTurn(n: Norm, turnId: string): Norm {
    n.(turnId := turnId, blocks := map[])
  }

  // --- One event --------------------------------------------------------------------------

  function Accumulate(blocks: map<int, Acc>, index: int, kind: BlockKind, text: string): map<int, Acc> {
    if index in blocks then blocks[index := blocks[index].(text := blocks[index].text + text)]
    else blocks[index := Acc(kind, text, "")]
  }

  function FirstNonEmpty(a: string, b: string): string {
    if a != "" then a else b
  }

  /** `undefined` on a missing block is an empty object. */
  function Shape(block: Value): Value {
    if block.Null? then Obj(map[]) else block
  }

  predicate IsCompaction(kind: string) {
    "compaction" <= kind
  }

  /** From the block's own type, when no `block_start` told. None: reading it threw. */
  function InferKind(shape: Value): Option<BlockKind> {
    match ShowField(shape, "type")
    case None => None
    case Some(t) =>
      if t == "text" then Some(TextKind)
      else if t == "thinking" || t == "redacted_thinking" then Some(ThinkingKind)
      else if IsCompaction(t) then Some(CompactionKind)
      else Some(ToolUseKind)
  }

  /** Whether summarising a tool input throws; the summary itself is display text. */
  predicate SummaryThrows(name: string, input: Option<Value>) {
    var obj := if input.None? then Obj(map[]) else Shape(input.value);
    || ShowField(obj, "command").None?
    || (name in {"bash", "Bash"} && Truthy(Field(obj, "description")) && ShowField(obj, "description").None?)
    || (name !in {"bash", "Bash"} && (Field(obj, "path").Some? || Field(obj, "file_path").Some?)
        && (if Field(obj, "path").Some? && !Field(obj, "path").value.Null?
            then ShowField(obj, "path") else ShowField(obj, "file_path")).None?)
  }

  /** What a finished block is announced as. None: building the announcement threw. */
  function Announce(n: Norm, index: int, block: Value): Option<(EventType, Actor, Payload)> {
    var shape := Shape(block);
    var acc := if index in n.blocks then Some(n.blocks[index]) else None;
    var kind := if acc.Some? then Some(acc.value.kind) else InferKind(shape);
    var heard := if acc.Some? then acc.value.text else "";
    var key := BlockKey(n.turnId, index);
    if kind.None? then None else
    match kind.value
    case TextKind =>
      (match ShowField(shape, "text")
       case None => None
       case Some(t) => Some((AiText, Claude, BlockText(key, FirstNonEmpty(t, heard)))))
    case ThinkingKind =>
      (match ShowField(shape, "thinking")
       case None => None
       case Some(t) => Some((AiThinking, Claude, BlockText(key, FirstNonEmpty(t, heard)))))
    case CompactionKind =>
      if ShowField(shape, "replaced_from_seq").None? || ShowField(shape, "replaced_to_seq").None?
         || ShowField(shape, "tokens_before").None?
      then None else Some((ContextCompacted, System, NoPayload))
    case ToolUseKind =>
      var id, name := ShowField(shape, "id"), ShowField(shape, "name");
      if id.None? || name.None? || SummaryThrows(name.value, Field(shape, "input")) then None
      else Some((ToolStarted, Claude, Tool(id.value)))
  }

  /** Whatever throws on the way becomes one `ai_raw`. */
  function MapEvent(n: Norm, event: ProviderEvent): (Norm, seq<Envelope>) {
    match event
    case MessageStart(_) => (n, [])
    case BlockStart(index, kind) => (n.(blocks := n.blocks[index := Acc(kind, "", "")]), [])
    case TextDelta(index, text) =>
      var (m, e) := Mint(n.(blocks := Accumulate(n.blocks, index, TextKind, text)),
                         AiTextDelta, Claude, BlockText(BlockKey(n.turnId, index), text));
      (m, [e])
    case ThinkingDelta(index, text) =>
      var (m, e) := Mint(n.(blocks := Accumulate(n.blocks, index, ThinkingKind, text)),
                         AiThinkingDelta, Claude, BlockText(BlockKey(n.turnId, index), text));
      (m, [e])
    case ToolInputDelta(index, json) =>
      if index in n.blocks
      then (n.(blocks := n.blocks[index := n.blocks[index].(partialJson := n.blocks[index].partialJson + json)]), [])
      else (n, [])
    case BlockStop(index, block) =>
      (match Announce(n, index, block)
       case None => var (m, e) := Mint(n, AiRaw, System, NoPayload); (m, [e])
       case Some(a) => var (m, e) := Mint(n, a.0, a.1, a.2); (m, [e]))
    case MessageDelta(_, _) => (n, [])
    case MessageStop => (n, [])
    case Raw => var (m, e) := Mint(n, AiRaw, System, NoPayload); (m, [e])
  }

  function Feed(n: Norm, events: seq<ProviderEvent>): Norm
    decreases |events|
  {
    if events == [] then n else MapEvent(Feed(n, events[..|events| - 1]), events[|events| - 1]).0
  }

  // --- The normalizer ------------------------------------------------------------------------

  class LoopNormalizer {
    var seqNo: nat
    var turnId: string
    var blocks: map<int, Acc>
    const userActor: Actor

    function Now(): Norm
      reads this
    {
      Norm(seqNo, turnId, blocks)
    }

    constructor (userActor: Actor, start: nat)
      ensures Now() == Norm(start, "turn", map[]) && this.userActor == userActor
    {
      seqNo, turnId, blocks, this.userActor := start, "turn", map[], userActor;
    }

    method Begin(id: string)
      modifies this
      ensures Now() == BeginTurn(old(Now()), id)
    {
      turnId, blocks := id, map[];
    }

    method Make(etype: EventType, actor: Actor, payload: Payload) returns (e: Envelope)
      modifies this
      ensures (Now(), e) == Mint(old(Now()), etype, actor, payload)
    {
      if Ephemeral(etype) {
        e := Envelope(None, etype, actor, payload);
      } else {
        seqNo := seqNo + 1;
        e := Envelope(Some(seqNo), etype, actor, payload);
      }
    }

    method Map(event: ProviderEvent) returns (out: seq<Envelope>)
      modifies this
      ensures (Now(), out) == MapEvent(old(Now()), event)
    {
      out := [];
      match event {
        case BlockStart(index, kind) =>
          blocks := blocks[index := Acc(kind, "", "")];
        case TextDelta(index, text) =>
          blocks := Accumulate(blocks, index, TextKind, text);
          var e := Make(AiTextDelta, Claude, BlockText(BlockKey(turnId, index), text));
          out := [e];
        case ThinkingDelta(index, text) =>
          blocks := Accumulate(blocks, index, ThinkingKind, text);
          var e := Make(AiThinkingDelta, Claude, BlockText(BlockKey(turnId, index), text));
          out := [e];
        case ToolInputDelta(index, json) =>
          if index in blocks {
            blocks := blocks[index := blocks[index].(partialJson := blocks[index].partialJson + json)];
          }
        case BlockStop(index, block) =>
          var a := Announce(Now(), index, block);
          var e;
          match a {
            case None => e := Make(AiRaw, System, NoPayload);
            case Some(x) => e := Make(x.0, x.1, x.2);
          }
          out := [e];
        case Raw =>
          var e := Make(AiRaw, System, NoPayload);
          out := [e];
        case _ =>
      }
    }
  }

  // --- What is accumulated ---------------------------------------------------------------------

  /** The text and thinking deltas of one block since it was last opened, in order. */
  function DeltaText(events: seq<ProviderEvent>, index: int): string
    decreases |events|
  {
    if events == [] then ""
    else
      var before := DeltaText(events[..|events| - 1], index);
      match events[|events| - 1]
      case BlockStart(i, _) => if i == index then "" else before
      case TextDelta(i, t) => if i == index then before + t else before
      case ThinkingDelta(i, t) => if i == index then before + t else before
      case _ => before
  }

  /** The input fragments of one block since it was last opened. */
  function DeltaJson(events: seq<ProviderEvent>, index: int): string
    decreases |events|
  {
    if events == [] then ""
    else
      var before := DeltaJson(events[..|events| - 1], index);
      match events[|events| - 1]
      case BlockStart(i, _) => if i == index then "" else before
      case ToolInputDelta(i, t) => if i == index then before + t else before
      case _ => before
  }

  /** The kind a block was last opened with. */
  function KindIn(events: seq<ProviderEvent>, index: int): Option<BlockKind>
    decreases |events|
  {
    if events == [] then None
    else match events[|events| - 1]
      case BlockStart(i, k) => if i == index then Some(k) else KindIn(events[..|events| - 1], index)
      case _ => KindIn(events[..|events| - 1], index)
  }

  /** For any event sequence whatever, a block's accumulator holds exactly its deltas: its text however the block
      came to be, its input once the block was opened. */
  lemma {:induction false} AccumulatorHoldsDeltas(n: Norm, events: seq<ProviderEvent>, index: int)
    requires n.blocks == map[]
    ensures var blocks := Feed(n, events).blocks;
      && (index in blocks ==> blocks[index].text == DeltaText(events, index))
      && (index !in blocks ==> DeltaText(events, index) == "")
      && (KindIn(events, index).Some? ==> index in blocks && blocks[index].partialJson == DeltaJson(events, index))
    decreases |events|
  {
    if events != [] {
      AccumulatorHoldsDeltas(n, events[..|events| - 1], index);
    }
  }

  /** Numbers are consecutive and durable-only: an event takes exactly as many as it makes
      durable envelopes, in order, and an ephemeral one takes none. */
  lemma {:induction false} NumbersAreConsecutive(n: Norm, event: ProviderEvent)
    ensures var (m, out) := MapEvent(n, event);
      && |out| <= 1
      && m.turnId == n.turnId
      && m.seqNo == n.seqNo + (if out != [] && !Ephemeral(out[0].etype) then 1 else 0)
      && (forall i :: 0 <= i < |out| ==>
            out[i].seqNo == if Ephemeral(out[i].etype) then None else Some(m.seqNo))
  {
  }
}
