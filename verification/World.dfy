/** What a turn's world says by itself: read off the stream and the choices made, not off the loop. */
module World {
  import opened Json
  import opened Contract
  import opened Normalize
  import opened RunLoop

  /** The turn's stream, heard by no one in particular: what it says does not depend on the numbers. */
  function Voice(events: seq<ProviderEvent>): Heard {
    Hear(Norm(0, "", map[]), events)
  }

  /** A call whose id or name cannot be made into a string. */
  predicate Garbled(block: Value) {
    HasType(block, "tool_use") && (ShowField(block, "id").None? || ShowField(block, "name").None?)
  }

  predicate Torn(events: seq<ProviderEvent>)
    decreases |events|
  {
    events != [] && (Torn(events[..|events| - 1])
                     || (events[|events| - 1].BlockStop? && Garbled(events[|events| - 1].block)))
  }

  /** Why the provider says it stopped: the last reason it gave, or none to speak of. */
  function LastReason(events: seq<ProviderEvent>): StopReason
    decreases |events|
  {
    if events == [] then EndTurn
    else match events[|events| - 1]
      case MessageDelta(reason, _) => reason
      case _ => LastReason(events[..|events| - 1])
  }

  /** The last figures reported, if any were. */
  function LastUsage(events: seq<ProviderEvent>): Option<Usage>
    decreases |events|
  {
    if events == [] then None
    else match events[|events| - 1]
      case MessageDelta(_, usage) => Some(usage)
      case _ => LastUsage(events[..|events| - 1])
  }

  /** The calls these blocks make, in order. */
  function CallsIn(blocks: seq<Value>): seq<ToolCall>
    decreases |blocks|
  {
    if blocks == [] then []
    else
      var before, b := CallsIn(blocks[..|blocks| - 1]), blocks[|blocks| - 1];
      if !HasType(b, "tool_use") || Garbled(b) then before
      else before + [ToolCall(ShowField(b, "id").value, ShowField(b, "name").value, Field(b, "input"))]
  }

  /** The calls of a turn are those of the blocks its stream finished. */
  function Calls(turn: Turn): seq<ToolCall> {
    CallsIn(Stopped(turn.stream))
  }

  /** A turn breaks off just where a call cannot be read; and until then its blocks are the ones the stream finished. */
  lemma {:induction false} VoiceBlocks(events: seq<ProviderEvent>)
    ensures Voice(events).broke <==> Torn(events)
    ensures !Torn(events) ==> Voice(events).blocks == Stopped(events)
    decreases |events|
  {
    if events != [] {
      VoiceBlocks(events[..|events| - 1]);
    }
  }

  /** Its calls are exactly those its blocks make, in block order. */
  lemma {:induction false} VoiceCalls(events: seq<ProviderEvent>)
    requires !Torn(events)
    ensures Voice(events).calls == CallsIn(Stopped(events))
    decreases |events|
  {
    VoiceBlocks(events);
    if events != [] {
      var init, e := events[..|events| - 1], events[|events| - 1];
      VoiceBlocks(init);
      VoiceCalls(init);
      if e.BlockStop? {
        assert Stopped(events)[..|Stopped(events)| - 1] == Stopped(init);
      }
    }
  }

  /** Its reason and its figures are the last ones given. */
  lemma {:induction false} VoiceReason(events: seq<ProviderEvent>)
    requires !Torn(events)
    ensures ReasonOf(Voice(events)) == LastReason(events)
    ensures Voice(events).reported <==> LastUsage(events).Some?
    ensures Voice(events).usage == if LastUsage(events).Some? then LastUsage(events).value else ZERO_USAGE
    decreases |events|
  {
    VoiceBlocks(events);
    if events != [] {
      VoiceBlocks(events[..|events| - 1]);
      VoiceReason(events[..|events| - 1]);
    }
  }

  /** A call is run with the input of the first call of its turn with its id: its own, while ids differ. */
  lemma {:induction false} InputIsOwn(calls: seq<ToolCall>, i: nat)
    requires i < |calls| && forall j :: 0 <= j < i ==> calls[j].id != calls[i].id
    ensures InputOf(calls, calls[i].id) == calls[i].input
    decreases |calls|
  {
    if i > 0 {
      assert calls[0].id != calls[i].id;
      assert forall j :: 0 <= j < i - 1 ==> calls[1..][j].id == calls[j + 1].id;
      InputIsOwn(calls[1..], i - 1);
    }
  }

  /** What the model is told of the call at this place, and whether it worked. */
  function Outcomes(spec: Spec, turn: Turn, at: nat, name: string): Outcome {
    match turn.effects(at)
    case Effect(Refused(reason), _, _, _) => Outcome(false, reason)
    case Effect(_, _, raw, after) =>
      if after.Some? then after.value
      else if spec.knows(name) then raw
      else Outcome(false, "unknown tool: " + name)
  }

  // --- Who speaks -------------------------------------------------------------------------------

  /** What kind of block is being streamed at this index: as it was opened, or as its first delta was. */
  function KindOf(events: seq<ProviderEvent>, index: int): Option<BlockKind>
    decreases |events|
  {
    if events == [] then None
    else
      var before := KindOf(events[..|events| - 1], index);
      match events[|events| - 1]
      case BlockStart(i, kind) => if i == index then Some(kind) else before
      case TextDelta(i, _) => if i == index && before.None? then Some(TextKind) else before
      case ThinkingDelta(i, _) => if i == index && before.None? then Some(ThinkingKind) else before
      case _ => before
  }

  /** As the block names itself. */
  function KindNamed(block: Value): Option<BlockKind> {
    match ShowField(block, "type")
    case None => None
    case Some(t) =>
      if t == "text" then Some(TextKind)
      else if t == "thinking" || t == "redacted_thinking" then Some(ThinkingKind)
      else if "compaction" <= t then Some(CompactionKind)
      else Some(ToolUseKind)
  }

  /** All that is read of a block of this kind can be. */
  predicate Legible(kind: BlockKind, block: Value) {
    match kind
    case TextKind => ShowField(block, "text").Some?
    case ThinkingKind => ShowField(block, "thinking").Some?
    case CompactionKind =>
      ShowField(block, "replaced_from_seq").Some? && ShowField(block, "replaced_to_seq").Some? && ShowField(block, "tokens_before").Some?
    case ToolUseKind =>
      ShowField(block, "id").Some? && ShowField(block, "name").Some? && !SummaryThrows(ShowField(block, "name").value, Field(block, "input"))
  }

  /** The block stopped at `k` is announced: as the model's own, or as a summary. */
  predicate Announced(events: seq<ProviderEvent>, k: nat, own: bool)
    requires k < |events|
  {
    && events[k].BlockStop?
    && var streamed := KindOf(events[..k], events[k].index);
       var kind := if streamed.Some? then streamed else KindNamed(events[k].block);
       kind.Some? && own == !kind.value.CompactionKind? && Legible(kind.value, events[k].block)
  }

  predicate AnyAnnounced(events: seq<ProviderEvent>, own: bool) {
    exists k: nat :: k < |events| && Announced(events, k, own)
  }

  /** A turn's blocks are the model's own once one of them could be announced as such; summaries alone are told as the
      user's; and of a turn none of whose blocks could be announced none is kept. */
  function Speaker(events: seq<ProviderEvent>): Option<Role> {
    if AnyAnnounced(events, true) then Some(AssistantRole)
    else if AnyAnnounced(events, false) then Some(UserRole)
    else None
  }
}
