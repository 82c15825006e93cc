/** All a run does, in order, told from its world alone: what it files and where that leaves it, what it asks, what it runs
    and what it tells the room. */
module Script {
  import opened Json
  import opened Contract
  import opened Record
  import opened Checkpoint
  import opened Journal
  import opened Normalize
  import opened RunLoop
  import opened World
  import opened Story
  import opened Endings
  import Deeds
  import RequestBuilder

  /** An event without its number; of a snapshot, without the fingerprint of what was sent. */
  datatype Face = Face(etype: EventType, actor: Actor, payload: Payload)

  /** Where a transaction leaves the run. */
  datatype Stand = AtCheckpoint | AtRequest(turnId: string, attempt: nat) | AtTools | AtEnd(outcome: Ending) | Elsewhere

  datatype Line =
    | Files(events: seq<Face>, stands: Option<Stand>)
    | Asks
    | Begins(toolUseId: string, input: Value)
    | Tells(told: seq<Face>)

  // --- A journal's lines ---------------------------------------------------------------------------

  function FaceOf(etype: EventType, actor: Actor, payload: Payload): Face {
    Face(etype, actor, if payload.Header? then payload.(messagesDigest := None) else payload)
  }

  function Faces(events: seq<Envelope>): (r: seq<Face>)
    ensures |r| == |events| && forall i :: 0 <= i < |r| ==> r[i] == FaceOf(events[i].etype, events[i].actor, events[i].payload)
  {
    seq(|events|, i requires 0 <= i < |events| => FaceOf(events[i].etype, events[i].actor, events[i].payload))
  }

  /** The numbered events among these writes. */
  function Numbered(writes: seq<Write>): seq<Face>
    decreases |writes|
  {
    if writes == [] then []
    else
      var before, w := Numbered(writes[..|writes| - 1]), writes[|writes| - 1];
      if w.PutEntry? && w.entry.seqNo.Some? then before + [FaceOf(w.entry.etype, w.entry.actor, w.entry.payload)] else before
  }

  function StandOf(p: Position): Stand {
    match p
    case Checkpoint => AtCheckpoint
    case RequestPending(_, _, turnId, attempt) => AtRequest(turnId, attempt)
    case Tools(_, _) => AtTools
    case Compacting(_) => Elsewhere
    case Terminal(outcome) => AtEnd(outcome)
  }

  function LineOf(step: Step): Line {
    match step
    case Commit(writes) =>
      Files(Numbered(writes),
            if writes != [] && writes[|writes| - 1].SetPosition? then Some(StandOf(writes[|writes| - 1].position)) else None)
    case Sent(_) => Asks
    case Began(id, input) => Begins(id, input)
    case Emit(events) => Tells(Faces(events))
  }

  function Lines(j: seq<Step>): (r: seq<Line>)
    ensures |r| == |j| && forall i :: 0 <= i < |r| ==> r[i] == LineOf(j[i])
  {
    seq(|j|, i requires 0 <= i < |j| => LineOf(j[i]))
  }

  // --- What a stream announces ---------------------------------------------------------------------

  /** As much of a stream as can be read. */
  function Legibly(events: seq<ProviderEvent>): seq<ProviderEvent>
    decreases |events|
  {
    if !Torn(events) then events else Legibly(events[..|events| - 1])
  }

  /** What an event is told as while it streams. */
  function Streamed(turnId: string, e: ProviderEvent): seq<Face> {
    match e
    case TextDelta(index, text) => [Face(AiTextDelta, Claude, BlockText(BlockKey(turnId, index), text))]
    case ThinkingDelta(index, text) => [Face(AiThinkingDelta, Claude, BlockText(BlockKey(turnId, index), text))]
    case MessageDelta(_, usage) => [Face(ContextUsage, System, Spend(usage))]
    case _ => []
  }

  function LiveLines(turnId: string, events: seq<ProviderEvent>): seq<Line>
    decreases |events|
  {
    if events == [] then []
    else
      var before, now := LiveLines(turnId, events[..|events| - 1]), Streamed(turnId, events[|events| - 1]);
      if now == [] then before else before + [Tells(now)]
  }

  /** Its own text, or if it has none what was streamed of it. */
  function TextOr(text: string, streamed: string): string {
    if text != "" then text else streamed
  }

  /** What a finished block is announced as. */
  function BlockFace(turnId: string, before: seq<ProviderEvent>, index: int, block: Value): Face {
    var kind := if KindOf(before, index).Some? then KindOf(before, index) else KindNamed(block);
    if kind.None? || !Legible(kind.value, block) then Face(AiRaw, System, NoPayload)
    else match kind.value
      case TextKind =>
        Face(AiText, Claude, BlockText(BlockKey(turnId, index), TextOr(ShowField(block, "text").value, DeltaText(before, index))))
      case ThinkingKind =>
        Face(AiThinking, Claude, BlockText(BlockKey(turnId, index), TextOr(ShowField(block, "thinking").value, DeltaText(before, index))))
      case CompactionKind => Face(ContextCompacted, System, NoPayload)
      case ToolUseKind => Face(ToolStarted, Claude, Tool(ShowField(block, "id").value))
  }

  /** What is kept of a stream for when its turn settles: every finished block, and whatever was not understood. */
  function Announcements(turnId: string, events: seq<ProviderEvent>): seq<Face>
    decreases |events|
  {
    if events == [] then []
    else
      var init := events[..|events| - 1];
      match events[|events| - 1]
      case BlockStop(index, block) => Announcements(turnId, init) + [BlockFace(turnId, init, index, block)]
      case Raw => Announcements(turnId, init) + [Face(AiRaw, System, NoPayload)]
      case _ => Announcements(turnId, init)
  }

  // --- A run's lines ---------------------------------------------------------------------------------

  /** Filed together, and then told. */
  function Say(faces: seq<Face>, stands: Option<Stand>): seq<Line> {
    [Files(faces, stands), Tells(faces)]
  }

  function Sum(figures: seq<Usage>): Usage
    decreases |figures|
  {
    if figures == [] then Usage(0, 0, 0, 0)
    else
      var before, last := Sum(figures[..|figures| - 1]), figures[|figures| - 1];
      Usage(before.input + last.input, before.output + last.output,
            before.cacheRead + last.cacheRead, before.cacheCreation + last.cacheCreation)
  }

  function Human(spec: Spec): Actor {
    if spec.requestedBy != "" then User else System
  }

  /** The end: the event says what was spent. */
  function EndLines(spec: Spec, t: Teller, outcome: Ending): seq<Line> {
    match outcome
    case Finished => Say([Face(RunFinished, System, Spend(Sum(t.spent)))], Some(AtEnd(Finished)))
    case Failed => Say([Face(RunFailed, System, Spend(Sum(t.spent)))], Some(AtEnd(Failed)))
    case Interrupted => Say([Face(RunInterrupted, Human(spec), Spend(Sum(t.spent)))], Some(AtEnd(Interrupted)))
  }

  const TROUBLE := Face(ProviderError, System, NoPayload)

  /** The snapshot of the run as this credential has it. */
  function SnapshotWith(spec: Spec, credential: string): Snapshot {
    Snapshot(spec.provider, credential, spec.model, spec.effort, RequestBuilder.Djb2(spec.systemPrompt),
             RequestBuilder.ToolsDigest(spec.codec, spec.tools), spec.plugins)
  }

  /** The intent; the snapshot is restated only if the credential is not the one it was last stated with. */
  function IntentLines(spec: Spec, turn: Turn, t: Teller, last: Option<string>): seq<Line> {
    var stands := Some(AtRequest(turn.turnId, t.attempt));
    if last == Some(turn.credential) then [Files([], stands)]
    else Say([Face(RequestHeader, System, Header(SnapshotWith(spec, turn.credential), None))], stands)
  }

  function CallFaces(spec: Spec, turn: Turn, calls: seq<ToolCall>, at: nat): (r: seq<Face>)
    requires at < |calls|
  {
    var types := Deeds.TypesOf(spec, turn, at, calls[at].name);
    seq(|types|, i requires 0 <= i < |types| =>
      Face(types[i], if types[i] == ToolRefused then System else Claude, Tool(calls[at].id)))
  }

  /** A call: if it is let through it is marked, and run if there is such a tool; then it is answered. */
  function CallLines(spec: Spec, turn: Turn, calls: seq<ToolCall>, at: nat): seq<Line>
    requires at < |calls|
  {
    (if turn.effects(at).gate.Refused? then []
     else [Files([], Some(AtTools))]
          + if spec.knows(calls[at].name) then [Begins(calls[at].id, Deeds.Leaves(turn, at, calls[at].id))] else [])
    + Say(CallFaces(spec, turn, calls, at), Some(AtTools))
  }

  function EachLines(spec: Spec, turn: Turn, calls: seq<ToolCall>, at: nat): seq<Line>
    decreases |calls| - at
  {
    if at >= |calls| then [] else CallLines(spec, turn, calls, at) + EachLines(spec, turn, calls, at + 1)
  }

  function PromptFaces(spec: Spec, messages: seq<string>): (r: seq<Face>)
    ensures |r| == |messages| && forall i :: 0 <= i < |r| ==> r[i] == Face(UserPrompt, Human(spec), NoPayload)
  {
    seq(|messages|, i requires 0 <= i < |messages| => Face(UserPrompt, Human(spec), NoPayload))
  }

  /** What follows a settled turn: its calls, and back to the checkpoint; its follow-ups; its end; or nothing. */
  function AfterLines(spec: Spec, turn: Turn, t: Teller): seq<Line> {
    match LastReason(turn.stream)
    case ToolUse =>
      EachLines(spec, turn, Calls(turn), 0) + [Files([], Some(AtCheckpoint))]
      + if Stubborn(TellEach(spec, turn, Calls(turn), t, 0).tried) then EndLines(spec, t, Failed) else []
    case EndTurn => if t.inbox == [] then EndLines(spec, t, Finished) else Say(PromptFaces(spec, t.inbox), Some(AtCheckpoint))
    case PauseTurn => if t.attempt >= 5 then EndLines(spec, t, Failed) else []
    case ContextWindowExceeded => []
    case _ => EndLines(spec, t, Failed)
  }

  function SettledLines(spec: Spec, turn: Turn, t: Teller): seq<Line> {
    Say(Announcements(turn.turnId, turn.stream), Some(if LastReason(turn.stream).ToolUse? then AtTools else AtCheckpoint))
    + AfterLines(spec, turn, TellBlocks(turn, t))
  }

  function BrokenLines(spec: Spec, turn: Turn, t: Teller): seq<Line> {
    if turn.abortedDuring then EndLines(spec, t, Interrupted) else [Tells([TROUBLE])] + EndLines(spec, t, Failed)
  }

  /** The request, what is told while it streams, and what comes of it. */
  function HeardLines(spec: Spec, turn: Turn, t: Teller): seq<Line> {
    [Asks] + LiveLines(turn.turnId, Legibly(turn.stream))
    + if Breaks(turn) then BrokenLines(spec, turn, t) else SettledLines(spec, turn, t)
  }

  /** One turn, told by one who knows the turns before and which credential was last stated. */
  function TurnLines(spec: Spec, turn: Turn, t: Teller, last: Option<string>): seq<Line> {
    if turn.abortedBefore then EndLines(spec, t, Interrupted)
    else if !Goes(spec, turn) then Say([TROUBLE], None) + EndLines(spec, t, Failed)
    else
      var x := t.(inbox := t.inbox + turn.arrived);
      IntentLines(spec, turn, x, last) + HeardLines(spec, turn, x)
  }

  /** The credential last stated after so many turns. */
  function Stated(spec: Spec, world: nat -> Turn, n: nat): Option<string> {
    if n == 0 then None
    else if Goes(spec, world(n - 1)) then Some(world(n - 1).credential)
    else Stated(spec, world, n - 1)
  }

  /** The first `n` turns of a run, one after the other until one ends it. */
  function TurnsLines(spec: Spec, world: nat -> Turn, inbox: seq<string>, n: nat): seq<Line> {
    if n == 0 then Say([Face(UserPrompt, Human(spec), NoPayload), Face(RunStarted, Human(spec), NoPayload)], Some(AtCheckpoint))
    else
      var before, t := TurnsLines(spec, world, inbox, n - 1), Tale(spec, world, inbox, n - 1);
      if t.over.Some? then before else before + TurnLines(spec, world(n - 1), t, Stated(spec, world, n - 1))
  }

  /** A whole run. */
  function RunLines(spec: Spec, world: nat -> Turn, inbox: seq<string>): seq<Line> {
    var t := Tale(spec, world, inbox, 100);
    TurnsLines(spec, world, inbox, 100) + if t.over.Some? then [] else EndLines(spec, t, Failed)
  }
}
