/** The agent loop. Everything a provider, a tool, a handler or a participant decides during one turn
    is a `Turn`; given those, what the loop does is a function, and the class below does it step by step. */
module RunLoop {
  import opened Json
  import opened Contract
  import opened Record
  import opened Checkpoint
  import opened Journal
  import opened Normalize
  import opened StopReasons
  import Surface
  import RequestBuilder

  const MAX_TURNS := 100
  const MAX_REPEATED_TOOL_FAILURES := 3

  // --- What the loop is given -------------------------------------------------------------

  datatype Spec = Spec(
    runId: string,
    prompt: string,
    requestedBy: string,
    provider: string,
    model: string,
    systemPrompt: string,
    surfaceFrom: nat,
    effort: Option<string>,
    plugins: seq<string>,
    caps: Capabilities,
    tools: seq<ToolSchema>,
    policy: (string, Option<Value>) -> ReplayPolicy,
    knows: string -> bool,
    codec: Codec)

  function UserActor(spec: Spec): Actor {
    if spec.requestedBy != "" then User else System
  }

  /** `tool:before`. Only a refusal or a continuation is read; a replacement is not. */
  datatype Gate = Ungated | Continued(input: Option<Value>) | Replaced | Refused(reason: string)

  datatype Noise = Output | Changed

  datatype Effect = Effect(gate: Gate, noise: seq<Noise>, raw: Outcome, after: Option<Outcome>)

  datatype Turn = Turn(
    abortedBefore: bool,
    turnId: string,
    refused: bool,
    credential: string,
    stream: seq<ProviderEvent>,
    broke: bool,
    fault: string,
    abortedDuring: bool,
    arrived: seq<string>,
    effects: nat -> Effect)

  // --- What it keeps ------------------------------------------------------------------------

  datatype Repeat = Repeat(key: string, name: string, error: string, count: nat)

  /** A call that was allowed, by what identifies a repetition of it, and whether it worked. */
  datatype Tried = Tried(key: string, ok: bool)

  datatype Ended = Ended(outcome: Ending, stopReason: Option<string>, turns: nat)

  datatype Loop = Loop(
    rec: State,
    journal: seq<Step>,
    norm: Norm,
    inbox: seq<string>,
    lastSnapshot: Option<Snapshot>,
    repeated: Option<Repeat>,
    turns: nat,
    attempt: nat,
    usage: Usage,
    tried: seq<Tried>,
    ended: Option<Ended>)

  // --- Transactions ---------------------------------------------------------------------------

  datatype Args = Args(stepId: StepId, index: nat, value: Value)

  /** One transaction of a run, in the order its writes are listed. */
  datatype Tx = Tx(
    entries: seq<Entry>,
    usage: Option<UsageRow>,
    args: Option<Args>,
    meta: Option<bool>,
    result: Option<RunResult>,
    position: Option<Position>)

  function Filing(entries: seq<Entry>): Tx {
    Tx(entries, None, None, None, None, None)
  }

  function Puts(entries: seq<Entry>): (r: seq<Write>)
    ensures |r| == |entries| && forall i :: 0 <= i < |r| ==> r[i] == PutEntry(entries[i])
  {
    seq(|entries|, i requires 0 <= i < |entries| => PutEntry(entries[i]))
  }

  function Ledgers(tx: Tx): seq<Write> {
    (if tx.usage.Some? then [PutUsage(tx.usage.value)] else [])
    + (if tx.args.Some? then [SetToolArgs(tx.args.value.stepId, tx.args.value.index, tx.args.value.value)] else [])
  }

  function Registers(run: string, tx: Tx): seq<Write> {
    (if tx.meta.Some? then [if tx.meta.value then SetMeta(run) else DelMeta(run)] else [])
    + ((if tx.result.Some? then [SetResult(run, tx.result.value)] else [])
       + (if tx.position.Some? then [SetPosition(run, tx.position.value)] else []))
  }

  function Writes(run: string, tx: Tx): seq<Write> {
    Puts(tx.entries) + (Ledgers(tx) + Registers(run, tx))
  }

  /** An announced event's entry; it is on the surface when it carries blocks. */
  function EntryFor(run: string, e: Envelope, blocks: Option<seq<Value>>): Entry {
    Entry(run, e.seqNo, None, e.etype, e.actor, e.payload, blocks, blocks.Some?, true)
  }

  function Plain(run: string, events: seq<Envelope>): (r: seq<Entry>)
    ensures |r| == |events| && forall i :: 0 <= i < |r| ==> r[i] == EntryFor(run, events[i], None)
  {
    seq(|events|, i requires 0 <= i < |events| => EntryFor(run, events[i], None))
  }

  function FirstOf(events: seq<Envelope>, claude: bool): (r: Option<nat>)
    ensures r.Some? ==> r.value < |events| && Fits(events[r.value], claude)
    ensures r.Some? ==> forall i :: 0 <= i < r.value ==> !Fits(events[i], claude)
    ensures r.None? ==> forall i :: 0 <= i < |events| ==> !Fits(events[i], claude)
  {
    if events == [] then None
    else if Fits(events[0], claude) then Some(0)
    else
      var rest := FirstOf(events[1..], claude);
      if rest.Some? then Some(rest.value + 1) else None
  }

  predicate Fits(e: Envelope, claude: bool) {
    if claude then e.actor == Claude else e.etype == ContextCompacted
  }

  /** The one event whose entry carries a turn's blocks. */
  function Carrier(events: seq<Envelope>): (r: Option<nat>)
    ensures r.Some? ==> r.value < |events|
  {
    var claude := FirstOf(events, true);
    if claude.Some? then claude else FirstOf(events, false)
  }

  function Carried(run: string, events: seq<Envelope>, blocks: seq<Value>): (r: seq<Entry>)
    ensures |r| == |events|
    ensures forall i :: 0 <= i < |r| ==>
      r[i] == EntryFor(run, events[i], if Carrier(events) == Some(i) then Some(blocks) else None)
  {
    seq(|events|, i requires 0 <= i < |events| =>
      EntryFor(run, events[i], if Carrier(events) == Some(i) then Some(blocks) else None))
  }

  /** A call's answer: one surface entry, unnumbered, filed under the call's own key. */
  function AnswerEntry(run: string, call: Call, text: string, isError: bool): Entry {
    Entry(run, None, Some(call.key), AiRaw, User, NoPayload,
          Some([ToolResultBlock(call.toolUseId, text, isError)]), true, false)
  }

  // --- Doing -------------------------------------------------------------------------------------

  function Do(l: Loop, step: Step): Loop {
    l.(rec := After(l.rec, step), journal := l.journal + [step])
  }

  function File(spec: Spec, l: Loop, tx: Tx): Loop {
    Do(l, Step.Commit(Writes(spec.runId, tx)))
  }

  function Tell(l: Loop, events: seq<Envelope>): Loop {
    Do(l, Emit(events))
  }

  // --- Opening and ending ---------------------------------------------------------------------

  function Idle(rec: State, inbox: seq<string>): Loop {
    Loop(rec, [], Norm(0, "turn", map[]), inbox, None, None, 0, 0, ZERO_USAGE, [], None)
  }

  function Opening(spec: Spec, l: Loop): Loop {
    var n0 := Norm(HighestSeq(l.rec.entries, spec.runId), "turn", map[]);
    var (n1, prompt) := Mint(n0, UserPrompt, UserActor(spec), NoPayload);
    var (n2, started) := Mint(n1, RunStarted, UserActor(spec), NoPayload);
    var tx := Filing([EntryFor(spec.runId, prompt, Some([TextBlock(spec.prompt)])),
                      EntryFor(spec.runId, started, None)])
              .(meta := Some(true), position := Some(Record.Checkpoint));
    Tell(File(spec, l.(norm := n2, turns := 0, attempt := 0, usage := ZERO_USAGE, ended := None), tx), [prompt, started])
  }

  /** The event, the result and the terminal position land together. */
  function End(spec: Spec, l: Loop, etype: EventType, actor: Actor, outcome: Ending, reason: Option<string>, turns: nat): Loop {
    var (n, e) := Mint(l.norm, etype, actor, Spend(l.usage));
    var tx := Filing([EntryFor(spec.runId, e, None)])
              .(meta := Some(false), result := Some(RunResult(outcome, false, reason)), position := Some(Terminal(outcome)));
    Tell(File(spec, l.(norm := n), tx), [e]).(ended := Some(Ended(outcome, reason, turns)))
  }

  function Finish(spec: Spec, l: Loop, reason: StopReason): Loop {
    End(spec, l, RunFinished, System, Finished, Some(ReasonName(reason)), l.turns)
  }

  function Fail(spec: Spec, l: Loop, reason: string): Loop {
    End(spec, l, RunFailed, System, Failed, Some(reason), 0)
  }

  function Interrupt(spec: Spec, l: Loop): Loop {
    End(spec, l, RunInterrupted, UserActor(spec), Interrupted, None, 0)
  }

  /** The reason is recorded, off the surface, before the run fails. */
  function Refuse(spec: Spec, l: Loop): Loop {
    var (n, e) := Mint(l.norm, ProviderError, System, NoPayload);
    Fail(spec, Tell(File(spec, l.(norm := n), Filing([EntryFor(spec.runId, e, None)])), [e]), "refused")
  }

  // --- Asking ------------------------------------------------------------------------------------

  function RequestFor(spec: Spec, rec: State): Request {
    RequestBuilder.Build(spec.model, spec.caps, spec.systemPrompt, spec.tools,
                         SurfaceFrom(rec, spec.surfaceFrom), spec.effort, None)
  }

  function SnapshotOf(spec: Spec, turn: Turn, request: Request): Snapshot {
    Snapshot(spec.provider, turn.credential, spec.model, spec.effort,
             RequestBuilder.Djb2(spec.systemPrompt), RequestBuilder.ToolsDigest(spec.codec, request.tools), spec.plugins)
  }

  /** The intent: the request's identity is on the record before the request is sent. The snapshot
      is restated only when it changed. */
  function Intend(spec: Spec, turn: Turn, l: Loop, request: Request): Loop {
    var snapshot := SnapshotOf(spec, turn, request);
    var position := RequestPending(RequestKey(spec.runId, turn.turnId, l.attempt),
                                   NextUsageId(l.rec.usage), turn.turnId, l.attempt);
    if l.lastSnapshot == Some(snapshot) then
      File(spec, l, Filing([]).(position := Some(position)))
    else
      var (n, header) := Mint(l.norm, RequestHeader, System,
                              Header(snapshot, Some(RequestBuilder.MessagesDigest(spec.codec, request.messages))));
      Tell(File(spec, l.(norm := n, lastSnapshot := Some(snapshot)),
                Filing([EntryFor(spec.runId, header, None)]).(position := Some(position))), [header])
  }

  // --- Listening ----------------------------------------------------------------------------------

  datatype ToolCall = ToolCall(id: string, name: string, input: Option<Value>)

  datatype Heard = Heard(
    norm: Norm,
    durable: seq<Envelope>,
    blocks: seq<Value>,
    calls: seq<ToolCall>,
    usage: Usage,
    reported: bool,
    stopReason: Option<StopReason>,
    live: seq<Step>,
    broke: bool)

  function Silence(n: Norm): Heard {
    Heard(n, [], [], [], ZERO_USAGE, false, None, [], false)
  }

  /** Reading the id or the name of a tool block throws. */
  predicate Unreadable(block: Value) {
    && HasType(Shape(block), "tool_use")
    && (ShowField(Shape(block), "id").None? || ShowField(Shape(block), "name").None?)
  }

  /** The calls a block makes: one, or none. */
  function CallsOf(block: Value): seq<ToolCall>
    requires !Unreadable(block)
  {
    var shape := Shape(block);
    if HasType(shape, "tool_use")
    then [ToolCall(ShowField(shape, "id").value, ShowField(shape, "name").value, Field(shape, "input"))]
    else []
  }

  /** What the loop itself takes from an event: the block, the call it makes, the figures. */
  function Notice(h: Heard, e: ProviderEvent): Heard
    requires e.BlockStop? ==> !Unreadable(e.block)
  {
    if e.BlockStop? then h.(blocks := h.blocks + [e.block], calls := h.calls + CallsOf(e.block))
    else if e.MessageDelta? then
      h.(usage := e.usage, reported := true, stopReason := Some(e.stopReason),
         live := h.live + [Emit([Mint(h.norm, ContextUsage, System, Spend(e.usage)).1])])
    else h
  }

  /** What is live goes out now; what is durable waits for the turn to settle. */
  function Absorb(h: Heard, n: Norm, out: seq<Envelope>): Heard {
    h.(norm := n, durable := h.durable + Durable(out), live := h.live + Live(out))
  }

  function HearOne(h: Heard, e: ProviderEvent): Heard {
    if h.broke then h
    else if e.BlockStop? && Unreadable(e.block) then h.(broke := true, blocks := h.blocks + [e.block])
    else Absorb(Notice(h, e), MapEvent(h.norm, e).0, MapEvent(h.norm, e).1)
  }

  function Durable(out: seq<Envelope>): seq<Envelope>
  {
    if out == [] then []
    else if Ephemeral(out[0].etype) then Durable(out[1..]) else [out[0]] + Durable(out[1..])
  }

  function Live(out: seq<Envelope>): seq<Step>
  {
    if out == [] then []
    else if Ephemeral(out[0].etype) then [Emit([out[0]])] + Live(out[1..]) else Live(out[1..])
  }

  /** One turn's stream, to its end or to where it breaks. */
  function Hear(n: Norm, events: seq<ProviderEvent>): Heard {
    HearAll(n, events)
  }

  /** `Hear`, by recursion: one name for the fold and one for its unfolding, here and below. */
  function HearAll(n: Norm, events: seq<ProviderEvent>): Heard
    decreases |events|
  {
    if events == [] then Silence(n) else HearOne(HearAll(n, events[..|events| - 1]), events[|events| - 1])
  }

  // --- Dispatching -----------------------------------------------------------------------------------

  function InputOf(calls: seq<ToolCall>, id: string): Option<Value> {
    if calls == [] then None else if calls[0].id == id then calls[0].input else InputOf(calls[1..], id)
  }

  function OrNull(v: Option<Value>): Value {
    if v.Some? then v.value else Null
  }

  function FailureKey(codec: Codec, name: string, input: Option<Value>): string {
    name + ":" + codec.stringify(OrNull(input))
  }

  /** Consecutive identical failures; a success or a different call clears the streak. */
  function Note(repeated: Option<Repeat>, key: string, name: string, o: Outcome): Option<Repeat> {
    if o.ok then None
    else if repeated.Some? && repeated.value.key == key
    then Some(repeated.value.(count := repeated.value.count + 1, error := o.text))
    else Some(Repeat(key, name, o.text, 1))
  }

  function NoiseType(x: Noise): EventType {
    match x case Output => TerminalOutput case Changed => FileChanged
  }

  function MintNoise(n: Norm, id: string, noise: seq<Noise>): (Norm, seq<Envelope>) {
    MintEachNoise(n, id, noise)
  }

  function MintEachNoise(n: Norm, id: string, noise: seq<Noise>): (Norm, seq<Envelope>)
    decreases |noise|
  {
    if noise == [] then (n, [])
    else
      var (n1, out) := MintEachNoise(n, id, noise[..|noise| - 1]);
      var (n2, e) := Mint(n1, NoiseType(noise[|noise| - 1]), Claude, Tool(id));
      (n2, out + [e])
  }

  /** What the model is told of a call that was allowed. */
  function Told(spec: Spec, name: string, effect: Effect): Outcome {
    if effect.after.Some? then effect.after.value
    else if spec.knows(name) then effect.raw
    else Outcome(false, "unknown tool: " + name)
  }

  /** A call's outcome: its events, its answer, and the marker that it is done, together. */
  function AnswerTx(spec: Spec, stepId: StepId, position: seq<Call>, call: Call, events: seq<Envelope>, o: Outcome): Tx {
    Filing(Plain(spec.runId, events) + [AnswerEntry(spec.runId, call, o.text, !o.ok)])
    .(position := Some(Tools(stepId, WithCallStatus(position, call.index, Completed))))
  }

  function RefuseCall(spec: Spec, l: Loop, stepId: StepId, position: seq<Call>, call: Call, reason: string): Loop {
    var (n, e) := Mint(l.norm, ToolRefused, System, Tool(call.toolUseId));
    Tell(File(spec, l.(norm := n), AnswerTx(spec, stepId, position, call, [e], Outcome(false, reason))), [e])
  }

  function EffectiveInput(gate: Gate, input: Option<Value>): Option<Value> {
    if gate.Continued? then gate.input else input
  }

  /** Cleared and marked pending; then, if there is such a tool, begun. */
  function StartCall(spec: Spec, l: Loop, stepId: StepId, position: seq<Call>, call: Call, input: Option<Value>, gate: Gate): Loop {
    var pending := WithCallStatus(position, call.index, EffectPending);
    var l1 := File(spec, l, Filing([]).(args := Some(Args(stepId, call.index, OrNull(input))),
                                        position := Some(Tools(stepId, pending))));
    if spec.knows(call.name) then Do(l1, Began(call.toolUseId, OrNull(EffectiveInput(gate, input)))) else l1
  }

  function CallEvents(spec: Spec, n: Norm, call: Call, effect: Effect): (Norm, seq<Envelope>) {
    var (n1, noise) := MintNoise(n, call.toolUseId, if spec.knows(call.name) then effect.noise else []);
    var (n2, e) := Mint(n1, if Told(spec, call.name, effect).ok then ToolFinished else ToolFailed, Claude, Tool(call.toolUseId));
    (n2, noise + [e])
  }

  function Noted(l: Loop, key: string, name: string, o: Outcome): Loop {
    l.(repeated := Note(l.repeated, key, name, o), tried := l.tried + [Tried(key, o.ok)])
  }

  function AnswerCall(spec: Spec, l: Loop, stepId: StepId, position: seq<Call>, call: Call, input: Option<Value>, effect: Effect): Loop {
    var told := Told(spec, call.name, effect);
    var (n, events) := CallEvents(spec, l.norm, call, effect);
    var l1 := Noted(l, FailureKey(spec.codec, call.name, input), call.name, told).(norm := n);
    Tell(File(spec, l1, AnswerTx(spec, stepId, position, call, events, told)), events)
  }

  function DispatchOne(spec: Spec, turn: Turn, l: Loop, stepId: StepId, position: seq<Call>, call: Call, calls: seq<ToolCall>): Loop {
    var effect := turn.effects(call.index);
    var input := InputOf(calls, call.toolUseId);
    if effect.gate.Refused? then RefuseCall(spec, l, stepId, position, call, effect.gate.reason)
    else
      var l1 := StartCall(spec, l, stepId, position, call, input, effect.gate);
      AnswerCall(spec, l1, stepId, WithCallStatus(position, call.index, EffectPending), call, input, effect)
  }

  /** The calls from `at` on, each answered before the next is looked at. */
  function Dispatch(spec: Spec, turn: Turn, l: Loop, stepId: StepId, position: seq<Call>, calls: seq<ToolCall>, at: nat): Loop
    decreases |position| - at
  {
    if at >= |position| then l
    else
      Dispatch(spec, turn, DispatchOne(spec, turn, l, stepId, position, position[at], calls), stepId,
               WithCallStatus(position, position[at].index, Completed), calls, at + 1)
  }

  function DispatchAll(spec: Spec, turn: Turn, l: Loop, stepId: StepId, planned: seq<Call>, calls: seq<ToolCall>): Loop {
    Dispatch(spec, turn, l, stepId, planned, calls, 0)
  }

  // --- One turn ------------------------------------------------------------------------------------------

  function Proposed(spec: Spec, calls: seq<ToolCall>): (r: seq<Proposal>)
    ensures |r| == |calls|
    ensures forall i :: 0 <= i < |r| ==>
      r[i] == Proposal(calls[i].id, calls[i].name, spec.policy(calls[i].name, calls[i].input))
  {
    seq(|calls|, i requires 0 <= i < |calls| =>
      Proposal(calls[i].id, calls[i].name, spec.policy(calls[i].name, calls[i].input)))
  }

  /** The stream broke: what it said is dropped, and its numbers with it. */
  function Broken(spec: Spec, turn: Turn, l: Loop): Loop {
    var (n, e) := Mint(l.norm, ProviderError, System, NoPayload);
    if turn.abortedDuring then Interrupt(spec, l.(norm := n))
    else Fail(spec, Tell(l.(norm := n), [e]), turn.fault)
  }

  function SettleTx(spec: Spec, h: Heard, usageId: nat, boundary: nat, next: Position): Tx {
    Filing(Carried(spec.runId, h.durable, h.blocks))
    .(usage := if h.reported then Some(UsageRow(usageId, spec.runId, boundary, h.usage)) else None,
      position := Some(next))
  }

  /** The turn and what comes next land together; only then are its events told. */
  function PutDown(spec: Spec, l: Loop, h: Heard, usageId: nat, boundary: nat, next: Position): Loop {
    Tell(File(spec, l, SettleTx(spec, h, usageId, boundary, next)), h.durable)
  }

  function PlanCallsFor(spec: Spec, l: Loop, h: Heard, usageId: nat, boundary: nat): Loop {
    PutDown(spec, l, h, usageId, boundary, Tools(StepId(spec.runId, l.norm.seqNo), PlanCalls(Proposed(spec, h.calls))))
  }

  predicate Stuck(repeated: Option<Repeat>) {
    repeated.Some? && repeated.value.count >= MAX_REPEATED_TOOL_FAILURES
  }

  /** Every call is answered: back to the checkpoint, unless the model is repeating one failing call. */
  function Close(spec: Spec, l: Loop): Loop {
    var l1 := File(spec, l, Filing([]).(position := Some(Record.Checkpoint)));
    if Stuck(l1.repeated) then Fail(spec, l1, "api_error") else l1.(attempt := 0)
  }

  function UseTools(spec: Spec, turn: Turn, l: Loop, h: Heard, usageId: nat, boundary: nat): Loop {
    var stepId := StepId(spec.runId, l.norm.seqNo);
    var planned := PlanCalls(Proposed(spec, h.calls));
    Close(spec, DispatchAll(spec, turn, PlanCallsFor(spec, l, h, usageId, boundary), stepId, planned, h.calls))
  }

  function MintPrompts(spec: Spec, n: Norm, messages: seq<string>): (Norm, seq<Envelope>) {
    MintEachPrompt(spec, n, messages)
  }

  function MintEachPrompt(spec: Spec, n: Norm, messages: seq<string>): (Norm, seq<Envelope>)
    decreases |messages|
  {
    if messages == [] then (n, [])
    else
      var (n1, out) := MintEachPrompt(spec, n, messages[..|messages| - 1]);
      var (n2, e) := Mint(n1, UserPrompt, UserActor(spec), NoPayload);
      (n2, out + [e])
  }

  function Prompts(run: string, events: seq<Envelope>, messages: seq<string>): (r: seq<Entry>)
    requires |events| == |messages|
    ensures |r| == |events|
    ensures forall i :: 0 <= i < |r| ==> r[i] == EntryFor(run, events[i], Some([TextBlock(messages[i])]))
  {
    seq(|events|, i requires 0 <= i < |events| => EntryFor(run, events[i], Some([TextBlock(messages[i])])))
  }

  lemma {:induction false} OnePromptEach(spec: Spec, n: Norm, messages: seq<string>)
    ensures |MintPrompts(spec, n, messages).1| == |messages|
    decreases |messages|
  {
    if messages != [] {
      OnePromptEach(spec, n, messages[..|messages| - 1]);
    }
  }

  /** The whole inbox goes into the record in one transaction. */
  function FollowUp(spec: Spec, l: Loop): Loop {
    var (n, events) := MintPrompts(spec, l.norm, l.inbox);
    OnePromptEach(spec, l.norm, l.inbox);
    Tell(File(spec, l.(norm := n, inbox := []),
              Filing(Prompts(spec.runId, events, l.inbox)).(position := Some(Record.Checkpoint))), events)
    .(attempt := 0)
  }

  /** A settled turn without tools: go on, give up, take the follow-ups, or finish. */
  function Conclude(spec: Spec, l: Loop, action: Action, reason: StopReason): Loop {
    match action
    case Resume(attempt) => l.(attempt := attempt)
    case Compact => l.(attempt := 0)
    case SettleFailed => Fail(spec, l, ReasonName(reason))
    case _ => if |l.inbox| > 0 then FollowUp(spec, l) else Finish(spec, l, reason)
  }

  function ReasonOf(h: Heard): StopReason {
    if h.stopReason.Some? then h.stopReason.value else EndTurn
  }

  function Settle(spec: Spec, turn: Turn, l: Loop, h: Heard, usageId: nat, boundary: nat): Loop {
    var l0 := l.(usage := AddUsage(l.usage, h.usage));
    var action := Decide(ReasonOf(h), l.attempt);
    if action.DispatchTools? then UseTools(spec, turn, l0, h, usageId, boundary)
    else
      Conclude(spec, PutDown(spec, l0, h, usageId, boundary, Record.Checkpoint), action, ReasonOf(h))
  }

  /** Send the request, and listen. */
  function Listen(l: Loop, request: Request, h: Heard): Loop
  {
    var l1 := Do(l, Sent(request));
    l1.(norm := h.norm, journal := l1.journal + h.live)
  }

  predicate Refuses(spec: Spec, turn: Turn) {
    (!spec.caps.toolUse && |spec.tools| > 0) || turn.refused
  }

  function Await(spec: Spec, turn: Turn, l: Loop, request: Request, usageId: nat): Loop {
    var h := Hear(l.norm, turn.stream);
    var l1 := Listen(l, request, h);
    if h.broke || turn.broke then Broken(spec, turn, l1)
    else Settle(spec, turn, l1, h, usageId, |l.rec.entries|)
  }

  function SendOne(spec: Spec, turn: Turn, l: Loop, request: Request): Loop {
    Await(spec, turn, Intend(spec, turn, l, request), request, NextUsageId(l.rec.usage))
  }

  function Ask(spec: Spec, turn: Turn, l: Loop): Loop {
    if Refuses(spec, turn) then Refuse(spec, l) else SendOne(spec, turn, l, RequestFor(spec, l.rec))
  }

  function BeginsTurn(turn: Turn, l: Loop): Loop {
    l.(turns := l.turns + 1, norm := BeginTurn(l.norm, turn.turnId), inbox := l.inbox + turn.arrived)
  }

  function Take(spec: Spec, turn: Turn, l: Loop): Loop {
    if turn.abortedBefore then Interrupt(spec, l)
    else Ask(spec, turn, BeginsTurn(turn, l))
  }

  /** Turns are taken until one ends the run. */
  function Iterate(take: (nat, Loop) -> Loop, l: Loop, n: nat): Loop {
    if n == 0 then l
    else
      var before := Iterate(take, l, n - 1);
      if before.ended.Some? then before else take(n - 1, before)
  }

  function Taking(spec: Spec, world: nat -> Turn): (nat, Loop) -> Loop {
    (i: nat, l: Loop) => Take(spec, world(i), l)
  }

  /** The first `n` turns. */
  function Turns(spec: Spec, world: nat -> Turn, l: Loop, n: nat): Loop {
    Iterate(Taking(spec, world), Opening(spec, l), n)
  }

  function Exhaust(spec: Spec, l: Loop): Loop {
    if l.ended.Some? then l else Fail(spec, l, "max_tokens")
  }

  /** A whole run, from an idle loop. */
  function Run(spec: Spec, world: nat -> Turn, l: Loop): Loop {
    Exhaust(spec, Turns(spec, world, l, MAX_TURNS))
  }
}
