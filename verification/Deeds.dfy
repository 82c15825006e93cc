/** What every step of a run that reaches past its own record was done for: each request sent, each call planned, each
    effect begun and each answer filed, against what the turn's world says. */
module Deeds {
  import opened Json
  import opened Contract
  import opened Record
  import opened Checkpoint
  import opened Journal
  import opened RunLoop
  import opened World
  import opened Protocol
  import Recovery

  /** What this turn's model asks of a call with this id. */
  function Asks(turn: Turn, id: string): Value {
    OrNull(InputOf(Calls(turn), id))
  }

  /** The call is let through, and there is such a tool: it is to be run. */
  predicate ToRun(spec: Spec, turn: Turn, at: nat, name: string) {
    !turn.effects(at).gate.Refused? && spec.knows(name)
  }

  /** What the gate on the call at this place leaves of its input. */
  function Leaves(turn: Turn, at: nat, id: string): Value {
    match turn.effects(at).gate
    case Continued(input) => OrNull(input)
    case _ => Asks(turn, id)
  }

  // --- What a step may be ----------------------------------------------------------------------

  /** The turn's calls are planned, each under its own id and with the policy its name and input have. */
  ghost predicate PlansAsAsked(spec: Spec, turn: Turn, origin: State, j: seq<Step>, calls: seq<Call>) {
    && PositionOf(Replay(origin, j), spec.runId).Some? && PositionOf(Replay(origin, j), spec.runId).value.RequestPending?
    && LastReason(turn.stream) == ToolUse && |calls| == |Calls(turn)|
    && forall i :: 0 <= i < |calls| ==>
         var c := Calls(turn)[i];
         calls[i] == Call(i, c.id, c.name, ToolKey(c.id), spec.policy(c.name, c.input), Planned)
  }

  /** The call at `at` is marked, let through and known, the record holds for it what the model asked, and it is begun with
      what its gate left. */
  ghost predicate BegunAt(spec: Spec, turn: Turn, origin: State, j: seq<Step>, step: Step, stepId: StepId, calls: seq<Call>, at: nat)
    requires step.Began?
  {
    && PositionOf(Replay(origin, j), spec.runId) == Some(Tools(stepId, calls))
    && at < |calls| && calls[at].toolUseId == step.toolUseId && calls[at].status == EffectPending
    && ToRun(spec, turn, at, calls[at].name)
    && Recovery.ArgsOf(Replay(origin, j), stepId, calls[at]) == Asks(turn, step.toolUseId)
    && step.input == Leaves(turn, at, step.toolUseId)
  }

  /** The answer of a call as a run files it. */
  function AnswerAs(run: string, id: string, o: Outcome): Write {
    PutEntry(Entry(run, None, Some(ToolKey(id)), AiRaw, User, NoPayload, Some([ToolResultBlock(id, o.text, !o.ok)]), true, false))
  }

  /** What is told with an outcome: of a refusal that it was one; of a call what it wrote and changed, in order, and then that
      it finished or failed. */
  function TypesOf(spec: Spec, turn: Turn, at: nat, name: string): seq<EventType> {
    var effect := turn.effects(at);
    if effect.gate.Refused? then [ToolRefused]
    else (if spec.knows(name) then seq(|effect.noise|, i requires 0 <= i < |effect.noise| =>
            if effect.noise[i].Output? then TerminalOutput else FileChanged) else [])
         + [if Outcomes(spec, turn, at, name).ok then ToolFinished else ToolFailed]
  }

  /** Durable events of these types about this call, off the surface, and nothing else. */
  ghost predicate Reports(writes: seq<Write>, run: string, id: string, types: seq<EventType>) {
    |writes| == |types| && forall i :: 0 <= i < |writes| ==>
      && writes[i].PutEntry? && writes[i].entry.runId == run && writes[i].entry.etype == types[i]
      && writes[i].entry.payload == Tool(id) && writes[i].entry.blocks == None && !writes[i].entry.onSurface
      && writes[i].entry.seqNo.Some? && writes[i].entry.key == None
  }

  ghost predicate ReadyAt(spec: Spec, turn: Turn, origin: State, j: seq<Step>, call: Call, at: nat) {
    if spec.knows(call.name)
    then j != [] && j[|j| - 1] == Began(call.toolUseId, Leaves(turn, at, call.toolUseId))
    else JustCleared(spec.runId, origin, j, at)
  }

  /** The call at `at` may be answered: straight from the plan if it was refused; and otherwise once it was marked, and begun
      if there is such a tool, in the step before. */
  ghost predicate Due(spec: Spec, turn: Turn, origin: State, j: seq<Step>, stepId: StepId, calls: seq<Call>, at: nat) {
    && PositionOf(Replay(origin, j), spec.runId) == Some(Tools(stepId, calls)) && at < |calls|
    && if turn.effects(at).gate.Refused? then calls[at].status == Planned
       else calls[at].status == EffectPending && ReadyAt(spec, turn, origin, j, calls[at], at)
  }

  /** These writes answer the call at `at` with what came of it, tell it as it came, and move the call on. */
  ghost predicate AnswersWith(spec: Spec, turn: Turn, writes: seq<Write>, stepId: StepId, calls: seq<Call>, at: nat)
    requires at < |calls|
  {
    var call, n := calls[at], |writes|;
    && n >= 2
    && writes[n - 1] == SetPosition(spec.runId, Tools(stepId, calls[at := call.(status := Completed)]))
    && writes[n - 2] == AnswerAs(spec.runId, call.toolUseId, Outcomes(spec, turn, at, call.name))
    && Reports(writes[..n - 2], spec.runId, call.toolUseId, TypesOf(spec, turn, at, call.name))
  }

  ghost predicate AnsweredAt(spec: Spec, turn: Turn, origin: State, j: seq<Step>, step: Step, stepId: StepId, calls: seq<Call>, at: nat)
    requires step.Commit?
  {
    Due(spec, turn, origin, j, stepId, calls, at) && AnswersWith(spec, turn, step.writes, stepId, calls, at)
  }

  ghost predicate BegunIn(spec: Spec, turn: Turn, origin: State, j: seq<Step>, step: Step) {
    step.Began? && exists stepId, calls, at: nat :: BegunAt(spec, turn, origin, j, step, stepId, calls, at)
  }

  ghost predicate AnsweredIn(spec: Spec, turn: Turn, origin: State, j: seq<Step>, step: Step) {
    step.Commit? && exists stepId, calls, at: nat :: AnsweredAt(spec, turn, origin, j, step, stepId, calls, at)
  }

  /** The calls a transaction leaves planned. */
  function PlannedBy(step: Step): Option<seq<Call>> {
    if step.Commit? && step.writes != [] && step.writes[|step.writes| - 1].SetPosition?
    then
      match step.writes[|step.writes| - 1].position
      case Tools(_, calls) => if AllIn(calls, Planned) then Some(calls) else None
      case _ => None
    else None
  }

  /** The transaction files something under a key. */
  predicate FilesKeyed(step: Step) {
    step.Commit? && exists w :: w in step.writes && w.PutEntry? && w.entry.key.Some?
  }

  ghost predicate PlannedIn(spec: Spec, turn: Turn, origin: State, j: seq<Step>, step: Step) {
    PlannedBy(step).Some? && !FilesKeyed(step) && PlansAsAsked(spec, turn, origin, j, PlannedBy(step).value)
  }

  /** A step that plans, sends, begins and answers nothing. */
  predicate Light(step: Step) {
    !step.Began? && !step.Sent? && !FilesKeyed(step) && PlannedBy(step).None?
  }
}
