/** The loop as it runs: an object over one process and its normalizer, doing step by step what
    `RunLoop.Run` says of a world. */
module AgentLoop {
  import opened Json
  import opened Contract
  import opened Record
  import opened Checkpoint
  import opened Journal
  import opened Normalize
  import opened StopReasons
  import opened RunLoop
  import RunLaws
  import RequestBuilder

  lemma {:induction false} TxAcceptable(run: string, tx: Tx)
    requires forall i :: 0 <= i < |tx.entries| ==> WellFormed(tx.entries[i])
    ensures Acceptable(Writes(run, tx))
  {
  }

  class Agent {
    const process: Process
    var repeatedFailure: Option<Repeat>
    var lastSnapshot: Option<Snapshot>
    var inbox: seq<string>
    ghost var tried: seq<Tried>

    ghost predicate Valid()
      reads this, process, process.store
    {
      process.Valid()
    }

    /** The loop this object and the locals of one run stand for. */
    ghost function Now(n: LoopNormalizer, turns: nat, attempt: nat, usage: Usage, ended: Option<Ended>): Loop
      reads this, process, process.store, n
    {
      Loop(process.store.Now(), process.journal, n.Now(), inbox, lastSnapshot, repeatedFailure, turns, attempt, usage, tried, ended)
    }

    constructor (process: Process)
      requires process.Valid()
      ensures Valid() && this.process == process && inbox == [] && lastSnapshot == None && repeatedFailure == None && tried == []
    {
      this.process := process;
      repeatedFailure, lastSnapshot, inbox, tried := None, None, [], [];
    }

    method PushMessage(text: string)
      modifies this
      ensures inbox == old(inbox) + [text]
      ensures repeatedFailure == old(repeatedFailure) && lastSnapshot == old(lastSnapshot) && tried == old(tried)
    {
      inbox := inbox + [text];
    }

    // --- Small steps ---------------------------------------------------------------------

    method Commit(spec: Spec, tx: Tx)
      requires Valid() && forall i :: 0 <= i < |tx.entries| ==> WellFormed(tx.entries[i])
      modifies process, process.store
      ensures Valid()
      ensures process.journal == old(process.journal) + [Step.Commit(Writes(spec.runId, tx))]
      ensures process.store.Now() == Apply(old(process.store.Now()), Writes(spec.runId, tx))
    {
      TxAcceptable(spec.runId, tx);
      process.Commit(Writes(spec.runId, tx));
    }

    ghost method Announce(events: seq<Envelope>)
      requires Valid()
      modifies process
      ensures Valid() && process.journal == old(process.journal) + [Emit(events)]
    {
      process.Note(Emit(events));
    }

    /** Record, and only then tell. */
    method CommitAndTell(spec: Spec, tx: Tx, events: seq<Envelope>)
      requires Valid() && forall i :: 0 <= i < |tx.entries| ==> WellFormed(tx.entries[i])
      modifies process, process.store
      ensures Valid()
      ensures process.journal == old(process.journal) + [Step.Commit(Writes(spec.runId, tx))] + [Emit(events)]
      ensures process.store.Now() == Apply(old(process.store.Now()), Writes(spec.runId, tx))
    {
      Commit(spec, tx);
      Announce(events);
    }

    method Terminate(spec: Spec, n: LoopNormalizer, turns: nat, ghost attempt: nat, usage: Usage,
                     etype: EventType, actor: Actor, outcome: Ending, reason: Option<string>, ranTurns: nat) returns (ended: Option<Ended>)
      requires Valid() && !Ephemeral(etype)
      modifies n, process, process.store
      ensures Valid()
      ensures Now(n, turns, attempt, usage, ended)
        == End(spec, old(Now(n, turns, attempt, usage, None)), etype, actor, outcome, reason, ranTurns)
      ensures ended.Some?
    {
      var e := n.Make(etype, actor, Spend(usage));
      var tx := Filing([EntryFor(spec.runId, e, None)])
                .(meta := Some(false), result := Some(RunResult(outcome, false, reason)), position := Some(Terminal(outcome)));
      CommitAndTell(spec, tx, [e]);
      ended := Some(Ended(outcome, reason, ranTurns));
    }

    method RefuseTurn(spec: Spec, n: LoopNormalizer, turns: nat, ghost attempt: nat, usage: Usage) returns (ended: Option<Ended>)
      requires Valid()
      modifies n, process, process.store
      ensures Valid() && ended.Some?
      ensures Now(n, turns, attempt, usage, ended) == Refuse(spec, old(Now(n, turns, attempt, usage, None)))
    {
      var e := n.Make(ProviderError, System, NoPayload);
      CommitAndTell(spec, Filing([EntryFor(spec.runId, e, None)]), [e]);
      ended := Terminate(spec, n, turns, attempt, usage, RunFailed, System, Failed, Some("refused"), 0);
    }

    // --- Asking ------------------------------------------------------------------------------

    method CommitIntent(spec: Spec, turn: Turn, n: LoopNormalizer, ghost turns: nat, attempt: nat, ghost usage: Usage, request: Request)
      requires Valid()
      modifies this, n, process, process.store
      ensures Valid()
      ensures Now(n, turns, attempt, usage, None) == Intend(spec, turn, old(Now(n, turns, attempt, usage, None)), request)
    {
      var snapshot := SnapshotOf(spec, turn, request);
      var position := RequestPending(RequestKey(spec.runId, turn.turnId, attempt),
                                     NextUsageId(process.store.usage), turn.turnId, attempt);
      if lastSnapshot == Some(snapshot) {
        Commit(spec, Filing([]).(position := Some(position)));
      } else {
        var header := n.Make(RequestHeader, System,
                             Header(snapshot, Some(RequestBuilder.MessagesDigest(spec.codec, request.messages))));
        lastSnapshot := Some(snapshot);
        CommitAndTell(spec, Filing([EntryFor(spec.runId, header, None)]).(position := Some(position)), [header]);
      }
    }

    // --- Listening ---------------------------------------------------------------------------

    method StreamTurn(n: LoopNormalizer, events: seq<ProviderEvent>) returns (h: Heard)
      requires Valid()
      modifies n, process
      ensures Valid() && process.store.Now() == old(process.store.Now())
      ensures h == Hear(old(n.Now()), events) && n.Now() == h.norm
      ensures process.journal == old(process.journal) + h.live
    {
      h := Silence(n.Now());
      ghost var start, before := n.Now(), process.journal;
      assert before + h.live == before;
      for i := 0 to |events|
        invariant Valid() && process.store.Now() == old(process.store.Now())
        invariant h == Hear(start, events[..i]) && n.Now() == h.norm
        invariant process.journal == before + h.live
      {
        ghost var heard := h;
        h := HearNext(n, h, events[i]);
        HearsNext(start, events, i);
        Appended(before, heard.live, h.live);
      }
      assert events[..|events|] == events;
    }

    /** One event: keep the block and the call it makes, tell what is live, hold what is durable. */
    method HearNext(n: LoopNormalizer, h: Heard, event: ProviderEvent) returns (r: Heard)
      requires Valid() && n.Now() == h.norm
      modifies n, process
      ensures Valid() && process.store.Now() == old(process.store.Now())
      ensures r == HearOne(h, event) && n.Now() == r.norm
      ensures h.live <= r.live && process.journal == old(process.journal) + r.live[|h.live|..]
    {
      if h.broke { return h; }
      if event.BlockStop? && Unreadable(event.block) {
        return h.(broke := true, blocks := h.blocks + [event.block]);
      }
      ghost var before := process.journal;
      var seen := Look(n, h, event);
      var out := n.Map(event);
      NumbersAreConsecutive(h.norm, event);
      r := Sort(n, seen, out);
      ToldOn(before, h.live, seen.live, r.live);
    }

    method Look(n: LoopNormalizer, h: Heard, event: ProviderEvent) returns (r: Heard)
      requires Valid() && n.Now() == h.norm && (event.BlockStop? ==> !Unreadable(event.block))
      modifies n, process
      ensures Valid() && process.store.Now() == old(process.store.Now()) && n.Now() == h.norm
      ensures r == Notice(h, event)
      ensures h.live <= r.live && process.journal == old(process.journal) + r.live[|h.live|..]
    {
      r := h;
      if event.BlockStop? {
        r := r.(blocks := r.blocks + [event.block], calls := r.calls + CallsOf(event.block));
      }
      if event.MessageDelta? {
        var e := n.Make(ContextUsage, System, Spend(event.usage));
        r := r.(usage := event.usage, reported := true, stopReason := Some(event.stopReason), live := r.live + [Emit([e])]);
        Announce([e]);
      }
    }

    method Sort(n: LoopNormalizer, h: Heard, out: seq<Envelope>) returns (r: Heard)
      requires Valid() && |out| <= 1
      modifies process
      ensures Valid() && process.store.Now() == old(process.store.Now())
      ensures r == Absorb(h, n.Now(), out)
      ensures h.live <= r.live && process.journal == old(process.journal) + r.live[|h.live|..]
    {
      RunLaws.SortOut(out);
      r := h.(norm := n.Now());
      if |out| > 0 {
        if Ephemeral(out[0].etype) {
          r := r.(live := r.live + [Emit(out)]);
          Announce(out);
        } else {
          r := r.(durable := r.durable + out);
        }
      }
    }

    // --- Dispatching -------------------------------------------------------------------------

    method NoteToolOutcome(key: string, name: string, o: Outcome)
      modifies this
      ensures repeatedFailure == Note(old(repeatedFailure), key, name, o) && tried == old(tried) + [Tried(key, o.ok)]
      ensures inbox == old(inbox) && lastSnapshot == old(lastSnapshot)
    {
      tried := tried + [Tried(key, o.ok)];
      if o.ok {
        repeatedFailure := None;
      } else if repeatedFailure.Some? && repeatedFailure.value.key == key {
        repeatedFailure := Some(repeatedFailure.value.(count := repeatedFailure.value.count + 1, error := o.text));
      } else {
        repeatedFailure := Some(Repeat(key, name, o.text, 1));
      }
    }

    method MakeNoise(n: LoopNormalizer, id: string, noise: seq<Noise>) returns (events: seq<Envelope>)
      modifies n
      ensures (n.Now(), events) == MintNoise(old(n.Now()), id, noise)
    {
      events := [];
      for i := 0 to |noise|
        invariant (n.Now(), events) == MintNoise(old(n.Now()), id, noise[..i])
      {
        assert noise[..i + 1][..i] == noise[..i];
        var e := n.Make(NoiseType(noise[i]), Claude, Tool(id));
        events := events + [e];
      }
      assert noise[..|noise|] == noise;
    }

    /** The gate, the marker, the effect, the outcome: one call. */
    method DispatchCall(spec: Spec, turn: Turn, n: LoopNormalizer, ghost turns: nat, ghost attempt: nat, ghost usage: Usage,
                        stepId: StepId, position: seq<Call>, call: Call, calls: seq<ToolCall>) returns (next: seq<Call>)
      requires Valid()
      modifies this, n, process, process.store
      ensures Valid()
      ensures Now(n, turns, attempt, usage, None)
        == DispatchOne(spec, turn, old(Now(n, turns, attempt, usage, None)), stepId, position, call, calls)
      ensures next == WithCallStatus(position, call.index, Completed)
    {
      var effect := turn.effects(call.index);
      var input := InputOf(calls, call.toolUseId);
      if effect.gate.Refused? {
        var e := n.Make(ToolRefused, System, Tool(call.toolUseId));
        next := WithCallStatus(position, call.index, Completed);
        CommitAndTell(spec, AnswerTx(spec, stepId, position, call, [e], Outcome(false, effect.gate.reason)), [e]);
        return;
      }
      var pending := Clear(spec, n, turns, attempt, usage, stepId, position, call, input, effect.gate);
      ghost var cleared := Now(n, turns, attempt, usage, None);
      AnswerIt(spec, n, turns, attempt, usage, stepId, pending, call, input, effect);
      next := WithCallStatus(pending, call.index, Completed);
      assert next == WithCallStatus(position, call.index, Completed);
    }

    method Clear(spec: Spec, ghost n: LoopNormalizer, ghost turns: nat, ghost attempt: nat, ghost usage: Usage,
                 stepId: StepId, position: seq<Call>, call: Call, input: Option<Value>, gate: Gate) returns (pending: seq<Call>)
      requires Valid()
      modifies process, process.store
      ensures Valid()
      ensures Now(n, turns, attempt, usage, None)
        == StartCall(spec, old(Now(n, turns, attempt, usage, None)), stepId, position, call, input, gate)
      ensures pending == WithCallStatus(position, call.index, EffectPending)
    {
      pending := WithCallStatus(position, call.index, EffectPending);
      Commit(spec, Filing([]).(args := Some(Args(stepId, call.index, OrNull(input))), position := Some(Tools(stepId, pending))));
      if spec.knows(call.name) {
        process.Note(Began(call.toolUseId, OrNull(EffectiveInput(gate, input))));
      }
    }

    method AnswerIt(spec: Spec, n: LoopNormalizer, ghost turns: nat, ghost attempt: nat, ghost usage: Usage,
                    stepId: StepId, position: seq<Call>, call: Call, input: Option<Value>, effect: Effect)
      requires Valid()
      modifies this, n, process, process.store
      ensures Valid()
      ensures Now(n, turns, attempt, usage, None)
        == AnswerCall(spec, old(Now(n, turns, attempt, usage, None)), stepId, position, call, input, effect)
    {
      var told := Told(spec, call.name, effect);
      var noise := if spec.knows(call.name) then effect.noise else [];
      ghost var was := n.Now();
      var events := MakeNoise(n, call.toolUseId, noise);
      NoteToolOutcome(FailureKey(spec.codec, call.name, input), call.name, told);
      var e := n.Make(if told.ok then ToolFinished else ToolFailed, Claude, Tool(call.toolUseId));
      events := events + [e];
      assert (n.Now(), events) == CallEvents(spec, was, call, effect);
      RunLaws.CallEventsNumbers(spec, was, call, effect);
      CommitAndTell(spec, AnswerTx(spec, stepId, position, call, events, told), events);
    }

    method DispatchTools(spec: Spec, turn: Turn, n: LoopNormalizer, ghost turns: nat, ghost attempt: nat, ghost usage: Usage,
                         stepId: StepId, planned: seq<Call>, calls: seq<ToolCall>)
      requires Valid() && Indexed(planned)
      modifies this, n, process, process.store
      ensures Valid()
      ensures Now(n, turns, attempt, usage, None)
        == File(spec, DispatchAll(spec, turn, old(Now(n, turns, attempt, usage, None)), stepId, planned, calls),
                Filing([]).(position := Some(Record.Checkpoint)))
    {
      var position := planned;
      ghost var start := Now(n, turns, attempt, usage, None);
      for i := 0 to |planned|
        invariant Valid() && |position| == |planned| && Indexed(position)
        invariant forall k :: i <= k < |planned| ==> position[k] == planned[k]
        invariant Dispatch(spec, turn, Now(n, turns, attempt, usage, None), stepId, position, calls, i)
               == Dispatch(spec, turn, start, stepId, planned, calls, 0)
      {
        position := DispatchCall(spec, turn, n, turns, attempt, usage, stepId, position, planned[i], calls);
      }
      Commit(spec, Filing([]).(position := Some(Record.Checkpoint)));
    }

    // --- One turn --------------------------------------------------------------------------------

    method SettleWith(spec: Spec, ghost n: LoopNormalizer, ghost turns: nat, ghost attempt: nat, ghost usage: Usage,
                      h: Heard, usageId: nat, boundary: nat, next: Position)
      requires Valid() && forall i :: 0 <= i < |h.durable| ==> h.durable[i].seqNo.Some?
      modifies process, process.store
      ensures Valid()
      ensures Now(n, turns, attempt, usage, None)
        == PutDown(spec, old(Now(n, turns, attempt, usage, None)), h, usageId, boundary, next)
    {
      CommitAndTell(spec, SettleTx(spec, h, usageId, boundary, next), h.durable);
    }

    method SettleTools(spec: Spec, turn: Turn, n: LoopNormalizer, turns: nat, attempt: nat, usage: Usage,
                       h: Heard, usageId: nat, boundary: nat) returns (ended: Option<Ended>, attempt': nat)
      requires Valid() && forall i :: 0 <= i < |h.durable| ==> h.durable[i].seqNo.Some?
      modifies this, n, process, process.store
      ensures Valid()
      ensures Now(n, turns, attempt', usage, ended)
        == UseTools(spec, turn, old(Now(n, turns, attempt, usage, None)), h, usageId, boundary)
    {
      var stepId, planned := StepId(spec.runId, n.seqNo), PlanCalls(Proposed(spec, h.calls));
      SettleWith(spec, n, turns, attempt, usage, h, usageId, boundary, Tools(stepId, planned));
      DispatchTools(spec, turn, n, turns, attempt, usage, stepId, planned, h.calls);
      if Stuck(repeatedFailure) {
        ended := Terminate(spec, n, turns, attempt, usage, RunFailed, System, Failed, Some("api_error"), 0);
        attempt' := attempt;
      } else {
        ended, attempt' := None, 0;
      }
    }

    method MakePrompts(spec: Spec, n: LoopNormalizer, messages: seq<string>) returns (events: seq<Envelope>)
      modifies n
      ensures (n.Now(), events) == MintPrompts(spec, old(n.Now()), messages)
    {
      events := [];
      for i := 0 to |messages|
        invariant (n.Now(), events) == MintPrompts(spec, old(n.Now()), messages[..i])
      {
        assert messages[..i + 1][..i] == messages[..i];
        var e := n.Make(UserPrompt, UserActor(spec), NoPayload);
        events := events + [e];
      }
      assert messages[..|messages|] == messages;
    }

    method AppendFollowUps(spec: Spec, n: LoopNormalizer, ghost turns: nat, ghost attempt: nat, ghost usage: Usage)
      requires Valid()
      modifies this, n, process, process.store
      ensures Valid()
      ensures Now(n, turns, 0, usage, None) == FollowUp(spec, old(Now(n, turns, attempt, usage, None)))
    {
      var messages := inbox;
      inbox := [];
      ghost var was := n.Now();
      var events := MakePrompts(spec, n, messages);
      OnePromptEach(spec, was, messages);
      RunLaws.PromptNumbers(spec, was, messages);
      CommitAndTell(spec, Filing(Prompts(spec.runId, events, messages)).(position := Some(Record.Checkpoint)), events);
    }

    method ConcludeTurn(spec: Spec, n: LoopNormalizer, turns: nat, attempt: nat, usage: Usage, action: Action, reason: StopReason)
      returns (ended: Option<Ended>, attempt': nat)
      requires Valid()
      modifies this, n, process, process.store
      ensures Valid()
      ensures Now(n, turns, attempt', usage, ended)
        == Conclude(spec, old(Now(n, turns, attempt, usage, None)), action, reason)
    {
      ended, attempt' := None, attempt;
      match action {
        case Resume(next) => attempt' := next;
        case Compact => attempt' := 0;
        case SettleFailed =>
          ended := Terminate(spec, n, turns, attempt, usage, RunFailed, System, Failed, Some(ReasonName(reason)), 0);
        case _ =>
          if |inbox| > 0 {
            AppendFollowUps(spec, n, turns, attempt, usage);
            attempt' := 0;
          } else {
            ended := Terminate(spec, n, turns, attempt, usage, RunFinished, System, Finished, Some(ReasonName(reason)), turns);
          }
      }
    }

    method SettleTurn(spec: Spec, turn: Turn, n: LoopNormalizer, turns: nat, attempt: nat, usage: Usage,
                      h: Heard, usageId: nat, boundary: nat) returns (ended: Option<Ended>, attempt': nat, usage': Usage)
      requires Valid() && forall i :: 0 <= i < |h.durable| ==> h.durable[i].seqNo.Some?
      modifies this, n, process, process.store
      ensures Valid()
      ensures Now(n, turns, attempt', usage', ended)
        == Settle(spec, turn, old(Now(n, turns, attempt, usage, None)), h, usageId, boundary)
    {
      usage' := AddUsage(usage, h.usage);
      var action := Decide(ReasonOf(h), attempt);
      if action.DispatchTools? {
        ended, attempt' := SettleTools(spec, turn, n, turns, attempt, usage', h, usageId, boundary);
      } else {
        SettleWith(spec, n, turns, attempt, usage', h, usageId, boundary, Record.Checkpoint);
        ended, attempt' := ConcludeTurn(spec, n, turns, attempt, usage', action, ReasonOf(h));
      }
    }

    method BreakOff(spec: Spec, turn: Turn, n: LoopNormalizer, turns: nat, ghost attempt: nat, usage: Usage) returns (ended: Option<Ended>)
      requires Valid()
      modifies n, process, process.store
      ensures Valid()
      ensures Now(n, turns, attempt, usage, ended) == Broken(spec, turn, old(Now(n, turns, attempt, usage, None)))
    {
      var e := n.Make(ProviderError, System, NoPayload);
      if turn.abortedDuring {
        ended := Terminate(spec, n, turns, attempt, usage, RunInterrupted, UserActor(spec), Interrupted, None, 0);
      } else {
        Announce([e]);
        ended := Terminate(spec, n, turns, attempt, usage, RunFailed, System, Failed, Some(turn.fault), 0);
      }
    }

    /** Send the request whose intent is on the record, listen, and settle what was heard. */
    method SendAndSettle(spec: Spec, turn: Turn, n: LoopNormalizer, turns: nat, attempt: nat, usage: Usage, request: Request, usageId: nat)
      returns (ended: Option<Ended>, attempt': nat, usage': Usage)
      requires Valid()
      modifies this, n, process, process.store
      ensures Valid()
      ensures Now(n, turns, attempt', usage', ended)
        == Await(spec, turn, old(Now(n, turns, attempt, usage, None)), request, usageId)
    {
      var boundary := |process.store.entries|;
      ghost var was := n.Now();
      process.Note(Sent(request));
      var h := StreamTurn(n, turn.stream);
      RunLaws.HearNumbers(was, turn.stream);
      if h.broke || turn.broke {
        attempt', usage' := attempt, usage;
        ended := BreakOff(spec, turn, n, turns, attempt, usage);
      } else {
        ended, attempt', usage' := SettleTurn(spec, turn, n, turns, attempt, usage, h, usageId, boundary);
      }
    }

    method AskProvider(spec: Spec, turn: Turn, n: LoopNormalizer, turns: nat, attempt: nat, usage: Usage)
      returns (ended: Option<Ended>, attempt': nat, usage': Usage)
      requires Valid()
      modifies this, n, process, process.store
      ensures Valid()
      ensures Now(n, turns, attempt', usage', ended) == Ask(spec, turn, old(Now(n, turns, attempt, usage, None)))
    {
      if Refuses(spec, turn) {
        attempt', usage' := attempt, usage;
        ended := RefuseTurn(spec, n, turns, attempt, usage);
        return;
      }
      var request := RequestFor(spec, process.store.Now());
      var usageId := NextUsageId(process.store.usage);
      CommitIntent(spec, turn, n, turns, attempt, usage, request);
      ended, attempt', usage' := SendAndSettle(spec, turn, n, turns, attempt, usage, request, usageId);
    }

    method TakeTurn(spec: Spec, turn: Turn, n: LoopNormalizer, turns: nat, attempt: nat, usage: Usage)
      returns (ended: Option<Ended>, turns': nat, attempt': nat, usage': Usage)
      requires Valid()
      modifies this, n, process, process.store
      ensures Valid()
      ensures Now(n, turns', attempt', usage', ended) == Take(spec, turn, old(Now(n, turns, attempt, usage, None)))
      ensures ended.None? ==> turns' == turns + 1
    {
      if turn.abortedBefore {
        turns', attempt', usage' := turns, attempt, usage;
        ended := Terminate(spec, n, turns, attempt, usage, RunInterrupted, UserActor(spec), Interrupted, None, 0);
      } else {
        turns' := turns + 1;
        Begin(turn, n, turns, attempt, usage);
        ended, attempt', usage' := AskProvider(spec, turn, n, turns', attempt, usage);
      }
    }

    method Begin(turn: Turn, n: LoopNormalizer, ghost turns: nat, ghost attempt: nat, ghost usage: Usage)
      requires Valid()
      modifies this, n
      ensures Valid()
      ensures Now(n, turns + 1, attempt, usage, None) == BeginsTurn(turn, old(Now(n, turns, attempt, usage, None)))
    {
      n.Begin(turn.turnId);
      inbox := inbox + turn.arrived;
    }

    // --- The run ---------------------------------------------------------------------------------------

    method Open(spec: Spec) returns (n: LoopNormalizer)
      requires Valid()
      modifies process, process.store
      ensures Valid() && fresh(n)
      ensures Now(n, 0, 0, ZERO_USAGE, None)
        == Opening(spec, old(Loop(process.store.Now(), process.journal, Norm(0, "turn", map[]), inbox, lastSnapshot,
                                  repeatedFailure, 0, 0, ZERO_USAGE, tried, None)))
    {
      n := new LoopNormalizer(UserActor(spec), HighestSeq(process.store.entries, spec.runId));
      var prompt := n.Make(UserPrompt, UserActor(spec), NoPayload);
      var started := n.Make(RunStarted, UserActor(spec), NoPayload);
      CommitAndTell(spec, Filing([EntryFor(spec.runId, prompt, Some([TextBlock(spec.prompt)])),
                                  EntryFor(spec.runId, started, None)])
                          .(meta := Some(true), position := Some(Record.Checkpoint)), [prompt, started]);
    }

    /** One turn more of the turns since `l`. */
    method NextTurn(spec: Spec, world: nat -> Turn, n: LoopNormalizer, turns: nat, attempt: nat, usage: Usage, ghost l: Loop)
      returns (ended: Option<Ended>, turns': nat, attempt': nat, usage': Usage)
      requires Valid() && turns < MAX_TURNS && Now(n, turns, attempt, usage, None) == AfterTurns(spec, world, l, turns)
      modifies this, n, process, process.store
      ensures Valid()
      ensures ended.None? ==> turns' == turns + 1 && Now(n, turns', attempt', usage', None) == AfterTurns(spec, world, l, turns')
      ensures ended.Some? ==> Now(n, turns', attempt', usage', ended) == AfterTurns(spec, world, l, MAX_TURNS)
    {
      ended, turns', attempt', usage' := TakeTurn(spec, world(turns), n, turns, attempt, usage);
      TakesNext(spec, world, l, turns, Now(n, turns', attempt', usage', ended));
    }

    /** All the turns of a run, or as many as it takes. */
    method TakeTurns(spec: Spec, world: nat -> Turn, n: LoopNormalizer, ghost l: Loop)
      returns (ended: Option<Ended>, turns: nat, attempt: nat, usage: Usage)
      requires Valid() && Now(n, 0, 0, ZERO_USAGE, None) == l
      modifies this, n, process, process.store
      ensures Valid()
      ensures Now(n, turns, attempt, usage, ended) == AfterTurns(spec, world, l, MAX_TURNS)
    {
      ended, turns, attempt, usage := None, 0, 0, ZERO_USAGE;
      NoneTaken(spec, world, l);
      while turns < MAX_TURNS
        invariant Valid() && turns <= MAX_TURNS && ended == None
        invariant Now(n, turns, attempt, usage, None) == AfterTurns(spec, world, l, turns)
        decreases MAX_TURNS - turns
      {
        ended, turns, attempt, usage := NextTurn(spec, world, n, turns, attempt, usage, l);
        if ended.Some? { return; }
      }
    }

    /** The whole run: what is on the record, what was done in what order, and how it ended are those of
        `RunLoop.Run` on the same world. */
    method Run(spec: Spec, world: nat -> Turn) returns (ended: Ended)
      requires Valid()
      modifies this, process, process.store
      ensures Valid()
      ensures var m := RunLoop.Run(spec, world,
                old(Loop(process.store.Now(), process.journal, Norm(0, "turn", map[]), inbox, lastSnapshot,
                         repeatedFailure, 0, 0, ZERO_USAGE, tried, None)));
        && process.store.Now() == m.rec && process.journal == m.journal && Some(ended) == m.ended
        && inbox == m.inbox && lastSnapshot == m.lastSnapshot && repeatedFailure == m.repeated && tried == m.tried
    {
      var n := Open(spec);
      ghost var l := Now(n, 0, 0, ZERO_USAGE, None);
      var done, turns, attempt, usage := TakeTurns(spec, world, n, l);
      if done.None? {
        done := Terminate(spec, n, turns, attempt, usage, RunFailed, System, Failed, Some("max_tokens"), 0);
      }
      ended := done.value;
    }
  }

  lemma {:induction false} HearsNext(n: Norm, events: seq<ProviderEvent>, i: nat)
    requires i < |events|
    ensures Hear(n, events[..i + 1]) == HearOne(Hear(n, events[..i]), events[i])
  {
    assert events[..i + 1][..i] == events[..i];
  }

  lemma {:induction false} ToldOn(before: seq<Step>, a: seq<Step>, b: seq<Step>, c: seq<Step>)
    requires a <= b <= c
    ensures before + b[|a|..] + c[|b|..] == before + c[|a|..]
  {
    assert c == b + c[|b|..];
  }

  lemma {:induction false} Appended(before: seq<Step>, a: seq<Step>, b: seq<Step>)
    requires a <= b
    ensures before + a + b[|a|..] == before + b
  {
    assert b == a + b[|a|..];
  }

  /** So many turns on. */
  ghost function AfterTurns(spec: Spec, world: nat -> Turn, l: Loop, n: nat): Loop {
    Iterate(Taking(spec, world), l, n)
  }

  lemma {:induction false} NoneTaken(spec: Spec, world: nat -> Turn, l: Loop)
    ensures AfterTurns(spec, world, l, 0) == l
  {
  }

  lemma {:induction false} TakesNext(spec: Spec, world: nat -> Turn, l: Loop, n: nat, m: Loop)
    requires n < MAX_TURNS && AfterTurns(spec, world, l, n).ended.None? && m == Take(spec, world(n), AfterTurns(spec, world, l, n))
    ensures m.ended.None? ==> AfterTurns(spec, world, l, n + 1) == m
    ensures m.ended.Some? ==> AfterTurns(spec, world, l, MAX_TURNS) == m
  {
    IteratesNext(Taking(spec, world), l, n, m);
  }

  lemma {:induction false} IteratesNext(take: (nat, Loop) -> Loop, l: Loop, n: nat, m: Loop)
    requires n < MAX_TURNS && Iterate(take, l, n).ended.None? && m == take(n, Iterate(take, l, n))
    ensures m.ended.None? ==> Iterate(take, l, n + 1) == m
    ensures m.ended.Some? ==> Iterate(take, l, MAX_TURNS) == m
  {
    assert Iterate(take, l, n + 1) == m;
    if m.ended.Some? {
      StaysEnded(take, l, n + 1, MAX_TURNS);
    }
  }

  lemma {:induction false} StaysEnded(take: (nat, Loop) -> Loop, l: Loop, i: nat, n: nat)
    requires i <= n && Iterate(take, l, i).ended.Some?
    ensures Iterate(take, l, n) == Iterate(take, l, i)
  {
    if i < n {
      StaysEnded(take, l, i, n - 1);
    }
  }
}
