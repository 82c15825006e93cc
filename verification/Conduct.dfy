/** Every step of every run is as it may be: one chain over all the loop does. */
module Conduct {
  import opened Json
  import opened Contract
  import opened Record
  import opened Checkpoint
  import opened Journal
  import opened Normalize
  import opened StopReasons
  import opened RunLoop
  import opened World
  import opened Protocol
  import opened RunLaws
  import opened TurnLaws
  import opened Runs
  import opened Deeds
  import Hearing
  import Recovery
  import RequestLaws

  // --- Steps that reach no further ----------------------------------------------------------------

  ghost predicate Each(ok: (seq<Step>, Step) -> bool, j: seq<Step>) {
    forall k :: 0 <= k < |j| ==> ok(j[..k], j[k])
  }

  ghost predicate Lenient(ok: (seq<Step>, Step) -> bool) {
    forall j, step :: Light(step) ==> ok(j, step)
  }

  /** So many requests were sent, and if every step before was as it may be, so was every one since. */
  ghost predicate Sure(ok: (seq<Step>, Step) -> bool, l: Loop, m: Loop, sends: nat) {
    && l.journal <= m.journal && Sends(m.journal) == Sends(l.journal) + sends
    && (Each(ok, l.journal) ==> Each(ok, m.journal))
  }

  lemma {:induction false} SureTrans(ok: (seq<Step>, Step) -> bool, a: Loop, b: Loop, c: Loop, m: nat, n: nat)
    requires Sure(ok, a, b, m) && Sure(ok, b, c, n)
    ensures Sure(ok, a, c, m + n)
  {
  }

  lemma {:induction false} StepSure(ok: (seq<Step>, Step) -> bool, j: seq<Step>, step: Step)
    requires ok(j, step)
    ensures Sends(j + [step]) == Sends(j) + (if step.Sent? then 1 else 0)
    ensures Each(ok, j) ==> Each(ok, j + [step])
  {
    var all := j + [step];
    assert all[..|j|] == j;
    if Each(ok, j) {
      forall k | 0 <= k < |all| ensures ok(all[..k], all[k]) {
        assert all[..k] == if k < |j| then j[..k] else j;
      }
    }
  }

  lemma {:induction false} DoSure(ok: (seq<Step>, Step) -> bool, l: Loop, step: Step)
    requires ok(l.journal, step)
    ensures Sure(ok, l, Do(l, step), if step.Sent? then 1 else 0)
  {
    StepSure(ok, l.journal, step);
  }

  predicate LightTx(tx: Tx) {
    && (forall i :: 0 <= i < |tx.entries| ==> tx.entries[i].key.None?)
    && (tx.position.Some? && tx.position.value.Tools? ==> !AllIn(tx.position.value.calls, Planned))
  }

  lemma {:induction false} NothingKeyed(run: string, tx: Tx)
    requires forall i :: 0 <= i < |tx.entries| ==> tx.entries[i].key.None?
    ensures !FilesKeyed(Step.Commit(Writes(run, tx)))
  {
  }

  lemma {:induction false} LightIsLight(run: string, tx: Tx)
    requires LightTx(tx)
    ensures Light(Step.Commit(Writes(run, tx)))
  {
    NothingKeyed(run, tx);
  }

  lemma {:induction false} TellsSure(ok: (seq<Step>, Step) -> bool, spec: Spec, l: Loop, tx: Tx, events: seq<Envelope>)
    requires Lenient(ok) && ok(l.journal, Step.Commit(Writes(spec.runId, tx)))
    ensures Sure(ok, l, File(spec, l, tx), 0) && Sure(ok, l, Tell(File(spec, l, tx), events), 0)
  {
    var m := File(spec, l, tx);
    DoSure(ok, l, Step.Commit(Writes(spec.runId, tx)));
    DoSure(ok, m, Emit(events));
    SureTrans(ok, l, m, Tell(m, events), 0, 0);
  }

  lemma {:induction false} FileTellSure(ok: (seq<Step>, Step) -> bool, spec: Spec, l: Loop, tx: Tx, events: seq<Envelope>)
    requires Lenient(ok) && LightTx(tx)
    ensures Sure(ok, l, File(spec, l, tx), 0) && Sure(ok, l, Tell(File(spec, l, tx), events), 0)
  {
    LightIsLight(spec.runId, tx);
    TellsSure(ok, spec, l, tx, events);
  }

  lemma {:induction false} EndSure(ok: (seq<Step>, Step) -> bool, spec: Spec, l: Loop, etype: EventType, actor: Actor,
                                   outcome: Ending, reason: Option<string>, turns: nat)
    requires Lenient(ok)
    ensures Sure(ok, l, End(spec, l, etype, actor, outcome, reason, turns), 0)
  {
    var (n, e) := Mint(l.norm, etype, actor, Spend(l.usage));
    FileTellSure(ok, spec, l.(norm := n),
                 Filing([EntryFor(spec.runId, e, None)])
                 .(meta := Some(false), result := Some(RunResult(outcome, false, reason)), position := Some(Terminal(outcome))), [e]);
  }

  lemma {:induction false} RefuseSure(ok: (seq<Step>, Step) -> bool, spec: Spec, l: Loop)
    requires Lenient(ok)
    ensures Sure(ok, l, Refuse(spec, l), 0)
  {
    var (n, e) := Mint(l.norm, ProviderError, System, NoPayload);
    var tx := Filing([EntryFor(spec.runId, e, None)]);
    var m := Tell(File(spec, l.(norm := n), tx), [e]);
    FileTellSure(ok, spec, l.(norm := n), tx, [e]);
    EndSure(ok, spec, m, RunFailed, System, Failed, Some("refused"), 0);
    SureTrans(ok, l.(norm := n), m, Fail(spec, m, "refused"), 0, 0);
  }

  lemma {:induction false} IntendSure(ok: (seq<Step>, Step) -> bool, spec: Spec, turn: Turn, l: Loop, request: Request)
    requires Lenient(ok)
    ensures Sure(ok, l, Intend(spec, turn, l, request), 0)
  {
    var snapshot := SnapshotOf(spec, turn, request);
    var position := RequestPending(RequestKey(spec.runId, turn.turnId, l.attempt),
                                   NextUsageId(l.rec.usage), turn.turnId, l.attempt);
    if l.lastSnapshot == Some(snapshot) {
      FileTellSure(ok, spec, l, Filing([]).(position := Some(position)), []);
    } else {
      var (n, header) := Mint(l.norm, RequestHeader, System,
                              Header(snapshot, Some(RequestBuilder.MessagesDigest(spec.codec, request.messages))));
      FileTellSure(ok, spec, l.(norm := n, lastSnapshot := Some(snapshot)),
                   Filing([EntryFor(spec.runId, header, None)]).(position := Some(position)), [header]);
    }
  }

  lemma {:induction false} LiveSure(ok: (seq<Step>, Step) -> bool, j: seq<Step>, live: seq<Step>)
    requires Lenient(ok) && AllEmits(live)
    ensures Sends(j + live) == Sends(j) && (Each(ok, j) ==> Each(ok, j + live))
    decreases |live|
  {
    if live == [] {
      assert j + live == j;
    } else {
      var init, last := live[..|live| - 1], live[|live| - 1];
      assert j + live == j + init + [last];
      LiveSure(ok, j, init);
      StepSure(ok, j + init, last);
    }
  }

  lemma {:induction false} ListenSure(ok: (seq<Step>, Step) -> bool, base: Loop, l: Loop, request: Request, h: Heard, events: seq<ProviderEvent>)
    requires h == Hear(l.norm, events) && Sure(ok, base, l, 0) && Lenient(ok) && ok(l.journal, Sent(request))
    ensures Sure(ok, base, Listen(l, request, h), 1)
  {
    HearNumbers(l.norm, events);
    StepSure(ok, l.journal, Sent(request));
    LiveSure(ok, l.journal + [Sent(request)], h.live);
  }

  lemma {:induction false} BrokenSure(ok: (seq<Step>, Step) -> bool, spec: Spec, turn: Turn, l: Loop)
    requires Lenient(ok)
    ensures Sure(ok, l, Broken(spec, turn, l), 0)
  {
    var (n, e) := Mint(l.norm, ProviderError, System, NoPayload);
    var l1 := l.(norm := n);
    if turn.abortedDuring {
      EndSure(ok, spec, l1, RunInterrupted, UserActor(spec), Interrupted, None, 0);
    } else {
      DoSure(ok, l1, Emit([e]));
      EndSure(ok, spec, Tell(l1, [e]), RunFailed, System, Failed, Some(turn.fault), 0);
    }
  }

  lemma {:induction false} ConcludeSure(ok: (seq<Step>, Step) -> bool, spec: Spec, l: Loop, action: Action, reason: StopReason)
    requires Lenient(ok)
    ensures Sure(ok, l, Conclude(spec, l, action, reason), 0)
  {
    if action.SettleFailed? {
      EndSure(ok, spec, l, RunFailed, System, Failed, Some(ReasonName(reason)), 0);
    } else if |l.inbox| > 0 {
      var (n, events) := MintPrompts(spec, l.norm, l.inbox);
      OnePromptEach(spec, l.norm, l.inbox);
      FileTellSure(ok, spec, l.(norm := n, inbox := []),
                   Filing(Prompts(spec.runId, events, l.inbox)).(position := Some(Record.Checkpoint)), events);
    } else {
      EndSure(ok, spec, l, RunFinished, System, Finished, Some(ReasonName(reason)), l.turns);
    }
  }

  lemma {:induction false} CloseSure(ok: (seq<Step>, Step) -> bool, spec: Spec, l: Loop)
    requires Lenient(ok)
    ensures Sure(ok, l, Close(spec, l), 0)
  {
    var tx := Filing([]).(position := Some(Record.Checkpoint));
    FileTellSure(ok, spec, l, tx, []);
    EndSure(ok, spec, File(spec, l, tx), RunFailed, System, Failed, Some("api_error"), 0);
  }

  // --- Calls ---------------------------------------------------------------------------------------

  /** A step of this kind. */
  ghost predicate Deed(spec: Spec, turn: Turn, origin: State, j: seq<Step>, step: Step) {
    BegunIn(spec, turn, origin, j, step) || AnsweredIn(spec, turn, origin, j, step) || PlannedIn(spec, turn, origin, j, step)
  }

  /** Done in this turn, behind so many requests: that may be. */
  ghost predicate Admits(ok: (seq<Step>, Step) -> bool, spec: Spec, turn: Turn, origin: State, sends: nat) {
    Lenient(ok) && forall j, step :: Sends(j) == sends && Deed(spec, turn, origin, j, step) ==> ok(j, step)
  }

  lemma {:induction false} ClearedArgs(spec: Spec, l: Loop, stepId: StepId, position: seq<Call>, call: Call, args: Value)
    ensures Recovery.ArgsOf(File(spec, l, ClearTx(stepId, position, call, args)).rec, stepId, call) == args
  {
    ApplyTx(l.rec, spec.runId, ClearTx(stepId, position, call, args));
  }

  lemma {:induction false} StartBegins(spec: Spec, origin: State, turn: Turn, l: Loop, stepId: StepId, position: seq<Call>, at: nat)
    requires Sound(spec, origin, l) && Stands(spec, l, Tools(stepId, position)) && Indexed(position)
    requires at < |position| && position[at].status == Planned && ToRun(spec, turn, at, position[at].name)
    ensures var id := position[at].toolUseId;
      BegunIn(spec, turn, origin, File(spec, l, ClearTx(stepId, position, position[at], Asks(turn, id))).journal, Began(id, Leaves(turn, at, id)))
  {
    var id, pending := position[at].toolUseId, WithCallStatus(position, at, EffectPending);
    var m := File(spec, l, ClearTx(stepId, position, position[at], Asks(turn, id)));
    ClearKeeps(spec, origin, l, stepId, position, at, Asks(turn, id));
    ClearedArgs(spec, l, stepId, position, position[at], Asks(turn, id));
    assert BegunAt(spec, turn, origin, m.journal, Began(id, Leaves(turn, at, id)), stepId, pending, at);
  }

  lemma {:induction false} ClearIsLight(stepId: StepId, position: seq<Call>, at: nat, args: Value)
    requires Indexed(position) && at < |position|
    ensures LightTx(ClearTx(stepId, position, position[at], args))
  {
    assert WithCallStatus(position, at, EffectPending)[at].status == EffectPending;
  }

  lemma {:induction false} StartSure(ok: (seq<Step>, Step) -> bool, spec: Spec, origin: State, turn: Turn, l: Loop,
                                     stepId: StepId, position: seq<Call>, at: nat)
    requires Sound(spec, origin, l) && Stands(spec, l, Tools(stepId, position)) && Indexed(position) && Admits(ok, spec, turn, origin, Sends(l.journal))
    requires at < |position| && position[at].status == Planned && !turn.effects(at).gate.Refused?
    ensures Sure(ok, l, StartCall(spec, l, stepId, position, position[at], InputOf(Calls(turn), position[at].toolUseId), turn.effects(at).gate), 0)
  {
    var id := position[at].toolUseId;
    var tx := ClearTx(stepId, position, position[at], Asks(turn, id));
    var m := File(spec, l, tx);
    ClearIsLight(stepId, position, at, Asks(turn, id));
    FileTellSure(ok, spec, l, tx, []);
    if spec.knows(position[at].name) {
      StartBegins(spec, origin, turn, l, stepId, position, at);
      assert Deed(spec, turn, origin, m.journal, Began(id, Leaves(turn, at, id)));
      DoSure(ok, m, Began(id, Leaves(turn, at, id)));
      SureTrans(ok, l, m, Do(m, Began(id, Leaves(turn, at, id))), 0, 0);
    }
  }

  /** Marked, and begun if there is such a tool. */
  lemma {:induction false} StartReadies(spec: Spec, origin: State, turn: Turn, l: Loop, stepId: StepId, position: seq<Call>, at: nat)
    requires Sound(spec, origin, l) && Stands(spec, l, Tools(stepId, position)) && Indexed(position)
    requires at < |position| && position[at].status == Planned && !turn.effects(at).gate.Refused?
    ensures var m := StartCall(spec, l, stepId, position, position[at], InputOf(Calls(turn), position[at].toolUseId), turn.effects(at).gate);
      ReadyAt(spec, turn, origin, m.journal, position[at], at)
  {
    var tx := ClearTx(stepId, position, position[at], Asks(turn, position[at].toolUseId));
    assert (l.journal + [Step.Commit(Writes(spec.runId, tx))])[..|l.journal|] == l.journal;
  }

  // --- Answers

  lemma {:induction false} AnswerWrites(spec: Spec, stepId: StepId, position: seq<Call>, call: Call, events: seq<Envelope>, o: Outcome)
    ensures var writes := Writes(spec.runId, AnswerTx(spec, stepId, position, call, events, o));
      && |writes| == |events| + 2 && writes[..|events|] == Puts(Plain(spec.runId, events))
      && writes[|events|] == PutEntry(AnswerEntry(spec.runId, call, o.text, !o.ok))
      && writes[|events| + 1] == SetPosition(spec.runId, Tools(stepId, WithCallStatus(position, call.index, Completed)))
  {
    var tx := AnswerTx(spec, stepId, position, call, events, o);
    assert Ledgers(tx) == [];
    assert Registers(spec.runId, tx) == [SetPosition(spec.runId, tx.position.value)];
    assert Puts(tx.entries) == Puts(Plain(spec.runId, events)) + [PutEntry(AnswerEntry(spec.runId, call, o.text, !o.ok))];
  }

  /** Events of these types about a call, each numbered. */
  ghost predicate Tells(events: seq<Envelope>, id: string, types: seq<EventType>) {
    |events| == |types| && forall i :: 0 <= i < |events| ==>
      events[i].etype == types[i] && events[i].payload == Tool(id) && events[i].seqNo.Some?
  }

  lemma {:induction false} AnswerIsFiled(spec: Spec, origin: State, turn: Turn, l: Loop, stepId: StepId, position: seq<Call>, at: nat,
                                         call: Call, events: seq<Envelope>, o: Outcome)
    requires Sound(spec, origin, l) && Stands(spec, l, Tools(stepId, position)) && Indexed(position)
    requires at < |position| && call == position[at].(status := call.status) && o == Outcomes(spec, turn, at, call.name)
    requires Tells(events, call.toolUseId, TypesOf(spec, turn, at, call.name))
    requires if turn.effects(at).gate.Refused? then position[at].status == Planned
             else position[at].status == EffectPending && ReadyAt(spec, turn, origin, l.journal, position[at], at)
    ensures Deed(spec, turn, origin, l.journal, Step.Commit(Writes(spec.runId, AnswerTx(spec, stepId, position, call, events, o))))
  {
    AnswerWrites(spec, stepId, position, call, events, o);
    var step := Step.Commit(Writes(spec.runId, AnswerTx(spec, stepId, position, call, events, o)));
    assert AnsweredAt(spec, turn, origin, l.journal, step, stepId, position, at);
  }

  lemma {:induction false} NoiseTells(n: Norm, id: string, noise: seq<Noise>)
    ensures Tells(MintNoise(n, id, noise).1, id,
                  seq(|noise|, i requires 0 <= i < |noise| => if noise[i].Output? then TerminalOutput else FileChanged))
    decreases |noise|
  {
    if noise != [] {
      NoiseTells(n, id, noise[..|noise| - 1]);
    }
  }

  lemma {:induction false} CallEventsTell(spec: Spec, turn: Turn, at: nat, n: Norm, call: Call)
    requires !turn.effects(at).gate.Refused?
    ensures Tells(CallEvents(spec, n, call, turn.effects(at)).1, call.toolUseId, TypesOf(spec, turn, at, call.name))
  {
    NoiseTells(n, call.toolUseId, if spec.knows(call.name) then turn.effects(at).noise else []);
  }

  lemma {:induction false} AnswerSure(ok: (seq<Step>, Step) -> bool, spec: Spec, origin: State, turn: Turn, l: Loop, stepId: StepId,
                                      position: seq<Call>, at: nat, call: Call, input: Option<Value>)
    requires Sound(spec, origin, l) && Stands(spec, l, Tools(stepId, position)) && Indexed(position) && Admits(ok, spec, turn, origin, Sends(l.journal))
    requires at < |position| && call == position[at].(status := call.status) && position[at].status == EffectPending
    requires !turn.effects(at).gate.Refused? && ReadyAt(spec, turn, origin, l.journal, position[at], at)
    ensures Sure(ok, l, AnswerCall(spec, l, stepId, position, call, input, turn.effects(at)), 0)
  {
    var told := Told(spec, call.name, turn.effects(at));
    var (n, events) := CallEvents(spec, l.norm, call, turn.effects(at));
    CallEventsTell(spec, turn, at, l.norm, call);
    AnswerIsFiled(spec, origin, turn, l, stepId, position, at, call, events, told);
    TellsSure(ok, spec, Noted(l, FailureKey(spec.codec, call.name, input), call.name, told).(norm := n),
              AnswerTx(spec, stepId, position, call, events, told), events);
  }

  lemma {:induction false} RefusedSure(ok: (seq<Step>, Step) -> bool, spec: Spec, origin: State, turn: Turn, l: Loop, stepId: StepId,
                                       position: seq<Call>, at: nat)
    requires Sound(spec, origin, l) && Stands(spec, l, Tools(stepId, position)) && Indexed(position) && Admits(ok, spec, turn, origin, Sends(l.journal))
    requires at < |position| && position[at].status == Planned && turn.effects(at).gate.Refused?
    ensures Sure(ok, l, RefuseCall(spec, l, stepId, position, position[at], turn.effects(at).gate.reason), 0)
  {
    var call, o := position[at], Outcome(false, turn.effects(at).gate.reason);
    var (n, e) := Mint(l.norm, ToolRefused, System, Tool(call.toolUseId));
    AnswerIsFiled(spec, origin, turn, l, stepId, position, at, call, [e], o);
    TellsSure(ok, spec, l.(norm := n), AnswerTx(spec, stepId, position, call, [e], o), [e]);
  }

  lemma {:induction false} CallSure(ok: (seq<Step>, Step) -> bool, spec: Spec, origin: State, turn: Turn, l: Loop,
                                    stepId: StepId, position: seq<Call>, at: nat)
    requires Sound(spec, origin, l) && Stands(spec, l, Tools(stepId, position)) && Indexed(position) && Admits(ok, spec, turn, origin, Sends(l.journal))
    requires at < |position| && position[at].status == Planned
    ensures Sure(ok, l, DispatchOne(spec, turn, l, stepId, position, position[at], Calls(turn)), 0)
  {
    if turn.effects(at).gate.Refused? {
      RefusedSure(ok, spec, origin, turn, l, stepId, position, at);
    } else {
      AllowedSure(ok, spec, origin, turn, l, stepId, position, at);
    }
  }

  lemma {:induction false} AllowedSure(ok: (seq<Step>, Step) -> bool, spec: Spec, origin: State, turn: Turn, l: Loop,
                                       stepId: StepId, position: seq<Call>, at: nat)
    requires Sound(spec, origin, l) && Stands(spec, l, Tools(stepId, position)) && Indexed(position) && Admits(ok, spec, turn, origin, Sends(l.journal))
    requires at < |position| && position[at].status == Planned && !turn.effects(at).gate.Refused?
    ensures var call, effect, input := position[at], turn.effects(at), InputOf(Calls(turn), position[at].toolUseId);
      var started := StartCall(spec, l, stepId, position, call, input, effect.gate);
      Sure(ok, l, AnswerCall(spec, started, stepId, WithCallStatus(position, call.index, EffectPending), call, input, effect), 0)
  {
    var call, effect, input := position[at], turn.effects(at), InputOf(Calls(turn), position[at].toolUseId);
    var started, pending := StartCall(spec, l, stepId, position, call, input, effect.gate), WithCallStatus(position, at, EffectPending);
    StartSure(ok, spec, origin, turn, l, stepId, position, at);
    StartCallKeeps(spec, origin, l, stepId, position, at, input, effect.gate);
    StartReadies(spec, origin, turn, l, stepId, position, at);
    AnswerSure(ok, spec, origin, turn, started, stepId, pending, at, call, input);
    SureTrans(ok, l, started, AnswerCall(spec, started, stepId, pending, call, input, effect), 0, 0);
  }

  lemma {:induction false} DispatchSure(ok: (seq<Step>, Step) -> bool, spec: Spec, origin: State, turn: Turn, l: Loop,
                                        stepId: StepId, position: seq<Call>, at: nat)
    requires Sound(spec, origin, l) && Stands(spec, l, Tools(stepId, position)) && Indexed(position) && at <= |position|
    requires AllIn(position[..at], Completed) && AllIn(position[at..], Planned) && Admits(ok, spec, turn, origin, Sends(l.journal))
    ensures Sure(ok, l, Dispatch(spec, turn, l, stepId, position, Calls(turn), at), 0)
    decreases |position| - at
  {
    var calls := Calls(turn);
    if at < |position| {
      NextCalls(position, at);
      DispatchOneKeeps(spec, origin, turn, l, stepId, position, at, calls);
      CallSure(ok, spec, origin, turn, l, stepId, position, at);
      var l1, next := DispatchOne(spec, turn, l, stepId, position, position[at], calls), WithCallStatus(position, at, Completed);
      DispatchSure(ok, spec, origin, turn, l1, stepId, next, at + 1);
      SureTrans(ok, l, l1, Dispatch(spec, turn, l1, stepId, next, calls, at + 1), 0, 0);
    }
  }

  // --- A turn ----------------------------------------------------------------------------------------

  lemma {:induction false} PlannedSure(ok: (seq<Step>, Step) -> bool, spec: Spec, origin: State, turn: Turn, base: Loop, l: Loop,
                                       stepId: StepId, planned: seq<Call>)
    requires Sound(spec, origin, l) && Stands(spec, l, Tools(stepId, planned)) && Indexed(planned) && Sure(ok, base, l, 0)
    requires AllIn(planned[..0], Completed) && AllIn(planned[0..], Planned) && Admits(ok, spec, turn, origin, Sends(l.journal))
    ensures Sure(ok, base, Close(spec, DispatchAll(spec, turn, l, stepId, planned, Calls(turn))), 0)
  {
    var l1 := DispatchAll(spec, turn, l, stepId, planned, Calls(turn));
    DispatchSure(ok, spec, origin, turn, l, stepId, planned, 0);
    SureTrans(ok, base, l, l1, 0, 0);
    CloseSure(ok, spec, l1);
    SureTrans(ok, base, l1, Close(spec, l1), 0, 0);
  }

  /** What a settlement plans is what the turn's calls ask. */
  lemma {:induction false} SettlementPlans(spec: Spec, origin: State, turn: Turn, l: Loop, h: Heard, usageId: nat, boundary: nat, stepId: StepId)
    requires l.rec == Replay(origin, l.journal) && Hearing.Says(h, turn.stream) && LastReason(turn.stream) == ToolUse
    requires PositionOf(l.rec, spec.runId).Some? && PositionOf(l.rec, spec.runId).value.RequestPending?
    ensures var tx := SettleTx(spec, h, usageId, boundary, Tools(stepId, PlanCalls(Proposed(spec, h.calls))));
      Deed(spec, turn, origin, l.journal, Step.Commit(Writes(spec.runId, tx)))
  {
    var planned := PlanCalls(Proposed(spec, h.calls));
    var tx := SettleTx(spec, h, usageId, boundary, Tools(stepId, planned));
    LastWrite(spec.runId, tx);
    NothingKeyed(spec.runId, tx);
    assert PlansAsAsked(spec, turn, origin, l.journal, planned);
    assert PlannedBy(Step.Commit(Writes(spec.runId, tx))) == Some(planned);
  }

  lemma {:induction false} LastWrite(run: string, tx: Tx)
    requires tx.position.Some?
    ensures var writes := Writes(run, tx);
      writes != [] && writes[|writes| - 1] == SetPosition(run, tx.position.value)
  {
  }

  lemma {:induction false} ToolsSure(ok: (seq<Step>, Step) -> bool, spec: Spec, origin: State, turn: Turn, l: Loop, h: Heard,
                                     from: nat, usageId: nat, boundary: nat)
    requires HeardOut(spec, origin, l, h, from, usageId) && Admits(ok, spec, turn, origin, Sends(l.journal))
    requires Hearing.Says(h, turn.stream) && LastReason(turn.stream) == ToolUse
    ensures Sure(ok, l, UseTools(spec, turn, l, h, usageId, boundary), 0)
  {
    var stepId, planned := StepId(spec.runId, l.norm.seqNo), PlanCalls(Proposed(spec, h.calls));
    PlanKeeps(spec, origin, l, h, from, usageId, boundary);
    SettlementPlans(spec, origin, turn, l, h, usageId, boundary, stepId);
    TellsSure(ok, spec, l, SettleTx(spec, h, usageId, boundary, Tools(stepId, planned)), h.durable);
    PlannedSure(ok, spec, origin, turn, l, PlanCallsFor(spec, l, h, usageId, boundary), stepId, planned);
  }

  lemma {:induction false} PlainSure(ok: (seq<Step>, Step) -> bool, spec: Spec, l: Loop, h: Heard, usageId: nat, boundary: nat, action: Action)
    requires Lenient(ok)
    ensures Sure(ok, l, Conclude(spec, PutDown(spec, l, h, usageId, boundary, Record.Checkpoint), action, ReasonOf(h)), 0)
  {
    var l1 := PutDown(spec, l, h, usageId, boundary, Record.Checkpoint);
    FileTellSure(ok, spec, l, SettleTx(spec, h, usageId, boundary, Record.Checkpoint), h.durable);
    ConcludeSure(ok, spec, l1, action, ReasonOf(h));
    SureTrans(ok, l, l1, Conclude(spec, l1, action, ReasonOf(h)), 0, 0);
  }

  /** What holds of either way to settle holds of a settlement. */
  lemma {:induction false} SettlesEither(so: Loop -> bool, spec: Spec, turn: Turn, l: Loop, h: Heard, usageId: nat, boundary: nat)
    requires var l0 := l.(usage := AddUsage(l.usage, h.usage));
      if ReasonOf(h) == ToolUse then so(UseTools(spec, turn, l0, h, usageId, boundary))
      else so(Conclude(spec, PutDown(spec, l0, h, usageId, boundary, Record.Checkpoint), Decide(ReasonOf(h), l.attempt), ReasonOf(h)))
    ensures so(Settle(spec, turn, l, h, usageId, boundary))
  {
  }

  ghost function SureFrom(ok: (seq<Step>, Step) -> bool, l: Loop): Loop -> bool {
    (m: Loop) => Sure(ok, l, m, 0)
  }

  lemma {:induction false} SettleSure(ok: (seq<Step>, Step) -> bool, spec: Spec, origin: State, turn: Turn, l: Loop, h: Heard,
                                      from: nat, usageId: nat, boundary: nat)
    requires HeardOut(spec, origin, l, h, from, usageId) && Admits(ok, spec, turn, origin, Sends(l.journal)) && Hearing.Says(h, turn.stream)
    ensures Sure(ok, l, Settle(spec, turn, l, h, usageId, boundary), 0)
  {
    var l0 := l.(usage := AddUsage(l.usage, h.usage));
    if LastReason(turn.stream) == ToolUse {
      ToolsSure(ok, spec, origin, turn, l0, h, from, usageId, boundary);
    } else {
      PlainSure(ok, spec, l0, h, usageId, boundary, Decide(ReasonOf(h), l.attempt));
    }
    SettlesEither(SureFrom(ok, l0), spec, turn, l, h, usageId, boundary);
  }

  lemma {:induction false} AwaitSure(ok: (seq<Step>, Step) -> bool, spec: Spec, origin: State, turn: Turn, base: Loop, l: Loop, request: Request, usageId: nat)
    requires Pending(spec, origin, l, request, usageId) && Admits(ok, spec, turn, origin, Sends(base.journal) + 1) && ok(l.journal, Sent(request))
    requires Sure(ok, base, l, 0) && l.norm.blocks == map[]
    ensures Sure(ok, base, Await(spec, turn, l, request, usageId), 1)
  {
    var h := Hear(l.norm, turn.stream);
    ListenKeeps(spec, origin, l, request, h, turn.stream);
    ListenSure(ok, base, l, request, h, turn.stream);
    HeardSure(ok, spec, origin, turn, base, Listen(l, request, h), h, l.norm, usageId);
  }

  lemma {:induction false} HeardSure(ok: (seq<Step>, Step) -> bool, spec: Spec, origin: State, turn: Turn, base: Loop, l: Loop, h: Heard, n: Norm,
                                     usageId: nat)
    requires HeardOut(spec, origin, l, h, n.seqNo, usageId) && h == Hear(n, turn.stream) && n.blocks == map[]
    requires Sure(ok, base, l, 1) && Admits(ok, spec, turn, origin, Sends(l.journal))
    ensures Sure(ok, base, HeardThen(spec, turn, l, h, usageId), 1)
  {
    Hearing.HearsStream(n, turn.stream);
    if h.broke || turn.broke {
      BrokenSure(ok, spec, turn, l);
    } else {
      SettleSure(ok, spec, origin, turn, l, h, n.seqNo, usageId, |l.rec.entries|);
    }
    SureTrans(ok, base, l, HeardThen(spec, turn, l, h, usageId), 1, 0);
  }

  lemma {:induction false} IntendQuiet(spec: Spec, turn: Turn, l: Loop, request: Request)
    ensures Intend(spec, turn, l, request).norm.blocks == l.norm.blocks
  {
  }

  /** A request that suits the record may be sent. */
  ghost predicate AdmitsAsking(ok: (seq<Step>, Step) -> bool, spec: Spec, origin: State) {
    forall j, r :: RequestLaws.Suits(spec, Replay(origin, j), r) ==> ok(j, Sent(r))
  }

  /** Once its intent is on the record the request still suits it. */
  lemma {:induction false} IntentSuits(spec: Spec, origin: State, turn: Turn, l: Loop)
    requires Standing(spec, origin, l) && l.ended.None?
    ensures var request := RequestFor(spec, l.rec);
      RequestLaws.Suits(spec, Intend(spec, turn, l, request).rec, request)
  {
    IntendKnows(spec, origin, turn, l);
    RequestLaws.AskedSuits(spec, l.rec);
    SuitsAlike(spec, l.rec, Intend(spec, turn, l, RequestFor(spec, l.rec)).rec, RequestFor(spec, l.rec));
  }

  lemma {:induction false} SuitsAlike(spec: Spec, a: State, b: State, r: Request)
    requires RequestLaws.Suits(spec, a, r) && Severed(spec, b.entries) == Severed(spec, a.entries)
    ensures RequestLaws.Suits(spec, b, r)
  {
    assert SurfaceFrom(EMPTY.(entries := a.entries), spec.surfaceFrom) == SurfaceFrom(a, spec.surfaceFrom);
    assert SurfaceFrom(EMPTY.(entries := b.entries), spec.surfaceFrom) == SurfaceFrom(b, spec.surfaceFrom);
  }

  lemma {:induction false} SendSure(ok: (seq<Step>, Step) -> bool, spec: Spec, origin: State, turn: Turn, l: Loop)
    requires Standing(spec, origin, l) && l.ended.None? && l.norm.blocks == map[]
    requires Admits(ok, spec, turn, origin, Sends(l.journal) + 1) && AdmitsAsking(ok, spec, origin)
    ensures Sure(ok, l, SendOne(spec, turn, l, RequestFor(spec, l.rec)), 1)
  {
    var request := RequestFor(spec, l.rec);
    IntendPends(spec, origin, turn, l);
    IntendSure(ok, spec, turn, l, request);
    IntendQuiet(spec, turn, l, request);
    IntentSuits(spec, origin, turn, l);
    AwaitSure(ok, spec, origin, turn, l, Intend(spec, turn, l, request), request, NextUsageId(l.rec.usage));
  }

  /** A turn that does not end the run has sent one request. */
  ghost predicate TurnSure(ok: (seq<Step>, Step) -> bool, l: Loop, m: Loop) {
    Sure(ok, l, m, 1) || (Sure(ok, l, m, 0) && m.ended.Some?)
  }

  lemma {:induction false} AskSure(ok: (seq<Step>, Step) -> bool, spec: Spec, origin: State, turn: Turn, l: Loop)
    requires Standing(spec, origin, l) && l.ended.None? && l.norm.blocks == map[]
    requires Admits(ok, spec, turn, origin, Sends(l.journal) + 1) && AdmitsAsking(ok, spec, origin)
    ensures TurnSure(ok, l, Ask(spec, turn, l))
  {
    if Refuses(spec, turn) {
      RefuseSure(ok, spec, l);
    } else {
      SendSure(ok, spec, origin, turn, l);
    }
  }

  lemma {:induction false} AbortSure(ok: (seq<Step>, Step) -> bool, spec: Spec, turn: Turn, l: Loop)
    requires Lenient(ok) && turn.abortedBefore
    ensures TurnSure(ok, l, Take(spec, turn, l))
  {
    EndSure(ok, spec, l, RunInterrupted, UserActor(spec), Interrupted, None, 0);
  }

  lemma {:induction false} TakeSure(ok: (seq<Step>, Step) -> bool, spec: Spec, origin: State, turn: Turn, l: Loop)
    requires Standing(spec, origin, l) && l.ended.None?
    requires Admits(ok, spec, turn, origin, Sends(l.journal) + 1) && AdmitsAsking(ok, spec, origin)
    ensures TurnSure(ok, l, Take(spec, turn, l))
  {
    if turn.abortedBefore {
      AbortSure(ok, spec, turn, l);
    } else {
      BeginStands(spec, origin, turn, l);
      AskSure(ok, spec, origin, turn, BeginsTurn(turn, l));
    }
  }

  // --- A run -------------------------------------------------------------------------------------------

  /** What the step does of its own is done as the turn whose request was the last one sent says; and a request suits the
      record. */
  ghost predicate MayBe(spec: Spec, world: nat -> Turn, origin: State, j: seq<Step>, step: Step) {
    || Light(step)
    || (step.Sent? && RequestLaws.Suits(spec, Replay(origin, j), step.request))
    || (Sends(j) > 0 && Deed(spec, world(Sends(j) - 1), origin, j, step))
  }

  ghost function AsMayBe(spec: Spec, world: nat -> Turn, origin: State): (seq<Step>, Step) -> bool {
    (j: seq<Step>, step: Step) => MayBe(spec, world, origin, j, step)
  }

  /** After `n` turns. */
  ghost predicate SoFar(spec: Spec, world: nat -> Turn, origin: State, n: nat, l: Loop) {
    && Standing(spec, origin, l) && Each(AsMayBe(spec, world, origin), l.journal)
    && (l.ended.None? ==> Sends(l.journal) == n)
  }

  lemma {:induction false} TakeKeepsSo(spec: Spec, world: nat -> Turn, origin: State, n: nat, b: Loop)
    requires SoFar(spec, world, origin, n, b) && b.ended.None?
    ensures SoFar(spec, world, origin, n + 1, Take(spec, world(n), b))
  {
    TakeStands(spec, origin, world(n), b);
    TakeSure(AsMayBe(spec, world, origin), spec, origin, world(n), b);
  }

  lemma {:induction false} IterateKeeps(take: (nat, Loop) -> Loop, kept: (nat, Loop) -> bool, l: Loop, n: nat)
    requires kept(0, l)
    requires forall i: nat, b :: kept(i, b) ==> kept(i + 1, if b.ended.Some? then b else take(i, b))
    ensures kept(n, Iterate(take, l, n))
  {
    if n > 0 {
      IterateKeeps(take, kept, l, n - 1);
      assert kept(n - 1 + 1, Iterate(take, l, n));
    }
  }

  lemma {:induction false} OpeningIsSo(spec: Spec, world: nat -> Turn, origin: State, inbox: seq<string>)
    requires Fresh(origin, spec.runId)
    ensures SoFar(spec, world, origin, 0, Opening(spec, Idle(origin, inbox)))
  {
    OpeningStands(spec, origin, inbox);
    OpeningSure(AsMayBe(spec, world, origin), spec, Idle(origin, inbox));
  }

  lemma {:induction false} OpeningSure(ok: (seq<Step>, Step) -> bool, spec: Spec, l: Loop)
    requires Lenient(ok)
    ensures Sure(ok, l, Opening(spec, l), 0)
  {
    var n0 := Norm(HighestSeq(l.rec.entries, spec.runId), "turn", map[]);
    var (n1, prompt) := Mint(n0, UserPrompt, UserActor(spec), NoPayload);
    var (n2, started) := Mint(n1, RunStarted, UserActor(spec), NoPayload);
    FileTellSure(ok, spec, l.(norm := n2, turns := 0, attempt := 0, usage := ZERO_USAGE, ended := None),
                 Filing([EntryFor(spec.runId, prompt, Some([TextBlock(spec.prompt)])), EntryFor(spec.runId, started, None)])
                 .(meta := Some(true), position := Some(Record.Checkpoint)), [prompt, started]);
  }

  lemma {:induction false} TurnsAre(spec: Spec, world: nat -> Turn, origin: State, inbox: seq<string>, n: nat)
    requires Fresh(origin, spec.runId)
    ensures SoFar(spec, world, origin, n, Turns(spec, world, Idle(origin, inbox), n))
  {
    var kept := (i: nat, b: Loop) => SoFar(spec, world, origin, i, b);
    var take := Taking(spec, world);
    OpeningIsSo(spec, world, origin, inbox);
    forall i: nat, b | kept(i, b) ensures kept(i + 1, if b.ended.Some? then b else take(i, b)) {
      if b.ended.None? {
        TakeKeepsSo(spec, world, origin, i, b);
      }
    }
    IterateKeeps(take, kept, Opening(spec, Idle(origin, inbox)), n);
  }

  lemma {:induction false} ExhaustSure(ok: (seq<Step>, Step) -> bool, spec: Spec, l: Loop)
    requires Lenient(ok)
    ensures Sure(ok, l, Exhaust(spec, l), 0)
  {
    EndSure(ok, spec, l, RunFailed, System, Failed, Some("max_tokens"), 0);
  }

  lemma {:induction false} RunIsAsItMayBe(spec: Spec, world: nat -> Turn, origin: State, inbox: seq<string>)
    requires Fresh(origin, spec.runId)
    ensures Each(AsMayBe(spec, world, origin), Run(spec, world, Idle(origin, inbox)).journal)
  {
    TurnsAre(spec, world, origin, inbox, MAX_TURNS);
    ExhaustSure(AsMayBe(spec, world, origin), spec, Turns(spec, world, Idle(origin, inbox), MAX_TURNS));
  }
}
