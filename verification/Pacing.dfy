/** How much a run may ask, and when it is stuck: the loop never sends more requests than turns, and its
    failure counter is exactly the length of the streak it stands for. */
module Pacing {
  import opened Json
  import opened Contract
  import opened Record
  import opened Checkpoint
  import opened Journal
  import opened Normalize
  import opened StopReasons
  import opened RunLoop
  import opened Protocol
  import opened RunLaws

  /** The count is the length of the trailing run of failures of one call with one input, and there
      is none just when the last call worked. */
  predicate Streak(repeated: Option<Repeat>, tried: seq<Tried>) {
    match repeated
    case None => tried == [] || tried[|tried| - 1].ok
    case Some(r) =>
      && 1 <= r.count <= |tried|
      && (forall i :: |tried| - r.count <= i < |tried| ==> tried[i] == Tried(r.key, false))
      && (r.count < |tried| ==> tried[|tried| - r.count - 1] != Tried(r.key, false))
  }

  lemma {:induction false} NoteStreaks(repeated: Option<Repeat>, tried: seq<Tried>, key: string, name: string, o: Outcome)
    requires Streak(repeated, tried)
    ensures Streak(Note(repeated, key, name, o), tried + [Tried(key, o.ok)])
  {
  }

  /** The trailing streak is one length only: the counter is a function of the history. */
  lemma {:induction false} OneStreak(a: Option<Repeat>, b: Option<Repeat>, tried: seq<Tried>)
    requires Streak(a, tried) && Streak(b, tried)
    ensures a.Some? <==> b.Some?
    ensures a.Some? ==> a.value.count == b.value.count && a.value.key == b.value.key
  {
    if a.Some? && b.Some? {
      assert tried[|tried| - 1] == Tried(a.value.key, false) == Tried(b.value.key, false);
    }
  }

  ghost predicate Files(writes: seq<Write>, run: string, e: Envelope) {
    exists blocks :: PutEntry(EntryFor(run, e, blocks)) in writes
  }

  /** The last transaction is a request's intent: the request may be on its way. */
  ghost predicate Awaiting(run: string, j: seq<Step>) {
    LastCommit(j).Some? && IsIntent(run, j[LastCommit(j).value])
  }

  /** What may be told now: what is live, or what the step just before put on the record, or, while a request is
      on its way, the error that broke its stream. */
  ghost predicate MayTell(run: string, j: seq<Step>, events: seq<Envelope>) {
    || AllLive(events)
    || (j != [] && j[|j| - 1].Commit? && forall i :: 0 <= i < |events| ==> Files(j[|j| - 1].writes, run, events[i]))
    || (|events| == 1 && events[0].etype == ProviderError && Awaiting(run, j))
  }

  ghost predicate Candid(run: string, j: seq<Step>) {
    forall k :: 0 <= k < |j| && j[k].Emit? ==> MayTell(run, j[..k], j[k].events)
  }

  lemma {:induction false} CandidNext(run: string, j: seq<Step>, step: Step)
    requires Candid(run, j) && (step.Emit? ==> MayTell(run, j, step.events))
    ensures Candid(run, j + [step])
  {
    var all := j + [step];
    forall k | 0 <= k < |all| && all[k].Emit? ensures MayTell(run, all[..k], all[k].events) {
      assert all[..k] == if k < |j| then j[..k] else j;
    }
  }

  /** Every request this step records the intent of is one of the resumes that are allowed. */
  predicate IntentPaced(step: Step) {
    step.Commit? ==> forall w :: w in step.writes && w.SetPosition? && w.position.RequestPending? ==> w.position.attempt <= MAX_PAUSE_RESUMES
  }

  predicate Paced(j: seq<Step>)
    decreases |j|
  {
    j == [] || (Paced(j[..|j| - 1]) && IntentPaced(j[|j| - 1]))
  }

  lemma {:induction false} PositionOfTx(run: string, tx: Tx, w: Write)
    requires w in Writes(run, tx) && w.SetPosition?
    ensures tx.position == Some(w.position)
  {
    BehindTwo(Puts(tx.entries), Ledgers(tx), Registers(run, tx), w);
    PositionOfRegisters(run, tx, w);
  }

  lemma {:induction false} BehindTwo(a: seq<Write>, b: seq<Write>, c: seq<Write>, w: Write)
    requires w in a + (b + c) && w !in a && w !in b
    ensures w in c
  {
  }

  lemma {:induction false} PositionOfRegisters(run: string, tx: Tx, w: Write)
    requires w in Registers(run, tx) && w.SetPosition?
    ensures tx.position == Some(w.position)
  {
    var meta := if tx.meta.Some? then [if tx.meta.value then SetMeta(run) else DelMeta(run)] else [];
    var result := if tx.result.Some? then [SetResult(run, tx.result.value)] else [];
    var position := if tx.position.Some? then [SetPosition(run, tx.position.value)] else [];
    assert Registers(run, tx) == meta + (result + position);
    BehindTwo(meta, result, position, w);
  }

  /** Nothing done is undone, the streak is kept, no more than so many requests are sent, and no request is
      one resume more in a row than is allowed. */
  ghost predicate Steady(spec: Spec, l: Loop, r: Loop, sends: nat) {
    && l.journal <= r.journal
    && Sends(r.journal) <= Sends(l.journal) + sends
    && (Streak(l.repeated, l.tried) ==> Streak(r.repeated, r.tried))
    && (l.attempt <= MAX_PAUSE_RESUMES && Paced(l.journal) ==> r.attempt <= MAX_PAUSE_RESUMES && Paced(r.journal))
    && (Candid(spec.runId, l.journal) ==> Candid(spec.runId, r.journal))
  }

  lemma {:induction false} SteadyTrans(spec: Spec, a: Loop, b: Loop, c: Loop, m: nat, n: nat)
    requires Steady(spec, a, b, m) && Steady(spec, b, c, n)
    ensures Steady(spec, a, c, m + n)
  {
  }

  lemma {:induction false} DoSteady(spec: Spec, l: Loop, step: Step)
    requires step.Emit? ==> MayTell(spec.runId, l.journal, step.events)
    requires l.attempt <= MAX_PAUSE_RESUMES ==> IntentPaced(step)
    ensures Steady(spec, l, Do(l, step), if step.Sent? then 1 else 0)
  {
    if Candid(spec.runId, l.journal) {
      CandidNext(spec.runId, l.journal, step);
    }
    assert (l.journal + [step])[..|l.journal|] == l.journal;
  }

  predicate AsksFor(tx: Tx, attempt: nat) {
    tx.position.Some? && tx.position.value.RequestPending? ==> tx.position.value.attempt == attempt
  }

  lemma {:induction false} FileSteady(spec: Spec, l: Loop, tx: Tx)
    requires AsksFor(tx, l.attempt)
    ensures Steady(spec, l, File(spec, l, tx), 0)
  {
    var step := Step.Commit(Writes(spec.runId, tx));
    if l.attempt <= MAX_PAUSE_RESUMES {
      forall w | w in step.writes && w.SetPosition? && w.position.RequestPending? ensures w.position.attempt <= MAX_PAUSE_RESUMES {
        PositionOfTx(spec.runId, tx, w);
      }
    }
    DoSteady(spec, l, step);
  }

  predicate Holds(run: string, es: seq<Entry>, events: seq<Envelope>) {
    |events| <= |es| && forall i :: 0 <= i < |events| ==> es[i] == EntryFor(run, events[i], es[i].blocks)
  }

  lemma {:induction false} FileTellSteady(spec: Spec, l: Loop, tx: Tx, events: seq<Envelope>)
    requires Holds(spec.runId, tx.entries, events) && AsksFor(tx, l.attempt)
    ensures Steady(spec, l, Tell(File(spec, l, tx), events), 0)
  {
    FileSteady(spec, l, tx);
    var m := File(spec, l, tx);
    forall i | 0 <= i < |events| ensures Files(Writes(spec.runId, tx), spec.runId, events[i]) {
      assert Writes(spec.runId, tx)[i] == PutEntry(tx.entries[i]);
      assert PutEntry(EntryFor(spec.runId, events[i], tx.entries[i].blocks)) in Writes(spec.runId, tx);
    }
    DoSteady(spec, m, Emit(events));
    SteadyTrans(spec, l, m, Tell(m, events), 0, 0);
  }

  lemma {:induction false} EndSteady(spec: Spec, l: Loop, etype: EventType, actor: Actor, outcome: Ending, reason: Option<string>, turns: nat)
    ensures Steady(spec, l, End(spec, l, etype, actor, outcome, reason, turns), 0)
  {
    var (n, e) := Mint(l.norm, etype, actor, Spend(l.usage));
    var tx := Filing([EntryFor(spec.runId, e, None)])
              .(meta := Some(false), result := Some(RunResult(outcome, false, reason)), position := Some(Terminal(outcome)));
    FileTellSteady(spec, l.(norm := n), tx, [e]);
  }

  lemma {:induction false} OpeningSteady(spec: Spec, l: Loop)
    ensures Steady(spec, l, Opening(spec, l), 0)
  {
    var n0 := Norm(HighestSeq(l.rec.entries, spec.runId), "turn", map[]);
    var (n1, prompt) := Mint(n0, UserPrompt, UserActor(spec), NoPayload);
    var (n2, started) := Mint(n1, RunStarted, UserActor(spec), NoPayload);
    var tx := Filing([EntryFor(spec.runId, prompt, Some([TextBlock(spec.prompt)])),
                      EntryFor(spec.runId, started, None)])
              .(meta := Some(true), position := Some(Record.Checkpoint));
    FileTellSteady(spec, l.(norm := n2, turns := 0, attempt := 0, usage := ZERO_USAGE, ended := None), tx, [prompt, started]);
  }

  lemma {:induction false} RefuseSteady(spec: Spec, l: Loop)
    ensures Steady(spec, l, Refuse(spec, l), 0)
  {
    var (n, e) := Mint(l.norm, ProviderError, System, NoPayload);
    var tx := Filing([EntryFor(spec.runId, e, None)]);
    FileTellSteady(spec, l.(norm := n), tx, [e]);
    EndSteady(spec, Tell(File(spec, l.(norm := n), tx), [e]), RunFailed, System, Failed, Some("refused"), 0);
  }

  lemma {:induction false} IntendSteady(spec: Spec, turn: Turn, l: Loop, request: Request)
    ensures Steady(spec, l, Intend(spec, turn, l, request), 0)
  {
    var snapshot := SnapshotOf(spec, turn, request);
    var position := RequestPending(RequestKey(spec.runId, turn.turnId, l.attempt),
                                   NextUsageId(l.rec.usage), turn.turnId, l.attempt);
    if l.lastSnapshot == Some(snapshot) {
      FileSteady(spec, l, Filing([]).(position := Some(position)));
    } else {
      var (n, header) := Mint(l.norm, RequestHeader, System,
                              Header(snapshot, Some(RequestBuilder.MessagesDigest(spec.codec, request.messages))));
      FileTellSteady(spec, l.(norm := n, lastSnapshot := Some(snapshot)),
                     Filing([EntryFor(spec.runId, header, None)]).(position := Some(position)), [header]);
    }
  }

  lemma {:induction false} IntendAwaits(spec: Spec, turn: Turn, l: Loop, request: Request)
    ensures Awaiting(spec.runId, Intend(spec, turn, l, request).journal)
  {
    var snapshot := SnapshotOf(spec, turn, request);
    var position := RequestPending(RequestKey(spec.runId, turn.turnId, l.attempt),
                                   NextUsageId(l.rec.usage), turn.turnId, l.attempt);
    if l.lastSnapshot == Some(snapshot) {
      FilingAwaits(spec.runId, l.journal, Filing([]).(position := Some(position)), []);
    } else {
      var (n, header) := Mint(l.norm, RequestHeader, System,
                              Header(snapshot, Some(RequestBuilder.MessagesDigest(spec.codec, request.messages))));
      FilingAwaits(spec.runId, l.journal, Filing([EntryFor(spec.runId, header, None)]).(position := Some(position)), [Emit([header])]);
    }
  }

  lemma {:induction false} FilingAwaits(run: string, j: seq<Step>, tx: Tx, told: seq<Step>)
    requires tx.position.Some? && tx.position.value.RequestPending?
    requires forall i :: 0 <= i < |told| ==> !told[i].Commit?
    ensures Awaiting(run, j + [Step.Commit(Writes(run, tx))] + told)
    ensures told == [] ==> Awaiting(run, j + [Step.Commit(Writes(run, tx))])
  {
    var filed := j + [Step.Commit(Writes(run, tx))];
    IntentOfTx(run, tx);
    assert LastCommit(filed) == Some(|j|);
    LastCommitStays(filed, told);
  }

  lemma {:induction false} LiveSteady(run: string, j: seq<Step>, live: seq<Step>)
    requires AllEmits(live)
    ensures Sends(j + live) == Sends(j) && (Candid(run, j) ==> Candid(run, j + live)) && (Paced(j) ==> Paced(j + live))
    decreases |live|
  {
    if live == [] {
      assert j + live == j;
    } else {
      var init, last := live[..|live| - 1], live[|live| - 1];
      assert j + live == j + init + [last] && (j + live)[..|j + live| - 1] == j + init;
      LiveSteady(run, j, init);
      if Candid(run, j) {
        CandidNext(run, j + init, last);
      }
    }
  }

  lemma {:induction false} BrokenSteady(spec: Spec, turn: Turn, l: Loop)
    requires Awaiting(spec.runId, l.journal)
    ensures Steady(spec, l, Broken(spec, turn, l), 0)
  {
    var (n, e) := Mint(l.norm, ProviderError, System, NoPayload);
    if turn.abortedDuring {
      EndSteady(spec, l.(norm := n), RunInterrupted, UserActor(spec), Interrupted, None, 0);
    } else {
      DoSteady(spec, l.(norm := n), Emit([e]));
      EndSteady(spec, Tell(l.(norm := n), [e]), RunFailed, System, Failed, Some(turn.fault), 0);
    }
  }

  lemma {:induction false} AnswerCallSteady(spec: Spec, l: Loop, stepId: StepId, position: seq<Call>, call: Call, input: Option<Value>, effect: Effect)
    ensures Steady(spec, l, AnswerCall(spec, l, stepId, position, call, input, effect), 0)
  {
    var told := Told(spec, call.name, effect);
    var (n, events) := CallEvents(spec, l.norm, call, effect);
    var key := FailureKey(spec.codec, call.name, input);
    FileTellSteady(spec, Noted(l, key, call.name, told).(norm := n), AnswerTx(spec, stepId, position, call, events, told), events);
    if Streak(l.repeated, l.tried) {
      NoteStreaks(l.repeated, l.tried, key, call.name, told);
    }
  }

  lemma {:induction false} DispatchOneSteady(spec: Spec, turn: Turn, l: Loop, stepId: StepId, position: seq<Call>, call: Call, calls: seq<ToolCall>)
    ensures Steady(spec, l, DispatchOne(spec, turn, l, stepId, position, call, calls), 0)
  {
    var effect := turn.effects(call.index);
    var input := InputOf(calls, call.toolUseId);
    if effect.gate.Refused? {
      var (n, e) := Mint(l.norm, ToolRefused, System, Tool(call.toolUseId));
      FileTellSteady(spec, l.(norm := n),
                     AnswerTx(spec, stepId, position, call, [e], Outcome(false, effect.gate.reason)), [e]);
    } else {
      StartCallSteady(spec, l, stepId, position, call, input, effect.gate);
      AnswerCallSteady(spec, StartCall(spec, l, stepId, position, call, input, effect.gate), stepId,
                       WithCallStatus(position, call.index, EffectPending), call, input, effect);
    }
  }

  lemma {:induction false} StartCallSteady(spec: Spec, l: Loop, stepId: StepId, position: seq<Call>, call: Call, input: Option<Value>, gate: Gate)
    ensures Steady(spec, l, StartCall(spec, l, stepId, position, call, input, gate), 0)
  {
    var tx := Filing([]).(args := Some(Args(stepId, call.index, OrNull(input))),
                          position := Some(Tools(stepId, WithCallStatus(position, call.index, EffectPending))));
    FileSteady(spec, l, tx);
    BegunSteady(spec, l, File(spec, l, tx), call, OrNull(EffectiveInput(gate, input)));
  }

  lemma {:induction false} BegunSteady(spec: Spec, base: Loop, l: Loop, call: Call, input: Value)
    requires Steady(spec, base, l, 0)
    ensures Steady(spec, base, Do(l, Began(call.toolUseId, input)), 0)
  {
    DoSteady(spec, l, Began(call.toolUseId, input));
    SteadyTrans(spec, base, l, Do(l, Began(call.toolUseId, input)), 0, 0);
  }

  lemma {:induction false} DispatchSteady(spec: Spec, turn: Turn, l: Loop, stepId: StepId, position: seq<Call>, calls: seq<ToolCall>, at: nat)
    ensures Steady(spec, l, Dispatch(spec, turn, l, stepId, position, calls, at), 0)
    decreases |position| - at
  {
    if at < |position| {
      DispatchOneSteady(spec, turn, l, stepId, position, position[at], calls);
      DispatchSteady(spec, turn, DispatchOne(spec, turn, l, stepId, position, position[at], calls), stepId,
                     WithCallStatus(position, position[at].index, Completed), calls, at + 1);
    }
  }

  lemma {:induction false} PutDownSteady(spec: Spec, l: Loop, h: Heard, usageId: nat, boundary: nat, next: Position)
    requires !next.RequestPending?
    ensures Steady(spec, l, PutDown(spec, l, h, usageId, boundary, next), 0)
  {
    FileTellSteady(spec, l, SettleTx(spec, h, usageId, boundary, next), h.durable);
  }

  lemma {:induction false} UseToolsSteady(spec: Spec, turn: Turn, l: Loop, h: Heard, usageId: nat, boundary: nat)
    ensures Steady(spec, l, UseTools(spec, turn, l, h, usageId, boundary), 0)
  {
    var stepId, planned := StepId(spec.runId, l.norm.seqNo), PlanCalls(Proposed(spec, h.calls));
    PutDownSteady(spec, l, h, usageId, boundary, Tools(stepId, planned));
    PlannedSteady(spec, turn, l, PlanCallsFor(spec, l, h, usageId, boundary), stepId, planned, h.calls);
  }

  lemma {:induction false} PlannedSteady(spec: Spec, turn: Turn, base: Loop, l: Loop, stepId: StepId, planned: seq<Call>, calls: seq<ToolCall>)
    requires Steady(spec, base, l, 0)
    ensures Steady(spec, base, Close(spec, DispatchAll(spec, turn, l, stepId, planned, calls)), 0)
  {
    var l1 := DispatchAll(spec, turn, l, stepId, planned, calls);
    DispatchSteady(spec, turn, l, stepId, planned, calls, 0);
    SteadyTrans(spec, base, l, l1, 0, 0);
    CloseSteady(spec, l1);
    SteadyTrans(spec, base, l1, Close(spec, l1), 0, 0);
  }

  lemma {:induction false} CloseSteady(spec: Spec, l: Loop)
    ensures Steady(spec, l, Close(spec, l), 0)
  {
    var tx := Filing([]).(position := Some(Record.Checkpoint));
    FileSteady(spec, l, tx);
    EndSteady(spec, File(spec, l, tx), RunFailed, System, Failed, Some("api_error"), 0);
  }

  lemma {:induction false} ConcludeSteady(spec: Spec, l: Loop, action: Action, reason: StopReason)
    requires action.Resume? ==> action.attempt <= MAX_PAUSE_RESUMES
    ensures Steady(spec, l, Conclude(spec, l, action, reason), 0)
  {
    if action.SettleFailed? {
      EndSteady(spec, l, RunFailed, System, Failed, Some(ReasonName(reason)), 0);
    } else if |l.inbox| > 0 {
      var (n, events) := MintPrompts(spec, l.norm, l.inbox);
      OnePromptEach(spec, l.norm, l.inbox);
      FileTellSteady(spec, l.(norm := n, inbox := []),
                     Filing(Prompts(spec.runId, events, l.inbox)).(position := Some(Record.Checkpoint)), events);
    } else {
      EndSteady(spec, l, RunFinished, System, Finished, Some(ReasonName(reason)), l.turns);
    }
  }

  lemma {:induction false} SettleSteady(spec: Spec, turn: Turn, l: Loop, h: Heard, usageId: nat, boundary: nat)
    ensures Steady(spec, l, Settle(spec, turn, l, h, usageId, boundary), 0)
  {
    var l0 := l.(usage := AddUsage(l.usage, h.usage));
    if Decide(ReasonOf(h), l.attempt).DispatchTools? {
      UseToolsSteady(spec, turn, l0, h, usageId, boundary);
    } else {
      PlainSteady(spec, l0, h, usageId, boundary, Decide(ReasonOf(h), l.attempt));
    }
  }

  lemma {:induction false} PlainSteady(spec: Spec, l: Loop, h: Heard, usageId: nat, boundary: nat, action: Action)
    requires action.Resume? ==> action.attempt <= MAX_PAUSE_RESUMES
    ensures Steady(spec, l, Conclude(spec, PutDown(spec, l, h, usageId, boundary, Record.Checkpoint), action, ReasonOf(h)), 0)
  {
    var l1 := PutDown(spec, l, h, usageId, boundary, Record.Checkpoint);
    PutDownSteady(spec, l, h, usageId, boundary, Record.Checkpoint);
    ConcludeSteady(spec, l1, action, ReasonOf(h));
    SteadyTrans(spec, l, l1, Conclude(spec, l1, action, ReasonOf(h)), 0, 0);
  }

  /** One turn sends at most one request. */
  lemma {:induction false} TakeSteady(spec: Spec, turn: Turn, l: Loop)
    ensures Steady(spec, l, Take(spec, turn, l), 1)
  {
    if turn.abortedBefore {
      EndSteady(spec, l, RunInterrupted, UserActor(spec), Interrupted, None, 0);
    } else {
      AskSteady(spec, turn, BeginsTurn(turn, l));
    }
  }

  lemma {:induction false} AskSteady(spec: Spec, turn: Turn, l: Loop)
    ensures Steady(spec, l, Ask(spec, turn, l), 1)
  {
    if Refuses(spec, turn) {
      RefuseSteady(spec, l);
    } else {
      SendOneSteady(spec, turn, l, RequestFor(spec, l.rec));
    }
  }

  lemma {:induction false} SendOneSteady(spec: Spec, turn: Turn, l: Loop, request: Request)
    ensures Steady(spec, l, SendOne(spec, turn, l, request), 1)
  {
    IntendSteady(spec, turn, l, request);
    IntendAwaits(spec, turn, l, request);
    AwaitSteady(spec, turn, l, Intend(spec, turn, l, request), request, NextUsageId(l.rec.usage));
  }

  lemma {:induction false} AwaitSteady(spec: Spec, turn: Turn, base: Loop, l: Loop, request: Request, usageId: nat)
    requires Steady(spec, base, l, 0) && Awaiting(spec.runId, l.journal)
    ensures Steady(spec, base, Await(spec, turn, l, request, usageId), 1)
  {
    var h := Hear(l.norm, turn.stream);
    ListenSteady(spec, l, request, h, turn.stream);
    SteadyTrans(spec, base, l, Listen(l, request, h), 0, 1);
    if h.broke || turn.broke {
      BrokenSteady(spec, turn, Listen(l, request, h));
    } else {
      SettleSteady(spec, turn, Listen(l, request, h), h, usageId, |l.rec.entries|);
    }
  }

  lemma {:induction false} ListenSteady(spec: Spec, l: Loop, request: Request, h: Heard, events: seq<ProviderEvent>)
    requires h == Hear(l.norm, events)
    ensures Steady(spec, l, Listen(l, request, h), 1)
    ensures Awaiting(spec.runId, l.journal) ==> Awaiting(spec.runId, Listen(l, request, h).journal)
  {
    HearNumbers(l.norm, events);
    DoSteady(spec, l, Sent(request));
    LiveSteady(spec.runId, Do(l, Sent(request)).journal, h.live);
    LastCommitStays(l.journal, [Sent(request)]);
    LastCommitStays(l.journal + [Sent(request)], h.live);
  }

  lemma {:induction false} IterateSteady(spec: Spec, take: (nat, Loop) -> Loop, l: Loop, n: nat)
    requires forall i, b :: Steady(spec, b, take(i, b), 1)
    ensures Steady(spec, l, Iterate(take, l, n), n)
  {
    if n > 0 {
      IterateSteady(spec, take, l, n - 1);
      var before := Iterate(take, l, n - 1);
      assert Steady(spec, before, take(n - 1, before), 1);
    }
  }

  lemma {:induction false} TakingSteady(spec: Spec, world: nat -> Turn)
    ensures forall i, b :: Steady(spec, b, Taking(spec, world)(i, b), 1)
  {
    forall i, b ensures Steady(spec, b, Taking(spec, world)(i, b), 1) {
      TakeSteady(spec, world(i), b);
    }
  }

  lemma {:induction false} ExhaustSteady(spec: Spec, l: Loop)
    ensures Steady(spec, l, Exhaust(spec, l), 0)
  {
    EndSteady(spec, l, RunFailed, System, Failed, Some("max_tokens"), 0);
  }

  lemma {:induction false} IterateGrows(spec: Spec, take: (nat, Loop) -> Loop, l: Loop, n: nat, m: nat)
    requires n <= m && forall i, b :: Steady(spec, b, take(i, b), 1)
    ensures Iterate(take, l, n).journal <= Iterate(take, l, m).journal
  {
    if n < m {
      IterateGrows(spec, take, l, n, m - 1);
      var before := Iterate(take, l, m - 1);
      assert Steady(spec, before, take(m - 1, before), 1);
    }
  }

  /** What the first turns did the run did. */
  lemma {:induction false} TurnsInRun(spec: Spec, world: nat -> Turn, l: Loop, n: nat)
    requires n <= MAX_TURNS
    ensures Turns(spec, world, l, n).journal <= Run(spec, world, l).journal
  {
    TakingSteady(spec, world);
    IterateGrows(spec, Taking(spec, world), Opening(spec, l), n, MAX_TURNS);
    ExhaustSteady(spec, Turns(spec, world, l, MAX_TURNS));
  }

  /** After any number of turns: no more requests sent than turns, no resume beyond the fifth in a row recorded,
      and the failure counter is the trailing streak. */
  lemma {:induction false} TurnsAreBounded(spec: Spec, world: nat -> Turn, rec: State, inbox: seq<string>, n: nat)
    ensures var m := Turns(spec, world, Idle(rec, inbox), n);
      Sends(m.journal) <= n && m.attempt <= 5 && Paced(m.journal) && Streak(m.repeated, m.tried) && Candid(spec.runId, m.journal)
  {
    OpeningSteady(spec, Idle(rec, inbox));
    TakingSteady(spec, world);
    IterateSteady(spec, Taking(spec, world), Opening(spec, Idle(rec, inbox)), n);
  }

  /** So a run sends at most a hundred requests, and every intent on its record is of at most the fifth resume
      of a paused turn in a row. */
  lemma {:induction false} RunIsBounded(spec: Spec, world: nat -> Turn, rec: State, inbox: seq<string>)
    ensures var m := Run(spec, world, Idle(rec, inbox));
      Sends(m.journal) <= 100 && m.attempt <= 5 && Paced(m.journal) && Streak(m.repeated, m.tried) && Candid(spec.runId, m.journal)
  {
    TurnsAreBounded(spec, world, rec, inbox, MAX_TURNS);
    ExhaustSteady(spec, Turns(spec, world, Idle(rec, inbox), MAX_TURNS));
  }

  lemma {:induction false} PacedAt(j: seq<Step>, k: nat)
    requires Paced(j) && k < |j|
    ensures IntentPaced(j[k])
    decreases |j|
  {
    if k < |j| - 1 {
      PacedAt(j[..|j| - 1], k);
    }
  }

  lemma {:induction false} ResumesAreBounded(spec: Spec, world: nat -> Turn, rec: State, inbox: seq<string>, k: nat, w: Write)
    requires var j := Run(spec, world, Idle(rec, inbox)).journal;
      k < |j| && j[k].Commit? && w in j[k].writes && w.SetPosition? && w.position.RequestPending?
    ensures w.position.attempt <= 5
  {
    RunIsBounded(spec, world, rec, inbox);
    PacedAt(Run(spec, world, Idle(rec, inbox)).journal, k);
  }

  /** A turn that used tools stops the run exactly when the last three calls tried were one call
      failing with one input. */
  lemma {:induction false} StopsWhenStuck(spec: Spec, l: Loop)
    requires Streak(l.repeated, l.tried) && l.ended.None?
    ensures Close(spec, l).ended.Some? <==>
      |l.tried| >= 3 && !l.tried[|l.tried| - 1].ok
      && l.tried[|l.tried| - 3] == l.tried[|l.tried| - 2] == l.tried[|l.tried| - 1]
  {
  }

  /** Two calls count as one repeated only if they are: while no name has a colon in it. */
  lemma {:induction false} SameKeySameCall(codec: Codec, a: string, x: Option<Value>, b: string, y: Option<Value>)
    requires codec.Lawful() && ':' !in a && ':' !in b
    requires FailureKey(codec, a, x) == FailureKey(codec, b, y)
    ensures a == b && OrNull(x) == OrNull(y)
  {
    var k, m := FailureKey(codec, a, x), FailureKey(codec, b, y);
    assert k[|a|] == ':' && m[|b|] == ':';
    assert forall i :: 0 <= i < |a| ==> k[i] == a[i] && a[i] in a;
    assert forall i :: 0 <= i < |b| ==> m[i] == b[i] && b[i] in b;
    assert a == k[..|a|] && b == m[..|b|];
    assert k[|a| + 1..] == codec.stringify(OrNull(x)) && m[|b| + 1..] == codec.stringify(OrNull(y));
    assert codec.parse(codec.stringify(OrNull(x))) == Some(OrNull(x));
  }
}
