/** Every run does what its script says, step for step. */
module Scripted {
  import opened Json
  import opened Contract
  import opened Record
  import opened Checkpoint
  import opened Journal
  import opened Normalize
  import opened StopReasons
  import opened RunLoop
  import opened World
  import opened Hearing
  import opened Protocol
  import opened RunLaws
  import opened Runs
  import opened Story
  import opened Endings
  import opened Script
  import Overheard
  import Deeds
  import Conduct
  import Effects
  import Pacing
  import TurnLaws
  import RequestBuilder

  // --- Lines one by one ---------------------------------------------------------------------------

  /** The steps from `l` to `m` read so. */
  ghost predicate Adds(l: Loop, m: Loop, lines: seq<Line>) {
    Lines(m.journal) == Lines(l.journal) + lines
  }

  lemma {:induction false} AddsTrans(a: Loop, b: Loop, c: Loop, x: seq<Line>, y: seq<Line>)
    requires Adds(a, b, x) && Adds(b, c, y)
    ensures Adds(a, c, x + y)
  {
    Three(Lines(a.journal), x, y);
  }

  lemma {:induction false} LinesConcat(a: seq<Step>, b: seq<Step>)
    ensures Lines(a + b) == Lines(a) + Lines(b)
  {
  }

  lemma {:induction false} DoAdds(l: Loop, step: Step)
    ensures Adds(l, Do(l, step), [LineOf(step)])
  {
    LinesConcat(l.journal, [step]);
    assert Lines([step]) == [LineOf(step)];
  }

  lemma {:induction false} NumberedConcat(a: seq<Write>, b: seq<Write>)
    ensures Numbered(a + b) == Numbered(a) + Numbered(b)
    decreases |b|
  {
    if b == [] {
      assert a + b == a;
    } else {
      assert (a + b)[..|a + b| - 1] == a + b[..|b| - 1];
      NumberedConcat(a, b[..|b| - 1]);
    }
  }

  lemma {:induction false} NoneNumbered(writes: seq<Write>)
    requires forall i :: 0 <= i < |writes| ==> !writes[i].PutEntry?
    ensures Numbered(writes) == []
    decreases |writes|
  {
    if writes != [] {
      NoneNumbered(writes[..|writes| - 1]);
    }
  }

  lemma {:induction false} LedgersFile(tx: Tx)
    ensures forall i :: 0 <= i < |Ledgers(tx)| ==> !Ledgers(tx)[i].PutEntry? && !Ledgers(tx)[i].SetPosition?
  {
  }

  lemma {:induction false} RegistersFile(run: string, tx: Tx)
    ensures forall i :: 0 <= i < |Registers(run, tx)| ==> !Registers(run, tx)[i].PutEntry?
    ensures tx.position.None? ==> forall i :: 0 <= i < |Registers(run, tx)| ==> !Registers(run, tx)[i].SetPosition?
  {
  }

  lemma {:induction false} TxNumbered(run: string, tx: Tx)
    ensures Numbered(Writes(run, tx)) == Numbered(Puts(tx.entries))
  {
    LedgersFile(tx);
    RegistersFile(run, tx);
    NumberedConcat(Puts(tx.entries), Ledgers(tx) + Registers(run, tx));
    NumberedConcat(Ledgers(tx), Registers(run, tx));
    NoneNumbered(Ledgers(tx));
    NoneNumbered(Registers(run, tx));
  }

  lemma {:induction false} TxMoves(run: string, tx: Tx)
    requires tx.position.None?
    ensures var writes := Writes(run, tx);
      forall i :: 0 <= i < |writes| ==> !writes[i].SetPosition?
  {
    LedgersFile(tx);
    RegistersFile(run, tx);
  }

  lemma {:induction false} TxLine(run: string, tx: Tx)
    ensures LineOf(Step.Commit(Writes(run, tx)))
      == Files(Numbered(Puts(tx.entries)), if tx.position.Some? then Some(StandOf(tx.position.value)) else None)
  {
    TxNumbered(run, tx);
    if tx.position.Some? {
      Conduct.LastWrite(run, tx);
    } else {
      TxMoves(run, tx);
    }
  }

  /** Entries of events, each numbered. */
  lemma {:induction false} NumberedAre(run: string, es: seq<Entry>, events: seq<Envelope>)
    requires |es| == |events|
    requires forall i :: 0 <= i < |es| ==> es[i] == EntryFor(run, events[i], es[i].blocks) && events[i].seqNo.Some?
    ensures Numbered(Puts(es)) == Faces(events)
    decreases |es|
  {
    if es != [] {
      var init, last := es[..|es| - 1], events[..|events| - 1];
      assert Puts(es)[..|es| - 1] == Puts(init);
      NumberedAre(run, init, last);
      assert Faces(events) == Faces(last) + [Faces(events)[|events| - 1]];
    }
  }

  lemma {:induction false} FileAdds(spec: Spec, l: Loop, tx: Tx, faces: seq<Face>)
    requires Numbered(Puts(tx.entries)) == faces
    ensures Adds(l, File(spec, l, tx), [Files(faces, if tx.position.Some? then Some(StandOf(tx.position.value)) else None)])
  {
    TxLine(spec.runId, tx);
    DoAdds(l, Step.Commit(Writes(spec.runId, tx)));
  }

  lemma {:induction false} SayAdds(spec: Spec, l: Loop, tx: Tx, events: seq<Envelope>)
    requires Numbered(Puts(tx.entries)) == Faces(events)
    ensures Adds(l, Tell(File(spec, l, tx), events), Say(Faces(events), if tx.position.Some? then Some(StandOf(tx.position.value)) else None))
  {
    var m := File(spec, l, tx);
    FileAdds(spec, l, tx, Faces(events));
    DoAdds(m, Emit(events));
    var stands := if tx.position.Some? then Some(StandOf(tx.position.value)) else None;
    AddsTrans(l, m, Tell(m, events), [Files(Faces(events), stands)], [Script.Tells(Faces(events))]);
    assert [Files(Faces(events), stands)] + [Script.Tells(Faces(events))] == Say(Faces(events), stands);
  }

  // --- Opening and ending -------------------------------------------------------------------------

  /** One event, filed and told. */
  lemma {:induction false} OneAdds(spec: Spec, l: Loop, tx: Tx, e: Envelope)
    requires tx.entries == [EntryFor(spec.runId, e, None)] && e.seqNo.Some?
    ensures Adds(l, Tell(File(spec, l, tx), [e]), Say([FaceOf(e.etype, e.actor, e.payload)], if tx.position.Some? then Some(StandOf(tx.position.value)) else None))
  {
    NumberedAre(spec.runId, tx.entries, [e]);
    SayAdds(spec, l, tx, [e]);
    assert Faces([e]) == [FaceOf(e.etype, e.actor, e.payload)];
  }

  lemma {:induction false} EndSays(spec: Spec, l: Loop, etype: EventType, actor: Actor, outcome: Ending, reason: Option<string>, turns: nat)
    requires !Ephemeral(etype)
    ensures Adds(l, End(spec, l, etype, actor, outcome, reason, turns), Say([Face(etype, actor, Spend(l.usage))], Some(AtEnd(outcome))))
  {
    var (n, e) := Mint(l.norm, etype, actor, Spend(l.usage));
    var tx := Filing([EntryFor(spec.runId, e, None)])
              .(meta := Some(false), result := Some(RunResult(outcome, false, reason)), position := Some(Terminal(outcome)));
    OneAdds(spec, l.(norm := n), tx, e);
  }

  lemma {:induction false} EndAdds(spec: Spec, l: Loop, t: Teller, etype: EventType, actor: Actor, outcome: Ending, reason: Option<string>, turns: nat)
    requires l.usage == Sum(t.spent) && EndsWith(spec, Envelope(None, etype, actor, NoPayload), outcome)
    ensures Adds(l, End(spec, l, etype, actor, outcome, reason, turns), EndLines(spec, t, outcome))
  {
    EndSays(spec, l, etype, actor, outcome, reason, turns);
  }

  lemma {:induction false} RefuseAdds(spec: Spec, l: Loop, t: Teller)
    requires l.usage == Sum(t.spent)
    ensures Adds(l, Refuse(spec, l), Say([TROUBLE], None) + EndLines(spec, t, Failed))
  {
    var (n, e) := Mint(l.norm, ProviderError, System, NoPayload);
    var tx := Filing([EntryFor(spec.runId, e, None)]);
    var m := Tell(File(spec, l.(norm := n), tx), [e]);
    OneAdds(spec, l.(norm := n), tx, e);
    EndAdds(spec, m, t, RunFailed, System, Failed, Some("refused"), 0);
    AddsTrans(l, m, Fail(spec, m, "refused"), Say([TROUBLE], None), EndLines(spec, t, Failed));
  }

  lemma {:induction false} OpeningAdds(spec: Spec, origin: State, inbox: seq<string>)
    ensures Lines(Opening(spec, Idle(origin, inbox)).journal)
      == Say([Face(UserPrompt, Human(spec), NoPayload), Face(RunStarted, Human(spec), NoPayload)], Some(AtCheckpoint))
  {
    var l := Idle(origin, inbox);
    var n0 := Norm(HighestSeq(l.rec.entries, spec.runId), "turn", map[]);
    var (n1, prompt) := Mint(n0, UserPrompt, UserActor(spec), NoPayload);
    var (n2, started) := Mint(n1, RunStarted, UserActor(spec), NoPayload);
    var tx := Filing([EntryFor(spec.runId, prompt, Some([TextBlock(spec.prompt)])), EntryFor(spec.runId, started, None)])
              .(meta := Some(true), position := Some(Record.Checkpoint));
    NumberedAre(spec.runId, tx.entries, [prompt, started]);
    SayAdds(spec, l.(norm := n2, turns := 0, attempt := 0, usage := ZERO_USAGE, ended := None), tx, [prompt, started]);
    assert Faces([prompt, started]) == [Face(UserPrompt, Human(spec), NoPayload), Face(RunStarted, Human(spec), NoPayload)];
    assert Lines([]) == [];
  }

  // --- Asking and listening --------------------------------------------------------------------------

  /** The snapshot last stated is the one of this credential. */
  predicate Last(spec: Spec, l: Loop, last: Option<string>) {
    l.lastSnapshot == if last.Some? then Some(SnapshotWith(spec, last.value)) else None
  }

  lemma {:induction false} IntendAdds(spec: Spec, turn: Turn, l: Loop, t: Teller, last: Option<string>, request: Request)
    requires request.tools == spec.tools && Last(spec, l, last) && l.attempt == t.attempt
    ensures Adds(l, Intend(spec, turn, l, request), IntentLines(spec, turn, t, last))
  {
    var snapshot := SnapshotOf(spec, turn, request);
    var position := RequestPending(RequestKey(spec.runId, turn.turnId, l.attempt),
                                   NextUsageId(l.rec.usage), turn.turnId, l.attempt);
    if l.lastSnapshot == Some(snapshot) {
      FileAdds(spec, l, Filing([]).(position := Some(position)), []);
    } else {
      var (n, header) := Mint(l.norm, RequestHeader, System,
                              Header(snapshot, Some(RequestBuilder.MessagesDigest(spec.codec, request.messages))));
      var tx := Filing([EntryFor(spec.runId, header, None)]).(position := Some(position));
      OneAdds(spec, l.(norm := n, lastSnapshot := Some(snapshot)), tx, header);
    }
  }

  lemma {:induction false} ListenAdds(l: Loop, request: Request, h: Heard, events: seq<ProviderEvent>)
    requires h == Hear(l.norm, events) && l.norm.blocks == map[]
    ensures Adds(l, Listen(l, request, h), [Asks] + LiveLines(l.norm.turnId, Legibly(events)))
  {
    Overheard.HearsScript(l.norm, events);
    DoAdds(l, Sent(request));
    LinesConcat(l.journal + [Sent(request)], h.live);
    Three(Lines(l.journal), [Asks], LiveLines(l.norm.turnId, Legibly(events)));
  }

  lemma {:induction false} BrokenAdds(spec: Spec, turn: Turn, l: Loop, t: Teller)
    requires l.usage == Sum(t.spent)
    ensures Adds(l, Broken(spec, turn, l), BrokenLines(spec, turn, t))
  {
    var (n, e) := Mint(l.norm, ProviderError, System, NoPayload);
    var l1 := l.(norm := n);
    if turn.abortedDuring {
      EndAdds(spec, l1, t, RunInterrupted, UserActor(spec), Interrupted, None, 0);
    } else {
      DoAdds(l1, Emit([e]));
      assert Faces([e]) == [TROUBLE];
      EndAdds(spec, Tell(l1, [e]), t, RunFailed, System, Failed, Some(turn.fault), 0);
      AddsTrans(l1, Tell(l1, [e]), Fail(spec, Tell(l1, [e]), turn.fault), [Script.Tells([TROUBLE])], EndLines(spec, t, Failed));
    }
  }

  // --- Calls ---------------------------------------------------------------------------------------------

  lemma {:induction false} AnswerNumbered(spec: Spec, stepId: StepId, position: seq<Call>, call: Call, events: seq<Envelope>, o: Outcome)
    requires forall i :: 0 <= i < |events| ==> events[i].seqNo.Some?
    ensures Numbered(Puts(AnswerTx(spec, stepId, position, call, events, o).entries)) == Faces(events)
  {
    var es, answer := Plain(spec.runId, events), AnswerEntry(spec.runId, call, o.text, !o.ok);
    assert Puts(es + [answer]) == Puts(es) + [PutEntry(answer)];
    assert (Puts(es) + [PutEntry(answer)])[..|es|] == Puts(es);
    NumberedAre(spec.runId, es, events);
  }

  lemma {:induction false} AnswerAdds(spec: Spec, l: Loop, stepId: StepId, position: seq<Call>, call: Call, events: seq<Envelope>, o: Outcome)
    requires forall i :: 0 <= i < |events| ==> events[i].seqNo.Some?
    ensures Adds(l, Tell(File(spec, l, AnswerTx(spec, stepId, position, call, events, o)), events), Say(Faces(events), Some(AtTools)))
  {
    AnswerNumbered(spec, stepId, position, call, events, o);
    SayAdds(spec, l, AnswerTx(spec, stepId, position, call, events, o), events);
  }

  lemma {:induction false} NoiseFaces(n: Norm, id: string, noise: seq<Noise>)
    ensures var events := MintNoise(n, id, noise).1;
      && |events| == |noise|
      && forall i :: 0 <= i < |events| ==>
           && events[i].seqNo.Some? && events[i].actor == Claude && events[i].payload == Tool(id)
           && events[i].etype == if noise[i].Output? then TerminalOutput else FileChanged
    decreases |noise|
  {
    if noise != [] {
      NoiseFaces(n, id, noise[..|noise| - 1]);
    }
  }

  lemma {:induction false} EventFaces(spec: Spec, turn: Turn, calls: seq<ToolCall>, at: nat, n: Norm, call: Call)
    requires at < |calls| && call.toolUseId == calls[at].id && call.name == calls[at].name && !turn.effects(at).gate.Refused?
    ensures var events := CallEvents(spec, n, call, turn.effects(at)).1;
      Faces(events) == CallFaces(spec, turn, calls, at) && forall i :: 0 <= i < |events| ==> events[i].seqNo.Some?
  {
    NoiseFaces(n, call.toolUseId, if spec.knows(call.name) then turn.effects(at).noise else []);
  }

  lemma {:induction false} AnswerCallAdds(spec: Spec, turn: Turn, calls: seq<ToolCall>, at: nat, l: Loop, stepId: StepId, position: seq<Call>,
                                          call: Call, input: Option<Value>)
    requires at < |calls| && call.toolUseId == calls[at].id && call.name == calls[at].name && !turn.effects(at).gate.Refused?
    ensures Adds(l, AnswerCall(spec, l, stepId, position, call, input, turn.effects(at)), Say(CallFaces(spec, turn, calls, at), Some(AtTools)))
  {
    var told := Told(spec, call.name, turn.effects(at));
    var (n, events) := CallEvents(spec, l.norm, call, turn.effects(at));
    EventFaces(spec, turn, calls, at, l.norm, call);
    AnswerAdds(spec, Noted(l, FailureKey(spec.codec, call.name, input), call.name, told).(norm := n), stepId, position, call, events, told);
  }

  lemma {:induction false} RefusedAdds(spec: Spec, turn: Turn, calls: seq<ToolCall>, at: nat, l: Loop, stepId: StepId, position: seq<Call>, call: Call)
    requires at < |calls| && call.toolUseId == calls[at].id && turn.effects(at).gate.Refused?
    ensures Adds(l, RefuseCall(spec, l, stepId, position, call, turn.effects(at).gate.reason), Say(CallFaces(spec, turn, calls, at), Some(AtTools)))
  {
    var (n, e) := Mint(l.norm, ToolRefused, System, Tool(call.toolUseId));
    AnswerAdds(spec, l.(norm := n), stepId, position, call, [e], Outcome(false, turn.effects(at).gate.reason));
    assert Faces([e]) == CallFaces(spec, turn, calls, at);
  }

  lemma {:induction false} StartAdds(spec: Spec, turn: Turn, l: Loop, stepId: StepId, position: seq<Call>, at: nat, call: Call)
    requires !turn.effects(at).gate.Refused?
    ensures Adds(l, StartCall(spec, l, stepId, position, call, InputOf(Calls(turn), call.toolUseId), turn.effects(at).gate),
                 [Files([], Some(AtTools))] + if spec.knows(call.name) then [Begins(call.toolUseId, Deeds.Leaves(turn, at, call.toolUseId))] else [])
  {
    var input := InputOf(Calls(turn), call.toolUseId);
    var tx := ClearTx(stepId, position, call, OrNull(input));
    var m := File(spec, l, tx);
    FileAdds(spec, l, tx, []);
    if spec.knows(call.name) {
      var began := Began(call.toolUseId, OrNull(EffectiveInput(turn.effects(at).gate, input)));
      DoAdds(m, began);
      AddsTrans(l, m, Do(m, began), [Files([], Some(AtTools))], [LineOf(began)]);
    }
  }

  lemma {:induction false} CallAdds(spec: Spec, turn: Turn, l: Loop, stepId: StepId, position: seq<Call>, at: nat)
    requires at < |position| && Indexed(position) && PlannedFor(position, Calls(turn))
    ensures Adds(l, DispatchOne(spec, turn, l, stepId, position, position[at], Calls(turn)), CallLines(spec, turn, Calls(turn), at))
  {
    var call, calls := position[at], Calls(turn);
    if turn.effects(at).gate.Refused? {
      RefusedAdds(spec, turn, calls, at, l, stepId, position, call);
    } else {
      var input := InputOf(calls, call.toolUseId);
      var started := StartCall(spec, l, stepId, position, call, input, turn.effects(at).gate);
      var pending := WithCallStatus(position, call.index, EffectPending);
      StartAdds(spec, turn, l, stepId, position, at, call);
      AnswerCallAdds(spec, turn, calls, at, started, stepId, pending, call, input);
      AddsTrans(l, started, AnswerCall(spec, started, stepId, pending, call, input, turn.effects(at)),
                [Files([], Some(AtTools))] + (if spec.knows(call.name) then [Begins(call.toolUseId, Deeds.Leaves(turn, at, call.toolUseId))] else []),
                Say(CallFaces(spec, turn, calls, at), Some(AtTools)));
    }
  }

  lemma {:induction false} DispatchAdds(spec: Spec, turn: Turn, l: Loop, stepId: StepId, position: seq<Call>, at: nat)
    requires Indexed(position) && PlannedFor(position, Calls(turn))
    ensures Adds(l, Dispatch(spec, turn, l, stepId, position, Calls(turn), at), EachLines(spec, turn, Calls(turn), at))
    decreases |position| - at
  {
    if at < |position| {
      var m, next := DispatchOne(spec, turn, l, stepId, position, position[at], Calls(turn)), WithCallStatus(position, at, Completed);
      CallAdds(spec, turn, l, stepId, position, at);
      DispatchAdds(spec, turn, m, stepId, next, at + 1);
      AddsTrans(l, m, Dispatch(spec, turn, m, stepId, next, Calls(turn), at + 1), CallLines(spec, turn, Calls(turn), at),
                EachLines(spec, turn, Calls(turn), at + 1));
    }
  }

  /** What dispatching tries, and that the streak is kept. */
  lemma {:induction false} DispatchTries(spec: Spec, turn: Turn, t: Teller, l: Loop, stepId: StepId, position: seq<Call>, at: nat)
    requires Indexed(position) && PlannedFor(position, Calls(turn)) && l.tried == t.tried && Pacing.Streak(l.repeated, l.tried)
    ensures var m := Dispatch(spec, turn, l, stepId, position, Calls(turn), at);
      && m.tried == TellEach(spec, turn, Calls(turn), t, at).tried && Pacing.Streak(m.repeated, m.tried)
      && m.usage == l.usage && m.ended == l.ended
    decreases |position| - at
  {
    if at < |position| {
      TriedFollows(spec, turn, l, stepId, position, position[at], Calls(turn), at);
      DispatchTries(spec, turn, TellCall(spec, turn, Calls(turn), t, at), DispatchOne(spec, turn, l, stepId, position, position[at], Calls(turn)),
                    stepId, WithCallStatus(position, at, Completed), at + 1);
    }
  }

  // --- A turn ------------------------------------------------------------------------------------------------

  /** What the teller remembers is so. */
  ghost predicate Recalls(t: Teller, l: Loop) {
    && l.attempt == t.attempt && l.inbox == t.inbox && l.tried == t.tried && Pacing.Streak(l.repeated, l.tried)
    && l.usage == Sum(t.spent) && l.ended.None?
  }

  /** What a settled turn without calls is followed by. */
  function Then(spec: Spec, t: Teller, reason: StopReason): seq<Line>
    requires !reason.ToolUse?
  {
    match reason
    case EndTurn => if t.inbox == [] then EndLines(spec, t, Finished) else Say(PromptFaces(spec, t.inbox), Some(AtCheckpoint))
    case PauseTurn => if t.attempt >= 5 then EndLines(spec, t, Failed) else []
    case ContextWindowExceeded => []
    case _ => EndLines(spec, t, Failed)
  }

  lemma {:induction false} PromptsFace(spec: Spec, n: Norm, messages: seq<string>)
    ensures var events := MintPrompts(spec, n, messages).1;
      Faces(events) == PromptFaces(spec, messages) && forall i :: 0 <= i < |events| ==> events[i].seqNo.Some?
  {
    PromptNumbers(spec, n, messages);
    PromptPayloads(spec, n, messages);
  }

  lemma {:induction false} PromptPayloads(spec: Spec, n: Norm, messages: seq<string>)
    ensures var events := MintPrompts(spec, n, messages).1;
      |events| == |messages| && forall i :: 0 <= i < |events| ==> events[i].payload == NoPayload
    decreases |messages|
  {
    if messages != [] {
      PromptPayloads(spec, n, messages[..|messages| - 1]);
    }
  }

  lemma {:induction false} FollowUpAdds(spec: Spec, l: Loop)
    ensures Adds(l, FollowUp(spec, l), Say(PromptFaces(spec, l.inbox), Some(AtCheckpoint)))
  {
    var (n, events) := MintPrompts(spec, l.norm, l.inbox);
    OnePromptEach(spec, l.norm, l.inbox);
    PromptsFace(spec, l.norm, l.inbox);
    var tx := Filing(Prompts(spec.runId, events, l.inbox)).(position := Some(Record.Checkpoint));
    NumberedAre(spec.runId, tx.entries, events);
    SayAdds(spec, l.(norm := n, inbox := []), tx, events);
  }

  lemma {:induction false} NothingAdds(l: Loop, m: Loop)
    requires m.journal == l.journal
    ensures Adds(l, m, [])
  {
  }

  lemma {:induction false} ConcludeAdds(spec: Spec, t: Teller, l: Loop, reason: StopReason)
    requires Recalls(t, l) && !reason.ToolUse?
    ensures Adds(l, Conclude(spec, l, Decide(reason, t.attempt), reason), Then(spec, t, reason))
  {
    if reason == MaxTokens || reason == Refusal || (reason == PauseTurn && t.attempt >= 5) {
      EndAdds(spec, l, t, RunFailed, System, Failed, Some(ReasonName(reason)), 0);
    } else if reason == EndTurn {
      if |l.inbox| > 0 {
        FollowUpAdds(spec, l);
      } else {
        EndAdds(spec, l, t, RunFinished, System, Finished, Some(ReasonName(reason)), l.turns);
      }
    } else {
      NothingAdds(l, Conclude(spec, l, Decide(reason, t.attempt), reason));
    }
  }

  lemma {:induction false} CloseAdds(spec: Spec, t: Teller, l: Loop)
    requires l.tried == t.tried && Pacing.Streak(l.repeated, l.tried) && l.usage == Sum(t.spent) && l.ended.None?
    ensures Adds(l, Close(spec, l), [Files([], Some(AtCheckpoint))] + if Stubborn(t.tried) then EndLines(spec, t, Failed) else [])
  {
    var m := File(spec, l, Filing([]).(position := Some(Record.Checkpoint)));
    FileAdds(spec, l, Filing([]).(position := Some(Record.Checkpoint)), []);
    Pacing.StopsWhenStuck(spec, l);
    if Stubborn(t.tried) {
      EndAdds(spec, m, t, RunFailed, System, Failed, Some("api_error"), 0);
      AddsTrans(l, m, Fail(spec, m, "api_error"), [Files([], Some(AtCheckpoint))], EndLines(spec, t, Failed));
    } else {
      assert [Files([], Some(AtCheckpoint))] + [] == [Files([], Some(AtCheckpoint))];
    }
  }

  lemma {:induction false} PutDownAdds(spec: Spec, turn: Turn, l: Loop, h: Heard, usageId: nat, boundary: nat, next: Position)
    requires Faces(h.durable) == Announcements(turn.turnId, turn.stream) && forall i :: 0 <= i < |h.durable| ==> h.durable[i].seqNo.Some?
    ensures Adds(l, PutDown(spec, l, h, usageId, boundary, next), Say(Announcements(turn.turnId, turn.stream), Some(StandOf(next))))
  {
    var tx := SettleTx(spec, h, usageId, boundary, next);
    NumberedAre(spec.runId, tx.entries, h.durable);
    SayAdds(spec, l, tx, h.durable);
  }

  /** Heard to its end: what is kept is what its stream announces. */
  ghost predicate Announces(h: Heard, turn: Turn) {
    && Says(h, turn.stream) && Faces(h.durable) == Announcements(turn.turnId, turn.stream)
    && forall i :: 0 <= i < |h.durable| ==> h.durable[i].seqNo.Some?
  }

  lemma {:induction false} SpentGrows(t: Teller, turn: Turn, usage: Usage)
    requires usage == Sum(t.spent)
    ensures AddUsage(usage, if LastUsage(turn.stream).Some? then LastUsage(turn.stream).value else ZERO_USAGE) == Sum(TellBlocks(turn, t).spent)
  {
    if LastUsage(turn.stream).Some? {
      var spent := t.spent + [LastUsage(turn.stream).value];
      assert spent[..|spent| - 1] == t.spent;
    } else {
      assert t.spent + [] == t.spent;
    }
  }

  lemma {:induction false} PlainAdds(spec: Spec, turn: Turn, t: Teller, l: Loop, h: Heard, usageId: nat, boundary: nat)
    requires Recalls(t, l) && Announces(h, turn) && !LastReason(turn.stream).ToolUse?
    ensures var reason := LastReason(turn.stream);
      Adds(l, Conclude(spec, PutDown(spec, l, h, usageId, boundary, Record.Checkpoint), Decide(reason, t.attempt), reason),
           Say(Announcements(turn.turnId, turn.stream), Some(AtCheckpoint)) + Then(spec, t, reason))
  {
    var m := PutDown(spec, l, h, usageId, boundary, Record.Checkpoint);
    PutDownAdds(spec, turn, l, h, usageId, boundary, Record.Checkpoint);
    ConcludeAdds(spec, t, m, LastReason(turn.stream));
    AddsTrans(l, m, Conclude(spec, m, Decide(LastReason(turn.stream), t.attempt), LastReason(turn.stream)),
              Say(Announcements(turn.turnId, turn.stream), Some(AtCheckpoint)), Then(spec, t, LastReason(turn.stream)));
  }

  function ToolsThen(spec: Spec, turn: Turn, t: Teller): seq<Line> {
    EachLines(spec, turn, Calls(turn), 0) + [Files([], Some(AtCheckpoint))]
    + if Stubborn(TellEach(spec, turn, Calls(turn), t, 0).tried) then EndLines(spec, t, Failed) else []
  }

  lemma {:induction false} DispatchedAdds(spec: Spec, turn: Turn, t: Teller, l: Loop, stepId: StepId, planned: seq<Call>)
    requires Recalls(t, l) && Indexed(planned) && PlannedFor(planned, Calls(turn))
    ensures Adds(l, Close(spec, DispatchAll(spec, turn, l, stepId, planned, Calls(turn))), ToolsThen(spec, turn, t))
  {
    var m, x := DispatchAll(spec, turn, l, stepId, planned, Calls(turn)), TellEach(spec, turn, Calls(turn), t, 0);
    DispatchAdds(spec, turn, l, stepId, planned, 0);
    DispatchTries(spec, turn, t, l, stepId, planned, 0);
    EachSpends(spec, turn, Calls(turn), t, 0);
    CloseAdds(spec, x, m);
    var closing := [Files([], Some(AtCheckpoint))];
    var ending := if Stubborn(x.tried) then EndLines(spec, t, Failed) else [];
    AddsTrans(l, m, Close(spec, m), EachLines(spec, turn, Calls(turn), 0), closing + ending);
    Three(EachLines(spec, turn, Calls(turn), 0), closing, ending);
  }

  lemma {:induction false} EachSpends(spec: Spec, turn: Turn, calls: seq<ToolCall>, t: Teller, at: nat)
    ensures TellEach(spec, turn, calls, t, at).spent == t.spent
    decreases |calls| - at
  {
    if at < |calls| {
      EachSpends(spec, turn, calls, TellCall(spec, turn, calls, t, at), at + 1);
    }
  }

  lemma {:induction false} ToolsAdd(spec: Spec, turn: Turn, t: Teller, l: Loop, h: Heard, usageId: nat, boundary: nat)
    requires Recalls(t, l) && Announces(h, turn)
    ensures Adds(l, UseTools(spec, turn, l, h, usageId, boundary),
                 Say(Announcements(turn.turnId, turn.stream), Some(AtTools)) + ToolsThen(spec, turn, t))
  {
    var stepId, planned := StepId(spec.runId, l.norm.seqNo), PlanCalls(Proposed(spec, h.calls));
    var m := PutDown(spec, l, h, usageId, boundary, Tools(stepId, planned));
    PlansCalls(spec, h, turn);
    PutDownAdds(spec, turn, l, h, usageId, boundary, Tools(stepId, planned));
    PutDownRecalls(spec, t, l, h, usageId, boundary, Tools(stepId, planned));
    ThenTools(spec, turn, t, l, m, stepId, planned, Say(Announcements(turn.turnId, turn.stream), Some(AtTools)));
  }

  lemma {:induction false} PutDownRecalls(spec: Spec, t: Teller, l: Loop, h: Heard, usageId: nat, boundary: nat, next: Position)
    requires Recalls(t, l)
    ensures Recalls(t, PutDown(spec, l, h, usageId, boundary, next))
  {
  }

  lemma {:induction false} PlansCalls(spec: Spec, h: Heard, turn: Turn)
    requires h.calls == Calls(turn)
    ensures var planned := PlanCalls(Proposed(spec, h.calls)); Indexed(planned) && PlannedFor(planned, Calls(turn))
  {
  }

  lemma {:induction false} ThenTools(spec: Spec, turn: Turn, t: Teller, l: Loop, m: Loop, stepId: StepId, planned: seq<Call>, said: seq<Line>)
    requires Recalls(t, m) && Indexed(planned) && PlannedFor(planned, Calls(turn)) && Adds(l, m, said)
    ensures Adds(l, Close(spec, DispatchAll(spec, turn, m, stepId, planned, Calls(turn))), said + ToolsThen(spec, turn, t))
  {
    DispatchedAdds(spec, turn, t, m, stepId, planned);
    AddsTrans(l, m, Close(spec, DispatchAll(spec, turn, m, stepId, planned, Calls(turn))), said, ToolsThen(spec, turn, t));
  }

  lemma {:induction false} SettledIsAfter(spec: Spec, turn: Turn, t: Teller)
    ensures var x := TellBlocks(turn, t);
      SettledLines(spec, turn, t) ==
        if LastReason(turn.stream).ToolUse? then Say(Announcements(turn.turnId, turn.stream), Some(AtTools)) + ToolsThen(spec, turn, x)
        else Say(Announcements(turn.turnId, turn.stream), Some(AtCheckpoint)) + Then(spec, x, LastReason(turn.stream))
  {
  }

  lemma {:induction false} SettleAdds(spec: Spec, turn: Turn, t: Teller, l: Loop, h: Heard, usageId: nat, boundary: nat)
    requires Recalls(t, l) && Announces(h, turn)
    ensures Adds(l, Settle(spec, turn, l, h, usageId, boundary), SettledLines(spec, turn, t))
  {
    var l0, x := l.(usage := AddUsage(l.usage, h.usage)), TellBlocks(turn, t);
    SpentGrows(t, turn, l.usage);
    SettledIsAfter(spec, turn, t);
    SettleIs(spec, turn, l, h, usageId, boundary);
    if LastReason(turn.stream).ToolUse? {
      ToolsAdd(spec, turn, x, l0, h, usageId, boundary);
    } else {
      PlainAdds(spec, turn, x, l0, h, usageId, boundary);
    }
  }

  lemma {:induction false} SettleIs(spec: Spec, turn: Turn, l: Loop, h: Heard, usageId: nat, boundary: nat)
    requires ReasonOf(h) == LastReason(turn.stream)
    ensures var l0, reason := l.(usage := AddUsage(l.usage, h.usage)), LastReason(turn.stream);
      Settle(spec, turn, l, h, usageId, boundary) ==
        if reason.ToolUse? then UseTools(spec, turn, l0, h, usageId, boundary)
        else Conclude(spec, PutDown(spec, l0, h, usageId, boundary, Record.Checkpoint), Decide(reason, l.attempt), reason)
  {
  }

  lemma {:induction false} HeardAnnounces(n: Norm, turn: Turn)
    requires n.blocks == map[] && n.turnId == turn.turnId && !Torn(turn.stream)
    ensures Announces(Hear(n, turn.stream), turn)
  {
    HearsStream(n, turn.stream);
    HearNumbers(n, turn.stream);
    Overheard.HearsScript(n, turn.stream);
  }

  /** What a turn that is heard is followed by. */
  lemma {:induction false} HeardAdds(spec: Spec, turn: Turn, t: Teller, l: Loop, h: Heard, n: Norm, usageId: nat, boundary: nat)
    requires Recalls(t, l) && h == Hear(n, turn.stream) && n.blocks == map[] && n.turnId == turn.turnId
    ensures Adds(l, if h.broke || turn.broke then Broken(spec, turn, l) else Settle(spec, turn, l, h, usageId, boundary),
                 if Breaks(turn) then BrokenLines(spec, turn, t) else SettledLines(spec, turn, t))
  {
    HearsStream(n, turn.stream);
    if Breaks(turn) {
      BrokenAdds(spec, turn, l, t);
    } else {
      HeardAnnounces(n, turn);
      SettleAdds(spec, turn, t, l, h, usageId, boundary);
    }
  }

  lemma {:induction false} AwaitAdds(spec: Spec, turn: Turn, t: Teller, l: Loop, request: Request, usageId: nat)
    requires Recalls(t, l) && l.norm.blocks == map[] && l.norm.turnId == turn.turnId
    ensures Adds(l, Await(spec, turn, l, request, usageId), HeardLines(spec, turn, t))
  {
    var h := Hear(l.norm, turn.stream);
    var m := Listen(l, request, h);
    ListenAdds(l, request, h, turn.stream);
    HeardAdds(spec, turn, t, m, h, l.norm, usageId, |l.rec.entries|);
    AddsTrans(l, m, if h.broke || turn.broke then Broken(spec, turn, m) else Settle(spec, turn, m, h, usageId, |l.rec.entries|),
              [Asks] + LiveLines(turn.turnId, Legibly(turn.stream)),
              if Breaks(turn) then BrokenLines(spec, turn, t) else SettledLines(spec, turn, t));
  }

  lemma {:induction false} IntendRecalls(spec: Spec, turn: Turn, t: Teller, l: Loop, request: Request)
    requires Recalls(t, l)
    ensures var m := Intend(spec, turn, l, request);
      Recalls(t, m) && m.norm.blocks == l.norm.blocks && m.norm.turnId == l.norm.turnId
  {
  }

  lemma {:induction false} SendAdds(spec: Spec, turn: Turn, t: Teller, l: Loop, last: Option<string>, request: Request)
    requires Recalls(t, l) && Last(spec, l, last) && request.tools == spec.tools && l.norm.blocks == map[] && l.norm.turnId == turn.turnId
    ensures Adds(l, SendOne(spec, turn, l, request), IntentLines(spec, turn, t, last) + HeardLines(spec, turn, t))
  {
    var m := Intend(spec, turn, l, request);
    IntendAdds(spec, turn, l, t, last, request);
    IntendRecalls(spec, turn, t, l, request);
    AwaitAdds(spec, turn, t, m, request, NextUsageId(l.rec.usage));
    AddsTrans(l, m, Await(spec, turn, m, request, NextUsageId(l.rec.usage)), IntentLines(spec, turn, t, last), HeardLines(spec, turn, t));
  }

  lemma {:induction false} TakeAdds(spec: Spec, turn: Turn, t: Teller, l: Loop, last: Option<string>)
    requires Recalls(t, l) && Last(spec, l, last)
    ensures Adds(l, Take(spec, turn, l), TurnLines(spec, turn, t, last))
  {
    TurnTaken(spec, turn, l);
    if turn.abortedBefore {
      EndAdds(spec, l, t, RunInterrupted, UserActor(spec), Interrupted, None, 0);
    } else if Goes(spec, turn) {
      var x := t.(inbox := t.inbox + turn.arrived);
      AskIs(spec, turn, BeginsTurn(turn, l));
      SendAdds(spec, turn, x, BeginsTurn(turn, l), last, RequestFor(spec, l.rec));
    } else {
      AskIs(spec, turn, BeginsTurn(turn, l));
      RefuseAdds(spec, BeginsTurn(turn, l), t);
    }
  }

  lemma {:induction false} AskIs(spec: Spec, turn: Turn, l: Loop)
    requires !turn.abortedBefore
    ensures Ask(spec, turn, l) == if Goes(spec, turn) then SendOne(spec, turn, l, RequestFor(spec, l.rec)) else Refuse(spec, l)
  {
  }

  // --- A run --------------------------------------------------------------------------------------------------

  lemma {:induction false} TotalIsSum(rows: seq<UsageRow>)
    ensures Total(rows) == Sum(Figures(rows))
    decreases |rows|
  {
    if rows != [] {
      assert Figures(rows)[..|rows| - 1] == Figures(rows[..|rows| - 1]);
      TotalIsSum(rows[..|rows| - 1]);
    }
  }

  lemma {:induction false} SpentIs(before: seq<UsageRow>, rows: seq<UsageRow>, spent: seq<Usage>)
    requires before <= rows && Figures(rows) == Figures(before) + spent
    ensures Total(rows[|before|..]) == Sum(spent)
  {
    var more := rows[|before|..];
    assert rows == before + more;
    FiguresGrow(before, more);
    assert Figures(more) == spent;
    TotalIsSum(more);
  }

  lemma {:induction false} StandingRecalls(spec: Spec, origin: State, start: Before, t: Teller, l: Loop)
    requires ToldSoFar(spec, origin, start, l, t) && start.spent == Figures(origin.usage) && t.over.None?
    ensures Recalls(t, l)
  {
    SpentIs(origin.usage, l.rec.usage, t.spent);
  }

  /** The snapshot last stated follows the credential. */
  lemma {:induction false} TakeStates(spec: Spec, origin: State, turn: Turn, l: Loop, last: Option<string>)
    requires Standing(spec, origin, l) && l.ended.None? && Last(spec, l, last)
    ensures Take(spec, turn, l).ended.None? ==> Last(spec, Take(spec, turn, l), if Goes(spec, turn) then Some(turn.credential) else last)
  {
    TurnTaken(spec, turn, l);
    if !turn.abortedBefore {
      BeginStands(spec, origin, turn, l);
      AskIs(spec, turn, BeginsTurn(turn, l));
      if Goes(spec, turn) {
        SendStates(spec, origin, turn, BeginsTurn(turn, l));
      }
    }
  }

  lemma {:induction false} SendStates(spec: Spec, origin: State, turn: Turn, l: Loop)
    requires Standing(spec, origin, l) && l.ended.None?
    ensures SendOne(spec, turn, l, RequestFor(spec, l.rec)).lastSnapshot == Some(SnapshotWith(spec, turn.credential))
  {
    var request := RequestFor(spec, l.rec);
    IntendPends(spec, origin, turn, l);
    TurnLaws.AwaitKeeps(spec, origin, turn, Intend(spec, turn, l, request), request, NextUsageId(l.rec.usage));
    IntendKeeps(spec, origin, turn, l, request);
  }

  /** After so many turns. */
  ghost predicate AsScripted(spec: Spec, world: nat -> Turn, inbox: seq<string>, n: nat, l: Loop) {
    && Lines(l.journal) == TurnsLines(spec, world, inbox, n)
    && (l.ended.None? ==> Last(spec, l, Stated(spec, world, n)))
  }

  lemma {:induction false} NextScripted(spec: Spec, origin: State, world: nat -> Turn, inbox: seq<string>, n: nat, start: Before, l: Loop, t: Teller)
    requires ToldSoFar(spec, origin, start, l, t) && start.spent == Figures(origin.usage) && t == Tale(spec, world, inbox, n)
    requires AsScripted(spec, world, inbox, n, l)
    ensures AsScripted(spec, world, inbox, n + 1, if l.ended.Some? then l else Take(spec, world(n), l))
  {
    if t.over.None? {
      StandingRecalls(spec, origin, start, t, l);
      TakeAdds(spec, world(n), t, l, Stated(spec, world, n));
      TakeStates(spec, origin, world(n), l, Stated(spec, world, n));
    }
  }

  lemma {:induction false} TurnsNext(spec: Spec, world: nat -> Turn, l: Loop, n: nat)
    ensures Turns(spec, world, l, 0) == Opening(spec, l)
    ensures var before := Turns(spec, world, l, n);
      Turns(spec, world, l, n + 1) == if before.ended.Some? then before else Take(spec, world(n), before)
  {
  }

  ghost predicate ScriptedAt(spec: Spec, origin: State, world: nat -> Turn, inbox: seq<string>, n: nat) {
    AsScripted(spec, world, inbox, n, Turns(spec, world, Idle(origin, inbox), n))
  }

  lemma {:induction false} ScriptedNext(spec: Spec, origin: State, world: nat -> Turn, inbox: seq<string>, n: nat)
    requires Fresh(origin, spec.runId) && ScriptedAt(spec, origin, world, inbox, n)
    ensures ScriptedAt(spec, origin, world, inbox, n + 1)
  {
    TaleTold(spec, origin, world, inbox, n);
    TurnsNext(spec, world, Idle(origin, inbox), n);
    NextScripted(spec, origin, world, inbox, n, Before(Surfaced(Opening(spec, Idle(origin, inbox))), Figures(origin.usage)),
                 Turns(spec, world, Idle(origin, inbox), n), Tale(spec, world, inbox, n));
  }

  lemma {:induction false} ScriptedFirst(spec: Spec, origin: State, world: nat -> Turn, inbox: seq<string>)
    ensures ScriptedAt(spec, origin, world, inbox, 0)
  {
    TurnsNext(spec, world, Idle(origin, inbox), 0);
    OpeningAdds(spec, origin, inbox);
  }

  lemma {:induction false} TurnsAsScripted(spec: Spec, origin: State, world: nat -> Turn, inbox: seq<string>, n: nat)
    requires Fresh(origin, spec.runId)
    ensures ScriptedAt(spec, origin, world, inbox, n)
  {
    var kept := (m: nat) => ScriptedAt(spec, origin, world, inbox, m);
    ScriptedFirst(spec, origin, world, inbox);
    forall m: nat | kept(m) ensures kept(m + 1) {
      ScriptedNext(spec, origin, world, inbox, m);
    }
    Effects.Always(kept, 0, n);
  }

  /** From a fresh record every run does just what its script says, in that order: what it files and where that leaves it,
      when it asks, what it runs and with what, and what it tells, live and after the fact. */
  lemma {:induction false} RunIsScripted(spec: Spec, origin: State, world: nat -> Turn, inbox: seq<string>)
    requires Fresh(origin, spec.runId)
    ensures Lines(Run(spec, world, Idle(origin, inbox)).journal) == RunLines(spec, world, inbox)
  {
    TurnsAsScripted(spec, origin, world, inbox, 100);
    TaleTold(spec, origin, world, inbox, 100);
    ExhaustAdds(spec, origin, Before(Surfaced(Opening(spec, Idle(origin, inbox))), Figures(origin.usage)),
                Tale(spec, world, inbox, 100), Turns(spec, world, Idle(origin, inbox), 100));
  }

  lemma {:induction false} ExhaustAdds(spec: Spec, origin: State, start: Before, t: Teller, l: Loop)
    requires ToldSoFar(spec, origin, start, l, t) && start.spent == Figures(origin.usage)
    ensures Adds(l, Exhaust(spec, l), if t.over.Some? then [] else EndLines(spec, t, Failed))
  {
    if t.over.None? {
      StandingRecalls(spec, origin, start, t, l);
      EndAdds(spec, l, t, RunFailed, System, Failed, Some("max_tokens"), 0);
    } else {
      NothingAdds(l, l);
    }
  }
}
