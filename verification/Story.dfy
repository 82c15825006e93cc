/** What a run leaves on the surface, what it spends and how it ends, told from what was said to it alone: the prompt,
    then each settled turn's blocks once, the results of its calls in call order, and the follow-ups it drained. */
module Story {
  import opened Json
  import opened Contract
  import opened Record
  import opened Checkpoint
  import opened Journal
  import opened Normalize
  import opened StopReasons
  import opened Surface
  import opened SurfaceLaws
  import opened RunLoop
  import opened World
  import opened Hearing
  import opened Protocol
  import opened RunLaws
  import opened TurnLaws
  import opened Runs
  import opened Pacing

  // --- What a turn says ---------------------------------------------------------------------

  function Blocks(events: seq<ProviderEvent>): seq<Said> {
    if Speaker(events).Some? then SaidBy(Speaker(events).value, Stopped(events)) else []
  }

  /** What the model is told of the call at this place. */
  function Result(spec: Spec, turn: Turn, calls: seq<ToolCall>, at: nat): Said
    requires at < |calls|
  {
    var o := Outcomes(spec, turn, at, calls[at].name);
    Said(UserRole, ToolResultBlock(calls[at].id, o.text, !o.ok))
  }

  function PromptsSaid(messages: seq<string>): (r: seq<Said>)
    ensures |r| == |messages| && forall i :: 0 <= i < |r| ==> r[i] == Said(UserRole, TextBlock(messages[i]))
  {
    seq(|messages|, i requires 0 <= i < |messages| => Said(UserRole, TextBlock(messages[i])))
  }

  // --- The tale ----------------------------------------------------------------------------

  /** All a teller needs to remember of a run: what was said, which ids had a result, which calls were tried and how they
      went, what was spent, how many turns there were, how often the last was resumed, what waits, and how it ended. */
  datatype Teller = Teller(said: seq<Said>, known: set<string>, tried: seq<Tried>, spent: seq<Usage>, turns: nat,
                           attempt: nat, inbox: seq<string>, over: Option<Ended>)

  /** What a call is told apart by: its name and its input. */
  function CallKey(spec: Spec, calls: seq<ToolCall>, at: nat): string
    requires at < |calls|
  {
    calls[at].name + ":" + spec.codec.stringify(OrNull(InputOf(calls, calls[at].id)))
  }

  /** A call that is refused is not an attempt at anything. */
  function NextTried(spec: Spec, turn: Turn, calls: seq<ToolCall>, at: nat): seq<Tried>
    requires at < |calls|
  {
    if turn.effects(at).gate.Refused? then []
    else [Tried(CallKey(spec, calls, at), Outcomes(spec, turn, at, calls[at].name).ok)]
  }

  /** A call has one result, unless its id has one already. */
  function TellCall(spec: Spec, turn: Turn, calls: seq<ToolCall>, t: Teller, at: nat): Teller
    requires at < |calls|
  {
    t.(said := if calls[at].id in t.known then t.said else t.said + [Result(spec, turn, calls, at)],
       known := t.known + {calls[at].id}, tried := t.tried + NextTried(spec, turn, calls, at))
  }

  function TellEach(spec: Spec, turn: Turn, calls: seq<ToolCall>, t: Teller, at: nat): Teller
    decreases |calls| - at
  {
    if at >= |calls| then t else TellEach(spec, turn, calls, TellCall(spec, turn, calls, t, at), at + 1)
  }

  function Results(spec: Spec, turn: Turn, calls: seq<ToolCall>, at: nat): (r: seq<Said>)
    decreases |calls| - at
  {
    if at >= |calls| then [] else [Result(spec, turn, calls, at)] + Results(spec, turn, calls, at + 1)
  }

  /** Where ids are new and differ, every call has its own result, in call order. */
  lemma {:induction false} NewCallsAllTold(spec: Spec, turn: Turn, calls: seq<ToolCall>, t: Teller, at: nat)
    requires forall i, j :: at <= i < j < |calls| ==> calls[i].id != calls[j].id
    requires forall i :: at <= i < |calls| ==> calls[i].id !in t.known
    ensures TellEach(spec, turn, calls, t, at).said == t.said + Results(spec, turn, calls, at)
    decreases |calls| - at
  {
    if at >= |calls| {
      assert t.said + [] == t.said;
    } else {
      NewCallsAllTold(spec, turn, calls, TellCall(spec, turn, calls, t, at), at + 1);
      Three(t.said, [Result(spec, turn, calls, at)], Results(spec, turn, calls, at + 1));
    }
  }

  /** The last three calls tried were one call failing with one input. */
  predicate Stubborn(tried: seq<Tried>) {
    && |tried| >= 3 && !tried[|tried| - 1].ok
    && tried[|tried| - 3] == tried[|tried| - 2] == tried[|tried| - 1]
  }

  function Over(t: Teller, outcome: Ending, reason: Option<string>): Teller {
    t.(over := Some(Ended(outcome, reason, if outcome.Finished? then t.turns else 0)))
  }

  function TellClose(t: Teller): Teller {
    if Stubborn(t.tried) then Over(t, Failed, Some("api_error")) else t.(attempt := 0)
  }

  /** What follows a settled turn without calls. */
  function TellEnding(t: Teller, reason: StopReason): Teller
    requires !reason.ToolUse?
  {
    match reason
    case EndTurn =>
      if t.inbox == [] then Over(t, Finished, Some("end_turn"))
      else t.(said := t.said + PromptsSaid(t.inbox), inbox := [], attempt := 0)
    case MaxTokens => Over(t, Failed, Some("max_tokens"))
    case PauseTurn => if t.attempt >= 5 then Over(t, Failed, Some("pause_turn")) else t.(attempt := t.attempt + 1)
    case Refusal => Over(t, Failed, Some("refusal"))
    case ContextWindowExceeded => t.(attempt := 0)
  }

  /** A settled turn's blocks, and its figures if it reported any. */
  function TellBlocks(turn: Turn, t: Teller): Teller {
    t.(said := t.said + Blocks(turn.stream),
       spent := t.spent + if LastUsage(turn.stream).Some? then [LastUsage(turn.stream).value] else [])
  }

  /** And then its results, or what follows. */
  function TellSettled(spec: Spec, turn: Turn, t: Teller): Teller {
    if LastReason(turn.stream).ToolUse? then TellClose(TellEach(spec, turn, Calls(turn), TellBlocks(turn, t), 0))
    else TellEnding(TellBlocks(turn, t), LastReason(turn.stream))
  }

  function TellBroken(turn: Turn, t: Teller): Teller {
    if turn.abortedDuring then Over(t, Interrupted, None) else Over(t, Failed, Some(turn.fault))
  }

  function TellHeard(spec: Spec, turn: Turn, t: Teller): Teller {
    if Torn(turn.stream) || turn.broke then TellBroken(turn, t) else TellSettled(spec, turn, t)
  }

  function TellAsked(spec: Spec, turn: Turn, t: Teller): Teller {
    if turn.refused || (spec.tools != [] && !spec.caps.toolUse) then Over(t, Failed, Some("refused")) else TellHeard(spec, turn, t)
  }

  /** One turn. Of one that was refused, interrupted or broken there is nothing to tell but how it ended. */
  function TellTurn(spec: Spec, turn: Turn, t: Teller): Teller {
    if turn.abortedBefore then Over(t, Interrupted, None)
    else TellAsked(spec, turn, t.(inbox := t.inbox + turn.arrived, turns := t.turns + 1))
  }

  function Telling(spec: Spec, world: nat -> Turn): (nat, Teller) -> Teller {
    (i: nat, t: Teller) => TellTurn(spec, world(i), t)
  }

  function TellTurns(tell: (nat, Teller) -> Teller, t: Teller, n: nat): Teller {
    if n == 0 then t
    else
      var before := TellTurns(tell, t, n - 1);
      if before.over.Some? then before else tell(n - 1, before)
  }

  function Start(inbox: seq<string>): Teller {
    Teller([], {}, [], [], 0, 0, inbox, None)
  }

  /** What the first `n` turns of a run say behind its prompt. */
  function Tale(spec: Spec, world: nat -> Turn, inbox: seq<string>, n: nat): Teller {
    TellTurns(Telling(spec, world), Start(inbox), n)
  }

  // --- From entries to what is said ------------------------------------------------------------------

  function HeardSaid(h: Heard): seq<Said> {
    if CarriedBy(h).Some? then SaidBy(CarriedBy(h).value, h.blocks) else []
  }

  lemma {:induction false} CarrierSays(run: string, h: Heard)
    ensures Flat(CarrierEntries(run, h)) == HeardSaid(h)
  {
    if Carrier(h.durable).Some? {
      FlatOne(EntryFor(run, h.durable[Carrier(h.durable).value], Some(h.blocks)));
    }
  }

  lemma {:induction false} PromptsSay(run: string, events: seq<Envelope>, messages: seq<string>)
    requires |events| == |messages| && forall i :: 0 <= i < |events| ==> events[i].actor != Claude
    ensures Flat(Prompts(run, events, messages)) == PromptsSaid(messages)
    decreases |events|
  {
    if events != [] {
      var es := Prompts(run, events, messages);
      assert es[..|es| - 1] == Prompts(run, events[..|events| - 1], messages[..|messages| - 1]);
      PromptsSay(run, events[..|events| - 1], messages[..|messages| - 1]);
    }
  }

  // --- The loop follows the tale -----------------------------------------------------------------------

  function Surfaced(l: Loop): seq<Said> {
    Flat(OnSurface(l.rec.entries))
  }

  function Figures(rows: seq<UsageRow>): (r: seq<Usage>)
    ensures |r| == |rows| && forall i :: 0 <= i < |r| ==> r[i] == rows[i].usage
  {
    seq(|rows|, i requires 0 <= i < |rows| => rows[i].usage)
  }

  ghost predicate Knows(entries: seq<Entry>, run: string, known: set<string>) {
    forall id :: Answered(entries, run, id) <==> id in known
  }

  /** The event that ends a run this way. */
  predicate EndsWith(spec: Spec, e: Envelope, outcome: Ending) {
    match outcome
    case Finished => e.etype == RunFinished && e.actor == System
    case Failed => e.etype == RunFailed && e.actor == System
    case Interrupted => e.etype == RunInterrupted && e.actor == (if spec.requestedBy != "" then User else System)
  }

  /** The run is over: how, and why, is what it answers, what its register says, where its position stands, and what the
      last event on its record and the last it told say. */
  ghost predicate Closed(spec: Spec, l: Loop, v: Ended) {
    && l.ended == Some(v)
    && PositionOf(l.rec, spec.runId) == Some(Terminal(v.outcome))
    && spec.runId !in l.rec.meta
    && spec.runId in l.rec.results && l.rec.results[spec.runId] == RunResult(v.outcome, false, v.stopReason)
    && |l.journal| >= 2 && l.journal[|l.journal| - 2].Commit? && l.journal[|l.journal| - 1].Emit?
    && |l.journal[|l.journal| - 1].events| == 1 && l.rec.entries != []
    && var e := l.journal[|l.journal| - 1].events[0];
       EndsWith(spec, e, v.outcome) && l.rec.entries[|l.rec.entries| - 1] == EntryFor(spec.runId, e, None)
  }

  ghost predicate EndedAs(spec: Spec, l: Loop, over: Option<Ended>) {
    match over
    case None => l.ended.None?
    case Some(v) => Closed(spec, l, v)
  }

  /** What a run is told behind. */
  datatype Before = Before(said: seq<Said>, spent: seq<Usage>)

  /** The surface and the ledger are what is told, behind what was there, and the run is over as is told; until then the
      teller remembers right. */
  ghost predicate Follows(spec: Spec, start: Before, t: Teller, l: Loop) {
    && Surfaced(l) == start.said + t.said && Figures(l.rec.usage) == start.spent + t.spent && EndedAs(spec, l, t.over)
    && (t.over.None? ==> Remembers(spec, t, l))
  }

  ghost predicate Remembers(spec: Spec, t: Teller, l: Loop) {
    && l.attempt == t.attempt && l.inbox == t.inbox && l.tried == t.tried && l.turns == t.turns
    && Streak(l.repeated, l.tried) && Knows(l.rec.entries, spec.runId, t.known)
  }

  /** What the last transaction leaves. */
  lemma {:induction false} EndLands(spec: Spec, origin: State, l: Loop, n: Norm, e: Envelope, outcome: Ending, reason: Option<string>)
    requires Sound(spec, origin, l) && Quiescent(spec, l) && (n, e) == Mint(l.norm, e.etype, e.actor, e.payload) && !Ephemeral(e.etype)
    ensures var tx := Filing([EntryFor(spec.runId, e, None)])
                      .(meta := Some(false), result := Some(RunResult(outcome, false, reason)), position := Some(Terminal(outcome)));
      var s := File(spec, l.(norm := n), tx).rec;
      && PositionOf(s, spec.runId) == Some(Terminal(outcome)) && spec.runId !in s.meta
      && spec.runId in s.results && s.results[spec.runId] == RunResult(outcome, false, reason)
      && s.entries == l.rec.entries + [EntryFor(spec.runId, e, None)]
  {
    var tx := Filing([EntryFor(spec.runId, e, None)])
              .(meta := Some(false), result := Some(RunResult(outcome, false, reason)), position := Some(Terminal(outcome)));
    FilePlain(spec, origin, l, n, tx);
    assert File(spec, l.(norm := n), tx).rec == Landed(l.rec, spec.runId, tx);
  }

  lemma {:induction false} EndCloses(spec: Spec, origin: State, l: Loop, etype: EventType, actor: Actor,
                                     outcome: Ending, reason: Option<string>, turns: nat)
    requires Sound(spec, origin, l) && Quiescent(spec, l) && EndsWith(spec, Envelope(None, etype, actor, NoPayload), outcome)
    ensures Closed(spec, End(spec, l, etype, actor, outcome, reason, turns), Ended(outcome, reason, turns))
  {
    var (n, e) := Mint(l.norm, etype, actor, Spend(l.usage));
    EndLands(spec, origin, l, n, e, outcome, reason);
  }

  lemma {:induction false} EndFollows(spec: Spec, origin: State, start: Before, t: Teller, l: Loop,
                                      etype: EventType, actor: Actor, outcome: Ending, reason: Option<string>, turns: nat)
    requires Sound(spec, origin, l) && Quiescent(spec, l) && EndsWith(spec, Envelope(None, etype, actor, NoPayload), outcome)
    requires Surfaced(l) == start.said + t.said && Figures(l.rec.usage) == start.spent + t.spent
    requires turns == if outcome.Finished? then t.turns else 0
    ensures Follows(spec, start, Over(t, outcome, reason), End(spec, l, etype, actor, outcome, reason, turns))
  {
    EndCloses(spec, origin, l, etype, actor, outcome, reason, turns);
    EndProceeds(spec, origin, l, etype, actor, outcome, reason, turns);
    assert l.rec.usage + [] == l.rec.usage;
  }

  // --- Calls

  /** These are the calls that were planned. */
  ghost predicate PlannedFor(position: seq<Call>, calls: seq<ToolCall>) {
    |position| == |calls| && forall i :: 0 <= i < |calls| ==> position[i].toolUseId == calls[i].id && position[i].name == calls[i].name
  }

  lemma {:induction false} AnswerSays(spec: Spec, turn: Turn, calls: seq<ToolCall>, at: nat, a: seq<Entry>, b: seq<Entry>, call: Call)
    requires AddsAnswer(a, b, spec.runId, call.toolUseId, AnswerOf(spec, turn, call))
    requires at < |calls| && call.index == at && call.toolUseId == calls[at].id && call.name == calls[at].name
    ensures Flat(OnSurface(b)) == Flat(OnSurface(a)) + (if Answered(a, spec.runId, call.toolUseId) then [] else [Result(spec, turn, calls, at)])
  {
    FlatConcat(OnSurface(a), [AnswerOf(spec, turn, call)]);
    AnswerIsResult(spec, turn, calls, at, call);
    assert Flat(OnSurface(a)) + [] == Flat(OnSurface(a));
  }

  lemma {:induction false} AnswerIsResult(spec: Spec, turn: Turn, calls: seq<ToolCall>, at: nat, call: Call)
    requires at < |calls| && call.index == at && call.toolUseId == calls[at].id && call.name == calls[at].name
    ensures Flat([AnswerOf(spec, turn, call)]) == [Result(spec, turn, calls, at)]
  {
    FlatOne(AnswerOf(spec, turn, call));
  }

  lemma {:induction false} AnswerIsKnown(a: seq<Entry>, b: seq<Entry>, run: string, id: string, answer: Entry, known: set<string>)
    requires AddsAnswer(a, b, run, id, answer) && Knows(a, run, known)
    ensures Knows(b, run, known + {id})
  {
  }

  lemma {:induction false} TriedFollows(spec: Spec, turn: Turn, l: Loop, stepId: StepId, position: seq<Call>, call: Call,
                                        calls: seq<ToolCall>, at: nat)
    requires at < |calls| && call.index == at && call.toolUseId == calls[at].id && call.name == calls[at].name
    ensures var m := DispatchOne(spec, turn, l, stepId, position, call, calls);
      && m.tried == l.tried + NextTried(spec, turn, calls, at)
      && (Streak(l.repeated, l.tried) ==> Streak(m.repeated, m.tried))
  {
    var effect := turn.effects(at);
    if effect.gate.Refused? {
      assert l.tried + [] == l.tried;
    } else if Streak(l.repeated, l.tried) {
      NoteStreaks(l.repeated, l.tried, CallKey(spec, calls, at), call.name, Outcomes(spec, turn, at, call.name));
    }
  }

  lemma {:induction false} CallFollows(spec: Spec, origin: State, start: Before, turn: Turn, t: Teller, l: Loop,
                                       stepId: StepId, position: seq<Call>, at: nat, calls: seq<ToolCall>)
    requires Sound(spec, origin, l) && Stands(spec, l, Tools(stepId, position)) && Indexed(position) && PlannedFor(position, calls)
    requires at < |position| && position[at].status == Planned
    requires Follows(spec, start, t, l) && t.over.None?
    ensures Follows(spec, start, TellCall(spec, turn, calls, t, at), DispatchOne(spec, turn, l, stepId, position, position[at], calls))
  {
    var call, m := position[at], DispatchOne(spec, turn, l, stepId, position, position[at], calls);
    DispatchOneKeeps(spec, origin, turn, l, stepId, position, at, calls);
    TriedFollows(spec, turn, l, stepId, position, call, calls, at);
    AnswerSays(spec, turn, calls, at, l.rec.entries, m.rec.entries, call);
    AnswerIsKnown(l.rec.entries, m.rec.entries, spec.runId, call.toolUseId, AnswerOf(spec, turn, call), t.known);
    Three(start.said, t.said, if call.toolUseId in t.known then [] else [Result(spec, turn, calls, at)]);
    assert t.said + [] == t.said;
  }

  lemma {:induction false} DispatchFollows(spec: Spec, origin: State, start: Before, turn: Turn, t: Teller, l: Loop,
                                           stepId: StepId, position: seq<Call>, calls: seq<ToolCall>, at: nat)
    requires Sound(spec, origin, l) && Stands(spec, l, Tools(stepId, position)) && Indexed(position) && at <= |position|
    requires AllIn(position[..at], Completed) && AllIn(position[at..], Planned) && PlannedFor(position, calls)
    requires Follows(spec, start, t, l) && t.over.None?
    ensures Follows(spec, start, TellEach(spec, turn, calls, t, at), Dispatch(spec, turn, l, stepId, position, calls, at))
    ensures TellEach(spec, turn, calls, t, at).over.None?
    decreases |position| - at
  {
    if at < |position| {
      NextCalls(position, at);
      DispatchOneKeeps(spec, origin, turn, l, stepId, position, at, calls);
      CallFollows(spec, origin, start, turn, t, l, stepId, position, at, calls);
      DispatchFollows(spec, origin, start, turn, TellCall(spec, turn, calls, t, at),
                      DispatchOne(spec, turn, l, stepId, position, position[at], calls), stepId,
                      WithCallStatus(position, at, Completed), calls, at + 1);
    }
  }

  lemma {:induction false} CloseFollows(spec: Spec, origin: State, start: Before, t: Teller, l: Loop)
    requires Sound(spec, origin, l) && AllDone(spec, l) && Follows(spec, start, t, l) && t.over.None?
    ensures Follows(spec, start, TellClose(t), Close(spec, l))
  {
    StopsWhenStuck(spec, l);
    CloseKeeps(spec, origin, l);
    if Stubborn(t.tried) {
      GivesUp(spec, origin, start, t, l);
    } else {
      assert l.rec.usage + [] == l.rec.usage;
    }
  }

  lemma {:induction false} GivesUp(spec: Spec, origin: State, start: Before, t: Teller, l: Loop)
    requires Sound(spec, origin, l) && AllDone(spec, l) && Follows(spec, start, t, l) && t.over.None? && Close(spec, l).ended.Some?
    ensures Follows(spec, start, Over(t, Failed, Some("api_error")), Close(spec, l))
  {
    var tx := Filing([]).(position := Some(Record.Checkpoint));
    FilePlain(spec, origin, l, l.norm, tx);
    assert l.(norm := l.norm) == l;
    EndFollows(spec, origin, start, t, File(spec, l, tx), RunFailed, System, Failed, Some("api_error"), 0);
  }

  // --- A turn

  lemma {:induction false} FiguresGrow(rows: seq<UsageRow>, more: seq<UsageRow>)
    ensures Figures(rows + more) == Figures(rows) + Figures(more)
  {
  }

  /** What is added to the surface and to the ledger is told behind what was. */
  lemma {:induction false} AddedFollows(spec: Spec, start: Before, t: Teller, l: Loop, m: Loop, said: seq<Said>, spent: seq<Usage>)
    requires Follows(spec, start, t, l) && t.over.None? && m == l.(rec := m.rec, journal := m.journal)
    requires Surfaced(m) == Surfaced(l) + said && Figures(m.rec.usage) == Figures(l.rec.usage) + spent
    requires forall id :: Answered(m.rec.entries, spec.runId, id) <==> Answered(l.rec.entries, spec.runId, id)
    ensures Follows(spec, start, t.(said := t.said + said, spent := t.spent + spent), m)
  {
    Three(start.said, t.said, said);
    Three(start.spent, t.spent, spent);
  }

  lemma {:induction false} PutDownFollows(spec: Spec, origin: State, start: Before, turn: Turn, t: Teller, l: Loop, h: Heard,
                                          from: nat, usageId: nat, boundary: nat, next: Position)
    requires HeardOut(spec, origin, l, h, from, usageId) && Says(h, turn.stream) && Follows(spec, start, t, l) && t.over.None?
    requires next == Record.Checkpoint || (next.Tools? && Indexed(next.calls) && AllIn(next.calls, Planned))
    ensures Follows(spec, start, TellBlocks(turn, t), PutDown(spec, l, h, usageId, boundary, next))
  {
    PutDownAdds(spec, origin, l, h, from, usageId, boundary, next);
    SettlingAnswersNothing(spec, l, h, from, usageId, boundary, next);
    SettleTxKeeps(spec, origin, l, h, from, usageId, boundary, next);
    SaysFigures(spec, turn, h, usageId, boundary);
    AddedFollows(spec, start, t, l, PutDown(spec, l, h, usageId, boundary, next), Blocks(turn.stream), Figures(Rows(spec, h, usageId, boundary)));
  }

  lemma {:induction false} SaysFigures(spec: Spec, turn: Turn, h: Heard, usageId: nat, boundary: nat)
    requires Says(h, turn.stream)
    ensures HeardSaid(h) == Blocks(turn.stream)
    ensures Figures(Rows(spec, h, usageId, boundary)) == if LastUsage(turn.stream).Some? then [LastUsage(turn.stream).value] else []
  {
  }

  lemma {:induction false} PutDownAdds(spec: Spec, origin: State, l: Loop, h: Heard, from: nat, usageId: nat, boundary: nat, next: Position)
    requires HeardOut(spec, origin, l, h, from, usageId)
    requires next == Record.Checkpoint || (next.Tools? && Indexed(next.calls) && AllIn(next.calls, Planned))
    ensures var m := PutDown(spec, l, h, usageId, boundary, next);
      && Surfaced(m) == Surfaced(l) + HeardSaid(h)
      && Figures(m.rec.usage) == Figures(l.rec.usage) + Figures(Rows(spec, h, usageId, boundary))
  {
    SettleTxKeeps(spec, origin, l, h, from, usageId, boundary, next);
    FlatConcat(OnSurface(l.rec.entries), CarrierEntries(spec.runId, h));
    CarrierSays(spec.runId, h);
    FiguresGrow(l.rec.usage, Rows(spec, h, usageId, boundary));
  }

  lemma {:induction false} ToolsFollow(spec: Spec, origin: State, start: Before, turn: Turn, t: Teller, l: Loop, h: Heard,
                                       from: nat, usageId: nat, boundary: nat)
    requires HeardOut(spec, origin, l, h, from, usageId) && Says(h, turn.stream) && Follows(spec, start, t, l) && t.over.None?
    ensures Follows(spec, start, TellClose(TellEach(spec, turn, Calls(turn), TellBlocks(turn, t), 0)),
                    UseTools(spec, turn, l, h, usageId, boundary))
  {
    var stepId, planned := StepId(spec.runId, l.norm.seqNo), PlanCalls(Proposed(spec, h.calls));
    PlanKeeps(spec, origin, l, h, from, usageId, boundary);
    PutDownFollows(spec, origin, start, turn, t, l, h, from, usageId, boundary, Tools(stepId, planned));
    PlannedFollow(spec, origin, start, turn, TellBlocks(turn, t), PlanCallsFor(spec, l, h, usageId, boundary), stepId, planned, h.calls);
  }

  lemma {:induction false} PlannedFollow(spec: Spec, origin: State, start: Before, turn: Turn, t: Teller, l: Loop,
                                         stepId: StepId, planned: seq<Call>, calls: seq<ToolCall>)
    requires Sound(spec, origin, l) && Stands(spec, l, Tools(stepId, planned)) && Indexed(planned) && PlannedFor(planned, calls)
    requires AllIn(planned[..0], Completed) && AllIn(planned[0..], Planned) && Follows(spec, start, t, l) && t.over.None?
    ensures Follows(spec, start, TellClose(TellEach(spec, turn, calls, t, 0)), Close(spec, DispatchAll(spec, turn, l, stepId, planned, calls)))
  {
    DispatchFollows(spec, origin, start, turn, t, l, stepId, planned, calls, 0);
    DispatchKeeps(spec, origin, turn, l, stepId, planned, calls, 0);
    CloseFollows(spec, origin, start, TellEach(spec, turn, calls, t, 0), DispatchAll(spec, turn, l, stepId, planned, calls));
  }

  lemma {:induction false} FollowUpFollows(spec: Spec, origin: State, start: Before, t: Teller, l: Loop)
    requires Sound(spec, origin, l) && Stands(spec, l, Record.Checkpoint) && Follows(spec, start, t, l) && t.over.None?
    ensures Follows(spec, start, t.(said := t.said + PromptsSaid(t.inbox), inbox := [], attempt := 0), FollowUp(spec, l))
  {
    FollowUpKeeps(spec, origin, l);
    PromptNumbers(spec, l.norm, l.inbox);
    PromptsSay(spec.runId, MintPrompts(spec, l.norm, l.inbox).1, l.inbox);
    FlatConcat(OnSurface(l.rec.entries), PromptEntries(spec, l));
    AnsweredStays(l.rec.entries, PromptEntries(spec, l), spec.runId);
    Three(start.said, t.said, PromptsSaid(t.inbox));
    assert l.rec.usage + [] == l.rec.usage;
  }

  /** What holds of each way to conclude holds of a conclusion. */
  lemma {:induction false} ConcludeAlongside(told: (Teller, Loop) -> bool, spec: Spec, t: Teller, l: Loop, reason: StopReason)
    requires !reason.ToolUse? && t.attempt == l.attempt && t.inbox == l.inbox
    requires
      if reason == MaxTokens || reason == Refusal || (reason == PauseTurn && t.attempt >= 5)
      then told(Over(t, Failed, Some(ReasonName(reason))), Fail(spec, l, ReasonName(reason)))
      else if reason == PauseTurn then told(t.(attempt := t.attempt + 1), l.(attempt := t.attempt + 1))
      else if reason == ContextWindowExceeded then told(t.(attempt := 0), l.(attempt := 0))
      else if t.inbox == [] then told(Over(t, Finished, Some("end_turn")), RunLoop.Finish(spec, l, reason))
      else told(t.(said := t.said + PromptsSaid(t.inbox), inbox := [], attempt := 0), FollowUp(spec, l))
    ensures told(TellEnding(t, reason), Conclude(spec, l, Decide(reason, t.attempt), reason))
  {
  }

  /** What the loop does of a reason is what is told of it. */
  lemma {:induction false} ConcludeFollows(spec: Spec, origin: State, start: Before, t: Teller, l: Loop, reason: StopReason)
    requires Sound(spec, origin, l) && Stands(spec, l, Record.Checkpoint) && Follows(spec, start, t, l) && t.over.None? && !reason.ToolUse?
    ensures Follows(spec, start, TellEnding(t, reason), Conclude(spec, l, Decide(reason, t.attempt), reason))
  {
    if reason == MaxTokens || reason == Refusal || (reason == PauseTurn && t.attempt >= 5) {
      EndFollows(spec, origin, start, t, l, RunFailed, System, Failed, Some(ReasonName(reason)), 0);
    } else if reason == EndTurn {
      if |l.inbox| > 0 {
        FollowUpFollows(spec, origin, start, t, l);
      } else {
        EndFollows(spec, origin, start, t, l, RunFinished, System, Finished, Some(ReasonName(reason)), l.turns);
      }
    }
    ConcludeAlongside((x: Teller, m: Loop) => Follows(spec, start, x, m), spec, t, l, reason);
  }

  lemma {:induction false} PlainFollows(spec: Spec, origin: State, start: Before, turn: Turn, t: Teller, l: Loop, h: Heard,
                                        from: nat, usageId: nat, boundary: nat)
    requires HeardOut(spec, origin, l, h, from, usageId) && Says(h, turn.stream) && Follows(spec, start, t, l) && t.over.None?
    requires !LastReason(turn.stream).ToolUse?
    ensures Follows(spec, start, TellEnding(TellBlocks(turn, t), LastReason(turn.stream)),
                    Conclude(spec, PutDown(spec, l, h, usageId, boundary, Record.Checkpoint), Decide(ReasonOf(h), l.attempt), ReasonOf(h)))
  {
    SettleTxKeeps(spec, origin, l, h, from, usageId, boundary, Record.Checkpoint);
    PutDownFollows(spec, origin, start, turn, t, l, h, from, usageId, boundary, Record.Checkpoint);
    ConcludeFollows(spec, origin, start, TellBlocks(turn, t), PutDown(spec, l, h, usageId, boundary, Record.Checkpoint), ReasonOf(h));
  }

  /** And settled as it is told. */
  lemma {:induction false} SettleAlongside(told: (Teller, Loop) -> bool, spec: Spec, turn: Turn, t: Teller, l: Loop, h: Heard, usageId: nat, boundary: nat)
    requires ReasonOf(h) == LastReason(turn.stream)
    requires var l0, reason := l.(usage := AddUsage(l.usage, h.usage)), LastReason(turn.stream);
      if reason.ToolUse? then told(TellClose(TellEach(spec, turn, Calls(turn), TellBlocks(turn, t), 0)), UseTools(spec, turn, l0, h, usageId, boundary))
      else told(TellEnding(TellBlocks(turn, t), reason),
                Conclude(spec, PutDown(spec, l0, h, usageId, boundary, Record.Checkpoint), Decide(ReasonOf(h), l.attempt), ReasonOf(h)))
    ensures told(TellSettled(spec, turn, t), Settle(spec, turn, l, h, usageId, boundary))
  {
  }

  lemma {:induction false} SettleFollows(spec: Spec, origin: State, start: Before, turn: Turn, t: Teller, l: Loop, h: Heard,
                                         from: nat, usageId: nat, boundary: nat)
    requires HeardOut(spec, origin, l, h, from, usageId) && Says(h, turn.stream) && Follows(spec, start, t, l) && t.over.None?
    ensures Follows(spec, start, TellSettled(spec, turn, t), Settle(spec, turn, l, h, usageId, boundary))
  {
    var l0 := l.(usage := AddUsage(l.usage, h.usage));
    if LastReason(turn.stream).ToolUse? {
      ToolsFollow(spec, origin, start, turn, t, l0, h, from, usageId, boundary);
    } else {
      PlainFollows(spec, origin, start, turn, t, l0, h, from, usageId, boundary);
    }
    SettleAlongside((x: Teller, m: Loop) => Follows(spec, start, x, m), spec, turn, t, l, h, usageId, boundary);
  }

  lemma {:induction false} BrokenFollows(spec: Spec, origin: State, start: Before, turn: Turn, t: Teller, l: Loop)
    requires Sound(spec, origin, l) && Quiescent(spec, l)
    requires Surfaced(l) == start.said + t.said && Figures(l.rec.usage) == start.spent + t.spent
    ensures Follows(spec, start, TellBroken(turn, t), Broken(spec, turn, l))
  {
    var (n, e) := Mint(l.norm, ProviderError, System, NoPayload);
    var l1 := l.(norm := n);
    assert Sound(spec, origin, l1);
    if turn.abortedDuring {
      EndFollows(spec, origin, start, t, l1, RunInterrupted, UserActor(spec), Interrupted, None, 0);
    } else {
      DoQuiet(spec, origin, l1, Emit([e]));
      EndFollows(spec, origin, start, t, Tell(l1, [e]), RunFailed, System, Failed, Some(turn.fault), 0);
    }
  }

  lemma {:induction false} AwaitFollows(spec: Spec, origin: State, start: Before, turn: Turn, t: Teller, l: Loop, request: Request, usageId: nat)
    requires Sound(spec, origin, l) && usageId == NextUsageId(l.rec.usage) && Follows(spec, start, t, l) && t.over.None?
    requires PositionOf(l.rec, spec.runId).Some? && PositionOf(l.rec, spec.runId).value.RequestPending? && l.norm.blocks == map[]
    ensures Follows(spec, start, TellHeard(spec, turn, t), Await(spec, turn, l, request, usageId))
  {
    var h := Hear(l.norm, turn.stream);
    ListenKeeps(spec, origin, l, request, h, turn.stream);
    HearsStream(l.norm, turn.stream);
    var l1 := Listen(l, request, h);
    if h.broke || turn.broke {
      BrokenFollows(spec, origin, start, turn, t, l1);
    } else {
      SettleFollows(spec, origin, start, turn, t, l1, h, l.norm.seqNo, usageId, |l.rec.entries|);
    }
  }

  /** What is filed off the surface and under no key changes nothing that is told. */
  lemma {:induction false} QuietFollows(spec: Spec, start: Before, t: Teller, l: Loop, m: Loop, es: seq<Entry>)
    requires Follows(spec, start, t, l) && t.over.None?
    requires m.rec.entries == l.rec.entries + es && forall i :: 0 <= i < |es| ==> !es[i].onSurface && es[i].key.None?
    requires m.rec.usage == l.rec.usage && m.attempt == l.attempt && m.inbox == l.inbox && m.tried == l.tried && m.turns == l.turns
    requires m.repeated == l.repeated && m.ended == l.ended
    ensures Follows(spec, start, t, m)
  {
    AddedPlainOff(l.rec.entries, es);
    AnsweredStays(l.rec.entries, es, spec.runId);
  }

  lemma {:induction false} IntendFollows(spec: Spec, origin: State, start: Before, turn: Turn, t: Teller, l: Loop, request: Request)
    requires Sound(spec, origin, l) && Stands(spec, l, Record.Checkpoint) && Follows(spec, start, t, l) && t.over.None?
    ensures var m := Intend(spec, turn, l, request);
      Follows(spec, start, t, m) && m.norm.blocks == l.norm.blocks
  {
    IntendKeeps(spec, origin, turn, l, request);
    IntendStays(spec, turn, l, request);
    var m := Intend(spec, turn, l, request);
    var es := m.rec.entries[|l.rec.entries|..];
    assert m.rec.entries == l.rec.entries + es;
    QuietFollows(spec, start, t, l, m, es);
  }

  lemma {:induction false} IntendStays(spec: Spec, turn: Turn, l: Loop, request: Request)
    ensures var m := Intend(spec, turn, l, request);
      && m.attempt == l.attempt && m.inbox == l.inbox && m.tried == l.tried && m.turns == l.turns
      && m.repeated == l.repeated && m.ended == l.ended && m.norm.blocks == l.norm.blocks
  {
  }

  lemma {:induction false} AddedPlainOff(a: seq<Entry>, es: seq<Entry>)
    requires forall i :: 0 <= i < |es| ==> !es[i].onSurface
    ensures OnSurface(a + es) == OnSurface(a)
  {
    OnSurfaceConcat(a, es);
    NoneOnSurface(es);
  }

  lemma {:induction false} SendFollows(spec: Spec, origin: State, start: Before, turn: Turn, t: Teller, l: Loop, request: Request)
    requires Sound(spec, origin, l) && Stands(spec, l, Record.Checkpoint) && Follows(spec, start, t, l) && t.over.None? && l.norm.blocks == map[]
    ensures Follows(spec, start, TellHeard(spec, turn, t), SendOne(spec, turn, l, request))
  {
    IntendKeeps(spec, origin, turn, l, request);
    IntendFollows(spec, origin, start, turn, t, l, request);
    AwaitFollows(spec, origin, start, turn, t, Intend(spec, turn, l, request), request, NextUsageId(l.rec.usage));
  }

  lemma {:induction false} RefuseFollows(spec: Spec, origin: State, start: Before, t: Teller, l: Loop)
    requires Sound(spec, origin, l) && Stands(spec, l, Record.Checkpoint) && Follows(spec, start, t, l)
    ensures Follows(spec, start, Over(t, Failed, Some("refused")), Refuse(spec, l))
  {
    var (n, e) := Mint(l.norm, ProviderError, System, NoPayload);
    var tx := Filing([EntryFor(spec.runId, e, None)]);
    SayKeeps(spec, origin, l, n, e, tx);
    var l1 := Tell(File(spec, l.(norm := n), tx), [e]);
    SaidOff(spec, origin, l, n, e, tx);
    EndFollows(spec, origin, start, t, l1, RunFailed, System, Failed, Some("refused"), 0);
  }

  lemma {:induction false} SaidOff(spec: Spec, origin: State, l: Loop, n: Norm, e: Envelope, tx: Tx)
    requires Sound(spec, origin, l) && Stands(spec, l, Record.Checkpoint)
    requires (n, e) == Mint(l.norm, ProviderError, System, NoPayload) && tx == Filing([EntryFor(spec.runId, e, None)])
    ensures var m := Tell(File(spec, l.(norm := n), tx), [e]);
      OnSurface(m.rec.entries) == OnSurface(l.rec.entries) && m.rec.usage == l.rec.usage
  {
    FilePlain(spec, origin, l, n, tx);
    AddedPlainOff(l.rec.entries, tx.entries);
  }

  lemma {:induction false} AskFollows(spec: Spec, origin: State, start: Before, turn: Turn, t: Teller, l: Loop)
    requires Sound(spec, origin, l) && Stands(spec, l, Record.Checkpoint) && Follows(spec, start, t, l) && t.over.None? && l.norm.blocks == map[]
    ensures Follows(spec, start, TellAsked(spec, turn, t), Ask(spec, turn, l))
  {
    if Refuses(spec, turn) {
      RefuseFollows(spec, origin, start, t, l);
    } else {
      SendFollows(spec, origin, start, turn, t, l, RequestFor(spec, l.rec));
    }
  }

  lemma {:induction false} BeginFollows(spec: Spec, origin: State, start: Before, turn: Turn, t: Teller, l: Loop)
    requires Standing(spec, origin, l) && Follows(spec, start, t, l) && t.over.None?
    ensures var m := BeginsTurn(turn, l);
      && Sound(spec, origin, m) && Stands(spec, m, Record.Checkpoint) && m.norm.blocks == map[]
      && Follows(spec, start, t.(inbox := t.inbox + turn.arrived, turns := t.turns + 1), m)
  {
  }

  lemma {:induction false} TurnTold(spec: Spec, turn: Turn, t: Teller)
    ensures TellTurn(spec, turn, t) == if turn.abortedBefore then Over(t, Interrupted, None)
      else TellAsked(spec, turn, t.(inbox := t.inbox + turn.arrived, turns := t.turns + 1))
  {
  }

  lemma {:induction false} TurnTaken(spec: Spec, turn: Turn, l: Loop)
    ensures Take(spec, turn, l) == if turn.abortedBefore then Interrupt(spec, l) else Ask(spec, turn, BeginsTurn(turn, l))
  {
  }

  lemma {:induction false} TakeFollows(spec: Spec, origin: State, start: Before, turn: Turn, t: Teller, l: Loop)
    requires Standing(spec, origin, l) && Follows(spec, start, t, l) && t.over.None?
    ensures Follows(spec, start, TellTurn(spec, turn, t), Take(spec, turn, l))
  {
    if turn.abortedBefore {
      AbortFollows(spec, origin, start, t, l);
    } else {
      BeginFollows(spec, origin, start, turn, t, l);
      var x, m := t.(inbox := t.inbox + turn.arrived, turns := t.turns + 1), BeginsTurn(turn, l);
      AskFollows(spec, origin, start, turn, x, m);
      TurnTold(spec, turn, t);
      TurnTaken(spec, turn, l);
    }
  }

  lemma {:induction false} AbortFollows(spec: Spec, origin: State, start: Before, t: Teller, l: Loop)
    requires Standing(spec, origin, l) && Follows(spec, start, t, l) && t.over.None?
    ensures Follows(spec, start, Over(t, Interrupted, None), Interrupt(spec, l))
  {
    EndFollows(spec, origin, start, t, l, RunInterrupted, UserActor(spec), Interrupted, None, 0);
  }

  // --- A run -------------------------------------------------------------------------------------------------

  /** Whatever one turn keeps of a loop and its tale, any number of turns keep. */
  lemma {:induction false} TurnsKeep(take: (nat, Loop) -> Loop, tell: (nat, Teller) -> Teller, kept: (Loop, Teller) -> bool,
                                     l: Loop, t: Teller, n: nat)
    requires kept(l, t) && forall b, x :: kept(b, x) ==> (b.ended.Some? <==> x.over.Some?)
    requires forall i, b, x :: kept(b, x) && x.over.None? ==> kept(take(i, b), tell(i, x))
    ensures kept(Iterate(take, l, n), TellTurns(tell, t, n))
  {
    if n > 0 {
      TurnsKeep(take, tell, kept, l, t, n - 1);
    }
  }

  ghost predicate ToldSoFar(spec: Spec, origin: State, start: Before, b: Loop, t: Teller) {
    Standing(spec, origin, b) && Follows(spec, start, t, b)
  }

  lemma {:induction false} ToldNext(spec: Spec, origin: State, start: Before, turn: Turn, b: Loop, t: Teller)
    requires ToldSoFar(spec, origin, start, b, t) && t.over.None?
    ensures ToldSoFar(spec, origin, start, Take(spec, turn, b), TellTurn(spec, turn, t))
  {
    TakeStands(spec, origin, turn, b);
    TakeFollows(spec, origin, start, turn, t, b);
  }

  lemma {:induction false} TurnsTell(spec: Spec, origin: State, world: nat -> Turn, start: Before, l: Loop, t: Teller, n: nat)
    requires ToldSoFar(spec, origin, start, l, t)
    ensures ToldSoFar(spec, origin, start, Iterate(Taking(spec, world), l, n), TellTurns(Telling(spec, world), t, n))
  {
    var kept := (b: Loop, x: Teller) => ToldSoFar(spec, origin, start, b, x);
    forall i, b, x | kept(b, x) && x.over.None? ensures kept(Taking(spec, world)(i, b), Telling(spec, world)(i, x)) {
      ToldNext(spec, origin, start, world(i), b, x);
    }
    TurnsKeep(Taking(spec, world), Telling(spec, world), kept, l, t, n);
  }

  lemma {:induction false} OpeningFollows(spec: Spec, origin: State, inbox: seq<string>)
    requires Fresh(origin, spec.runId)
    ensures var l := Opening(spec, Idle(origin, inbox));
      Follows(spec, Before(Surfaced(l), Figures(origin.usage)), Start(inbox), l)
  {
    var l := Opening(spec, Idle(origin, inbox));
    OpeningKeeps(spec, origin, inbox);
    AnsweredStays(origin.entries, OpeningEntries(spec, HighestSeq(origin.entries, spec.runId)), spec.runId);
    assert Surfaced(l) + [] == Surfaced(l);
  }

  lemma {:induction false} OpeningSays(spec: Spec, origin: State, inbox: seq<string>)
    requires Fresh(origin, spec.runId)
    ensures Surfaced(Opening(spec, Idle(origin, inbox))) == Flat(OnSurface(origin.entries)) + [Said(UserRole, TextBlock(spec.prompt))]
  {
    OpeningKeeps(spec, origin, inbox);
    EntriesSay(spec, origin.entries, HighestSeq(origin.entries, spec.runId), Opening(spec, Idle(origin, inbox)));
  }

  lemma {:induction false} EntriesSay(spec: Spec, entries: seq<Entry>, at: nat, l: Loop)
    requires l.rec.entries == entries + OpeningEntries(spec, at)
    ensures Surfaced(l) == Flat(OnSurface(entries)) + [Said(UserRole, TextBlock(spec.prompt))]
  {
    BeginningSays(spec, entries, at);
  }

  lemma {:induction false} BeginningSays(spec: Spec, entries: seq<Entry>, at: nat)
    ensures Flat(OnSurface(entries + OpeningEntries(spec, at)))
      == Flat(OnSurface(entries)) + [Said(UserRole, TextBlock(spec.prompt))]
  {
    PromptSays(entries, PromptEntry(spec, at + 1), StartedEntry(spec, at + 2), spec.prompt);
  }

  lemma {:induction false} PromptSays(entries: seq<Entry>, prompt: Entry, started: Entry, text: string)
    requires prompt.onSurface && prompt.actor != Claude && prompt.blocks == Some([TextBlock(text)]) && !started.onSurface
    ensures Flat(OnSurface(entries + [prompt, started])) == Flat(OnSurface(entries)) + [Said(UserRole, TextBlock(text))]
  {
    OneOfTwo(entries, prompt, started);
    FlatConcat(OnSurface(entries), [prompt]);
    FlatOne(prompt);
    assert SaidBy(UserRole, [TextBlock(text)]) == [Said(UserRole, TextBlock(text))];
  }

  lemma {:induction false} OneOfTwo(entries: seq<Entry>, shown: Entry, hidden: Entry)
    requires shown.onSurface && !hidden.onSurface
    ensures OnSurface(entries + [shown, hidden]) == OnSurface(entries) + [shown]
  {
    OnSurfaceConcat(entries, [shown, hidden]);
    assert [shown, hidden][1..] == [hidden] && [hidden][1..] == [];
    assert OnSurface([hidden]) == [];
    assert OnSurface([shown, hidden]) == [shown] + OnSurface([hidden]);
  }

  /** What a whole run says and how it ends: a hundred turns end it if none of them does. */
  function WholeTale(spec: Spec, world: nat -> Turn, inbox: seq<string>): Teller {
    var t := Tale(spec, world, inbox, 100);
    if t.over.Some? then t else Over(t, Failed, Some("max_tokens"))
  }

  /** The surface after a run is what it was before, then the prompt, then the tale of its turns, told from what was
      said to it alone: every settled turn's blocks once and in order if any of them can be announced, then one
      result per call in call order but for a call whose id has had one, or the follow-ups it drained. Nothing of a
      turn that was refused, interrupted or broken is there. The ledger has grown by the figures of each settled turn
      that reported any. And the turns end the run just where the tale is over, in the way that it is. */
  lemma {:induction false} RunSays(spec: Spec, origin: State, world: nat -> Turn, inbox: seq<string>)
    requires Fresh(origin, spec.runId)
    ensures var m, tale := Run(spec, world, Idle(origin, inbox)), WholeTale(spec, world, inbox);
      && Surfaced(m) == Flat(OnSurface(origin.entries)) + [Said(UserRole, TextBlock(spec.prompt))] + tale.said
      && Figures(m.rec.usage) == Figures(origin.usage) + tale.spent
      && Closed(spec, m, tale.over.value)
    ensures forall n: nat :: Turns(spec, world, Idle(origin, inbox), n).ended.Some? <==> Tale(spec, world, inbox, n).over.Some?
  {
    OpeningSays(spec, origin, inbox);
    forall n: nat ensures Turns(spec, world, Idle(origin, inbox), n).ended.Some? <==> Tale(spec, world, inbox, n).over.Some? {
      TaleTold(spec, origin, world, inbox, n);
    }
    TaleTold(spec, origin, world, inbox, 100);
    ExhaustFollows(spec, origin, Before(Surfaced(Opening(spec, Idle(origin, inbox))), Figures(origin.usage)),
                   Tale(spec, world, inbox, 100), Turns(spec, world, Idle(origin, inbox), 100));
  }

  lemma {:induction false} TaleTold(spec: Spec, origin: State, world: nat -> Turn, inbox: seq<string>, n: nat)
    requires Fresh(origin, spec.runId)
    ensures ToldSoFar(spec, origin, Before(Surfaced(Opening(spec, Idle(origin, inbox))), Figures(origin.usage)),
                      Turns(spec, world, Idle(origin, inbox), n), Tale(spec, world, inbox, n))
  {
    var l := Opening(spec, Idle(origin, inbox));
    OpeningStands(spec, origin, inbox);
    OpeningFollows(spec, origin, inbox);
    TurnsTell(spec, origin, world, Before(Surfaced(l), Figures(origin.usage)), l, Start(inbox), n);
  }

  lemma {:induction false} ExhaustFollows(spec: Spec, origin: State, start: Before, t: Teller, l: Loop)
    requires ToldSoFar(spec, origin, start, l, t)
    ensures Follows(spec, start, if t.over.Some? then t else Over(t, Failed, Some("max_tokens")), Exhaust(spec, l))
  {
    if l.ended.None? {
      EndFollows(spec, origin, start, t, l, RunFailed, System, Failed, Some("max_tokens"), 0);
    }
  }
}
