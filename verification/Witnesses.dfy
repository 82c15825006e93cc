/** Runs that show where the guarantees end: a later baseline from which nothing is rebuilt, and a recovery torn
    twice over the one call it must not repeat. */
module Witnesses {
  import opened Json
  import opened Contract
  import opened Record
  import opened Checkpoint
  import opened Journal
  import opened Normalize
  import opened Recovery
  import opened Protocol
  import opened CrashSafety
  import opened Restarts
  import opened RunLaws
  import opened TurnLaws
  import opened Runs
  import opened Pacing
  import opened Guarantees
  import RunLoop
  import Surface

  // --- The first turn of a run ------------------------------------------------------------------

  /** A turn in which the model says just this. */
  function Saying(stream: seq<ProviderEvent>): RunLoop.Turn {
    RunLoop.Turn(false, "turn", false, "key", stream, false, "", false, [],
                 i => RunLoop.Effect(RunLoop.Ungated, [], Outcome(true, ""), None))
  }

  predicate CanAsk(spec: RunLoop.Spec) {
    spec.caps.toolUse || spec.tools == []
  }

  function Begun(spec: RunLoop.Spec, turn: RunLoop.Turn, origin: State): RunLoop.Loop {
    RunLoop.BeginsTurn(turn, RunLoop.Opening(spec, RunLoop.Idle(origin, [])))
  }

  lemma {:induction false} BegunStands(spec: RunLoop.Spec, turn: RunLoop.Turn, origin: State)
    requires Fresh(origin, spec.runId)
    ensures var l := Begun(spec, turn, origin);
      Standing(spec, origin, l) && l.ended.None? && l.rec.usage == origin.usage
  {
    OpeningStands(spec, origin, []);
    OpeningKeeps(spec, origin, []);
    BeginStands(spec, origin, turn, RunLoop.Opening(spec, RunLoop.Idle(origin, [])));
  }

  /** What the first turn does is in every run that begins with it. */
  lemma {:induction false} FirstTurnInRun(spec: RunLoop.Spec, world: nat -> RunLoop.Turn, origin: State, stream: seq<ProviderEvent>)
    requires world(0) == Saying(stream) && CanAsk(spec)
    ensures RunLoop.Ask(spec, Saying(stream), Begun(spec, Saying(stream), origin)).journal <= WholeRun(spec, world, origin, []).journal
  {
    var l := RunLoop.Idle(origin, []);
    TurnsInRun(spec, world, l, 1);
    FirstTurn(spec, world, l);
  }

  lemma {:induction false} FirstTurn(spec: RunLoop.Spec, world: nat -> RunLoop.Turn, l: RunLoop.Loop)
    ensures RunLoop.Turns(spec, world, l, 1) == RunLoop.Take(spec, world(0), RunLoop.Opening(spec, l))
  {
    assert RunLoop.Iterate(RunLoop.Taking(spec, world), RunLoop.Opening(spec, l), 0) == RunLoop.Opening(spec, l);
  }

  lemma {:induction false} AsksOf(spec: RunLoop.Spec, turn: RunLoop.Turn, l: RunLoop.Loop)
    requires !RunLoop.Refuses(spec, turn)
    ensures RunLoop.Ask(spec, turn, l)
      == RunLoop.Await(spec, turn, RunLoop.Intend(spec, turn, l, RunLoop.RequestFor(spec, l.rec)),
                       RunLoop.RequestFor(spec, l.rec), NextUsageId(l.rec.usage))
  {
  }

  // --- A later baseline ---------------------------------------------------------------------------

  lemma {:induction false} ReportHeard(n: Norm, usage: Usage)
    ensures var h := RunLoop.Hear(n, [MessageDelta(EndTurn, usage)]);
      !h.broke && h.reported
  {
    assert [MessageDelta(EndTurn, usage)][..0] == [];
    assert RunLoop.HearAll(n, []) == RunLoop.Silence(n);
  }

  /** A turn that only reports what it spent leaves a row. */
  lemma {:induction false} AwaitMeters(spec: RunLoop.Spec, origin: State, l: RunLoop.Loop, request: Request, usageId: nat, usage: Usage)
    requires Pending(spec, origin, l, request, usageId)
    ensures var m := RunLoop.Await(spec, Saying([MessageDelta(EndTurn, usage)]), l, request, usageId);
      m.rec == Replay(origin, m.journal) && |m.rec.usage| == |l.rec.usage| + 1
  {
    AwaitKeeps(spec, origin, Saying([MessageDelta(EndTurn, usage)]), l, request, usageId);
    ReportHeard(l.norm, usage);
  }

  lemma {:induction false} AskMeters(spec: RunLoop.Spec, origin: State, l: RunLoop.Loop, usage: Usage)
    requires Standing(spec, origin, l) && l.ended.None? && CanAsk(spec)
    ensures var m := RunLoop.Ask(spec, Saying([MessageDelta(EndTurn, usage)]), l);
      m.rec == Replay(origin, m.journal) && |m.rec.usage| == |l.rec.usage| + 1
  {
    var turn, request := Saying([MessageDelta(EndTurn, usage)]), RunLoop.RequestFor(spec, l.rec);
    AsksOf(spec, turn, l);
    IntendPends(spec, origin, turn, l);
    IntendKeeps(spec, origin, turn, l, request);
    AwaitMeters(spec, origin, RunLoop.Intend(spec, turn, l, request), request, NextUsageId(l.rec.usage), usage);
  }

  lemma {:induction false} LaterHasRows(origin: State, a: seq<Step>, b: seq<Step>)
    requires a <= b
    ensures |Replay(origin, a).usage| <= |Replay(origin, b).usage|
  {
    assert b == a + b[|a|..];
    ReplayConcat(origin, a, b[|a|..]);
    ReplayGrows(Replay(origin, a), b[|a|..]);
  }

  /** A run that begins with such a turn has a row. */
  lemma {:induction false} RunHasRow(spec: RunLoop.Spec, world: nat -> RunLoop.Turn, origin: State, usage: Usage)
    requires Fresh(origin, spec.runId) && CanAsk(spec) && world(0) == Saying([MessageDelta(EndTurn, usage)])
    ensures |WholeRun(spec, world, origin, []).rec.usage| > |origin.usage|
  {
    var stream := [MessageDelta(EndTurn, usage)];
    BegunStands(spec, Saying(stream), origin);
    AskMeters(spec, origin, Begun(spec, Saying(stream), origin), usage);
    FirstTurnInRun(spec, world, origin, stream);
    RunStands(spec, origin, world, []);
    LaterHasRows(origin, RunLoop.Ask(spec, Saying(stream), Begun(spec, Saying(stream), origin)).journal,
                 WholeRun(spec, world, origin, []).journal);
  }

  /** Where something that belongs to no call is on the surface in front of the baseline, no row of any run from
      there rebuilds the request it stands for. */
  lemma {:induction false} SpokenBaselineRebuildsNothing(spec: RunLoop.Spec, world: nat -> RunLoop.Turn, origin: State, inbox: seq<string>,
                                                         x: Surface.Said, i: nat) returns (k: nat)
    requires Fresh(origin, spec.runId) && 1 < spec.surfaceFrom <= |origin.entries| + 1
    requires x in Surface.Flat(InFront(spec, origin.entries)) && Surface.BlockId(x.block).None?
    requires |origin.usage| <= i < |WholeRun(spec, world, origin, inbox).rec.usage|
    ensures var m := WholeRun(spec, world, origin, inbox);
      var row := m.rec.usage[i];
      && row.boundary <= |m.rec.entries| && k < |m.journal| && m.journal[k].Sent?
      && Replay(origin, m.journal[..k]).entries == m.rec.entries[..row.boundary]
      && Rebuild(spec, m.rec.entries[..row.boundary]).Ok?
      && Rebuild(spec, m.rec.entries[..row.boundary]).request != m.journal[k].request
  {
    k := RunRebuilds(spec, world, origin, inbox, i);
    var m := WholeRun(spec, world, origin, inbox);
    SpokenStays(spec, origin, m.journal[..k], x);
  }

  lemma {:induction false} SpokenStays(spec: RunLoop.Spec, origin: State, j: seq<Step>, x: Surface.Said)
    requires 1 < spec.surfaceFrom <= |origin.entries| + 1
    requires x in Surface.Flat(InFront(spec, origin.entries)) && Surface.BlockId(x.block).None?
    ensures !SilentBaseline(spec, Replay(origin, j).entries)
  {
    ReplayGrows(origin, j);
    var entries := Replay(origin, j).entries;
    assert entries[..spec.surfaceFrom - 1] == origin.entries[..spec.surfaceFrom - 1];
    SpokenBefore(spec, entries, x);
  }

  /** Such a run, and its row: another run's prompt, and this one folded from behind it. */
  lemma {:induction false} LaterBaselineRebuildsNothing(spec: RunLoop.Spec, world: nat -> RunLoop.Turn, usage: Usage) returns (i: nat, k: nat)
    requires spec.surfaceFrom == 2 && spec.runId != "" && CanAsk(spec) && world(0) == Saying([MessageDelta(EndTurn, usage)])
    ensures var m := WholeRun(spec, world, OthersPrompt(), []);
      && i < |m.rec.usage| && m.rec.usage[i].boundary <= |m.rec.entries| && k < |m.journal| && m.journal[k].Sent?
      && Replay(OthersPrompt(), m.journal[..k]).entries == m.rec.entries[..m.rec.usage[i].boundary]
      && Rebuild(spec, m.rec.entries[..m.rec.usage[i].boundary]).Ok?
      && Rebuild(spec, m.rec.entries[..m.rec.usage[i].boundary]).request != m.journal[k].request
  {
    OthersPromptSpeaks(spec);
    RunHasRow(spec, world, OthersPrompt(), usage);
    i := 0;
    k := SpokenBaselineRebuildsNothing(spec, world, OthersPrompt(), [], Surface.Said(UserRole, TextBlock("hello")), 0);
  }

  function OthersPrompt(): State {
    EMPTY.(entries := [Entry("", Some(1), None, UserPrompt, User, NoPayload, Some([TextBlock("hello")]), true, true)])
  }

  lemma {:induction false} OthersPromptSpeaks(spec: RunLoop.Spec)
    requires spec.surfaceFrom == 2 && spec.runId != ""
    ensures Fresh(OthersPrompt(), spec.runId)
    ensures Surface.Said(UserRole, TextBlock("hello")) in Surface.Flat(InFront(spec, OthersPrompt().entries))
    ensures Surface.BlockId(TextBlock("hello")).None?
  {
    var es := OthersPrompt().entries;
    assert es[..1] == es && es[1..] == [];
    assert OnSurface([]) == [];
    assert OnSurface(es) == es;
    assert es[..0] == [] && Surface.Flat([]) == [];
    assert Surface.Flat(es) == Surface.SaidBy(UserRole, [TextBlock("hello")]);
    assert Surface.Flat(es)[0] == Surface.Said(UserRole, TextBlock("hello"));
  }

  // --- A call begun twice ---------------------------------------------------------------------------

  /** A turn that makes one call. */
  function Calling(id: string, usage: Usage): seq<ProviderEvent> {
    [BlockStop(0, ToolUseBlock(id, "t", Null)), MessageDelta(ToolUse, usage)]
  }

  lemma {:induction false} CallHeard(n: Norm, id: string, usage: Usage)
    ensures var h := RunLoop.Hear(n, Calling(id, usage));
      !h.broke && h.calls == [RunLoop.ToolCall(id, "t", Some(Null))] && h.stopReason == Some(ToolUse)
  {
    var block := ToolUseBlock(id, "t", Null);
    CallRead(id);
    assert Calling(id, usage)[..1] == [BlockStop(0, block)] && [BlockStop(0, block)][..0] == [];
    assert RunLoop.HearAll(n, []) == RunLoop.Silence(n);
    var h := RunLoop.HearAll(n, [BlockStop(0, block)]);
    assert h == RunLoop.HearOne(RunLoop.Silence(n), BlockStop(0, block));
    assert !h.broke && h.calls == [] + [RunLoop.ToolCall(id, "t", Some(Null))];
    assert RunLoop.HearAll(n, Calling(id, usage)) == RunLoop.HearOne(h, MessageDelta(ToolUse, usage));
  }

  lemma {:induction false} CallRead(id: string)
    ensures !RunLoop.Unreadable(ToolUseBlock(id, "t", Null))
    ensures RunLoop.CallsOf(ToolUseBlock(id, "t", Null)) == [RunLoop.ToolCall(id, "t", Some(Null))]
  {
  }

  /** The call is planned and on the record, and nothing of it has been done. */
  ghost predicate PlannedOnly(spec: RunLoop.Spec, origin: State, j: seq<Step>, id: string) {
    exists step :: PositionOf(Replay(origin, j), spec.runId)
      == Some(Tools(step, [Call(0, id, "t", ToolKey(id), Never, Planned)]))
  }

  lemma {:induction false} SettlePlans(spec: RunLoop.Spec, origin: State, turn: RunLoop.Turn, l: RunLoop.Loop, h: RunLoop.Heard,
                                       from: nat, usageId: nat, boundary: nat, id: string) returns (j: seq<Step>)
    requires HeardOut(spec, origin, l, h, from, usageId)
    requires h.calls == [RunLoop.ToolCall(id, "t", Some(Null))] && h.stopReason == Some(ToolUse)
    requires spec.policy("t", Some(Null)) == Never
    ensures j <= RunLoop.Settle(spec, turn, l, h, usageId, boundary).journal && PlannedOnly(spec, origin, j, id)
  {
    var l0 := l.(usage := AddUsage(l.usage, h.usage));
    j := UsePlans(spec, origin, turn, l0, h, from, usageId, boundary, id);
  }

  lemma {:induction false} UsePlans(spec: RunLoop.Spec, origin: State, turn: RunLoop.Turn, l: RunLoop.Loop, h: RunLoop.Heard,
                                    from: nat, usageId: nat, boundary: nat, id: string) returns (j: seq<Step>)
    requires HeardOut(spec, origin, l, h, from, usageId) && h.calls == [RunLoop.ToolCall(id, "t", Some(Null))]
    requires spec.policy("t", Some(Null)) == Never
    ensures j <= RunLoop.UseTools(spec, turn, l, h, usageId, boundary).journal && PlannedOnly(spec, origin, j, id)
  {
    PlanKeeps(spec, origin, l, h, from, usageId, boundary);
    var p := RunLoop.PlanCallsFor(spec, l, h, usageId, boundary);
    var step, planned := StepId(spec.runId, l.norm.seqNo), PlanCalls(RunLoop.Proposed(spec, h.calls));
    assert planned == [Call(0, id, "t", ToolKey(id), Never, Planned)];
    j := p.journal;
    assert PositionOf(Replay(origin, j), spec.runId) == Some(Tools(step, planned));
    SteadySelf(spec, p);
    PlannedSteady(spec, turn, p, p, step, planned, h.calls);
  }

  lemma {:induction false} SteadySelf(spec: RunLoop.Spec, l: RunLoop.Loop)
    ensures Steady(spec, l, l, 0)
  {
  }

  lemma {:induction false} AwaitPlans(spec: RunLoop.Spec, origin: State, l: RunLoop.Loop, request: Request, usageId: nat, id: string, usage: Usage)
    returns (j: seq<Step>)
    requires Pending(spec, origin, l, request, usageId) && spec.policy("t", Some(Null)) == Never
    ensures j <= RunLoop.Await(spec, Saying(Calling(id, usage)), l, request, usageId).journal && PlannedOnly(spec, origin, j, id)
  {
    var turn := Saying(Calling(id, usage));
    var h := RunLoop.Hear(l.norm, turn.stream);
    ListenKeeps(spec, origin, l, request, h, turn.stream);
    CallHeard(l.norm, id, usage);
    j := SettlePlans(spec, origin, turn, RunLoop.Listen(l, request, h), h, l.norm.seqNo, usageId, |l.rec.entries|, id);
  }

  lemma {:induction false} AskPlans(spec: RunLoop.Spec, origin: State, l: RunLoop.Loop, id: string, usage: Usage) returns (j: seq<Step>)
    requires Standing(spec, origin, l) && l.ended.None? && CanAsk(spec) && spec.policy("t", Some(Null)) == Never
    ensures j <= RunLoop.Ask(spec, Saying(Calling(id, usage)), l).journal && PlannedOnly(spec, origin, j, id)
  {
    var turn, request := Saying(Calling(id, usage)), RunLoop.RequestFor(spec, l.rec);
    AsksOf(spec, turn, l);
    IntendPends(spec, origin, turn, l);
    j := AwaitPlans(spec, origin, RunLoop.Intend(spec, turn, l, request), request, NextUsageId(l.rec.usage), id, usage);
  }

  /** Every run that begins with one call that must not be repeated can be cut, and its recovery cut once, so that
      the call is begun twice, where recovery is given a way to run calls. */
  lemma {:induction false} TornRunBeginsTwice(spec: RunLoop.Spec, world: nat -> RunLoop.Turn, origin: State, deps: Deps, id: string, usage: Usage)
    returns (cut: nat)
    requires Fresh(origin, spec.runId) && CanAsk(spec) && world(0) == Saying(Calling(id, usage))
    requires spec.policy("t", Some(Null)) == Never && deps.reexecute.Some?
    ensures cut <= |WholeRun(spec, world, origin, []).journal|
    ensures var j := WholeRun(spec, world, origin, []).journal[..cut];
      Starts(j + Passes(Crashed(spec, world, origin, [], cut), spec.runId, deps, [1]), id) >= 2
  {
    var j := RunPlans(spec, world, origin, id, usage);
    cut := |j|;
    TornPlanned(spec, origin, j, deps, id);
  }

  lemma {:induction false} RunPlans(spec: RunLoop.Spec, world: nat -> RunLoop.Turn, origin: State, id: string, usage: Usage)
    returns (j: seq<Step>)
    requires Fresh(origin, spec.runId) && CanAsk(spec) && world(0) == Saying(Calling(id, usage))
    requires spec.policy("t", Some(Null)) == Never
    ensures var all := WholeRun(spec, world, origin, []).journal;
      |j| <= |all| && all[..|j|] == j && PlannedOnly(spec, origin, j, id)
  {
    var turn := Saying(Calling(id, usage));
    BegunStands(spec, turn, origin);
    j := AskPlans(spec, origin, Begun(spec, turn, origin), id, usage);
    FirstTurnInRun(spec, world, origin, Calling(id, usage));
    FrontOf(j, RunLoop.Ask(spec, turn, Begun(spec, turn, origin)).journal, WholeRun(spec, world, origin, []).journal);
  }

  lemma {:induction false} FrontOf(a: seq<Step>, b: seq<Step>, c: seq<Step>)
    requires a <= b <= c
    ensures |a| <= |c| && c[..|a|] == a
  {
  }

  lemma {:induction false} TornPlanned(spec: RunLoop.Spec, origin: State, j: seq<Step>, deps: Deps, id: string)
    requires PlannedOnly(spec, origin, j, id) && deps.reexecute.Some?
    ensures Starts(j + Passes(Replay(origin, j), spec.runId, deps, [1]), id) >= 2
  {
    var s, call := Replay(origin, j), Call(0, id, "t", ToolKey(id), Never, Planned);
    var step :| PositionOf(s, spec.runId) == Some(Tools(step, [call]));
    TornBeginsTwice(s, spec.runId, step, call, deps);
    StartsConcat(j, Passes(s, spec.runId, deps, [1]), id);
  }
}
