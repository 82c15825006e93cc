/** The recovery executor: settles what the position register says a run owes. */
module Recovery {
  import opened Json
  import opened Contract
  import opened Record
  import opened Checkpoint
  import opened Journal

  /** How a call is re-run, when the caller supplies a way: a function of the call and of
      the arguments the record holds for it. As shipped, none is supplied. */
  datatype Deps = Deps(reexecute: Option<(Call, Value) -> Outcome>)

  const SHIPPED := Deps(None)

  const INTERRUPTED := Outcome(false, "[interrupted: the harness restarted while this was running]")

  // --- What is written -------------------------------------------------------------

  function ResultEntry(run: string, call: Call, o: Outcome): Entry {
    Entry(run, None, Some(call.key), if o.ok then ToolFinished else ToolFailed, System,
          Tool(call.toolUseId), Some([ToolResultBlock(call.toolUseId, o.text, !o.ok)]), true, false)
  }

  function UncertainEntry(run: string, key: SettlementKey): Entry {
    Entry(run, None, Some(key), RunInterrupted, System, Uncertain, None, false, false)
  }

  // --- The steps of one pass ---------------------------------------------------------

  /** A call recovery settles, and whether by running it. */
  datatype Owed = Owed(call: Call, run: bool)

  function ArgsOf(s: State, step: StepId, call: Call): Value {
    if (step, call.index) in s.toolArgs then s.toolArgs[(step, call.index)] else Null
  }

  function OutcomeOf(s: State, step: StepId, owed: Owed, deps: Deps): Outcome {
    if owed.run && deps.reexecute.Some? then deps.reexecute.value(owed.call, ArgsOf(s, step, owed.call))
    else INTERRUPTED
  }

  function SettleOne(s: State, run: string, step: StepId, calls: seq<Call>, owed: Owed, deps: Deps): seq<Step> {
    (if owed.run && deps.reexecute.Some?
     then [Began(owed.call.toolUseId, ArgsOf(s, step, owed.call))] else [])
    + [Commit([PutEntry(ResultEntry(run, owed.call, OutcomeOf(s, step, owed, deps))),
               SetPosition(run, Tools(step, WithCallStatus(calls, owed.call.index, Completed)))])]
  }

  function SettleAll(s: State, run: string, step: StepId, calls: seq<Call>, owed: seq<Owed>, deps: Deps): seq<Step>
    decreases |owed|
  {
    if owed == [] then []
    else SettleOne(s, run, step, calls, owed[0], deps)
         + SettleAll(s, run, step, WithCallStatus(calls, owed[0].call.index, Completed), owed[1..], deps)
  }

  function Mark(calls: seq<Call>, run: bool): (r: seq<Owed>)
    ensures |r| == |calls| && forall i :: 0 <= i < |r| ==> r[i] == Owed(calls[i], run)
  {
    seq(|calls|, i requires 0 <= i < |calls| => Owed(calls[i], run))
  }

  /** Interrupted `never` calls, then calls that had not started, then `safe` ones. */
  function OwedBy(calls: seq<Call>): seq<Owed> {
    Mark(Select(calls, Stranded), false) + Mark(Select(calls, Unstarted), true)
    + Mark(Select(calls, Repeatable), true)
  }

  function Steps(s: State, run: string, deps: Deps): seq<Step> {
    match PlanRecovery(PositionOf(s, run))
    case Resume => []
    case SettleUncertain(key, _) =>
      [Commit([PutEntry(UncertainEntry(run, key)), SetPosition(run, Terminal(Interrupted))])]
    case FinishTools(step, calls, _, _, _) =>
      SettleAll(s, run, step, calls, OwedBy(calls), deps) + [Commit([SetPosition(run, Record.Checkpoint)])]
    case Recompact(_) => [Commit([SetPosition(run, Record.Checkpoint)])]
    case NothingOwed(_) => []
    case ReportFailed => []
  }

  /** The record after a pass that is not cut short. */
  function Recovered(s: State, run: string, deps: Deps): State {
    Replay(s, Steps(s, run, deps))
  }

  ghost predicate GoodPosition(s: State, run: string) {
    match PositionOf(s, run)
    case Some(Tools(_, calls)) => Indexed(calls)
    case _ => true
  }

  function CompleteEach(calls: seq<Call>, owed: seq<Owed>): seq<Call>
    decreases |owed|
  {
    if owed == [] then calls
    else CompleteEach(WithCallStatus(calls, owed[0].call.index, Completed), owed[1..])
  }

  lemma {:induction false} CompleteEachConcat(calls: seq<Call>, a: seq<Owed>, b: seq<Owed>)
    ensures CompleteEach(calls, a + b) == CompleteEach(CompleteEach(calls, a), b)
    decreases |a|
  {
    if a == [] {
      assert a + b == b;
    } else {
      assert (a + b)[1..] == a[1..] + b;
      CompleteEachConcat(WithCallStatus(calls, a[0].call.index, Completed), a[1..], b);
    }
  }

  lemma {:induction false} SettleAllConcat(s: State, run: string, step: StepId, calls: seq<Call>,
                                           a: seq<Owed>, b: seq<Owed>, deps: Deps)
    ensures SettleAll(s, run, step, calls, a + b, deps)
      == SettleAll(s, run, step, calls, a, deps) + SettleAll(s, run, step, CompleteEach(calls, a), b, deps)
    decreases |a|
  {
    if a == [] {
      assert a + b == b;
    } else {
      assert (a + b)[1..] == a[1..] + b;
      SettleAllConcat(s, run, step, WithCallStatus(calls, a[0].call.index, Completed), a[1..], b, deps);
    }
  }

  /** Settling three lists one after the other is settling their concatenation. */
  lemma {:induction false} ThreePasses(s: State, run: string, step: StepId, calls: seq<Call>,
                                       a: seq<Owed>, b: seq<Owed>, c: seq<Owed>, deps: Deps)
    ensures var x, y := CompleteEach(calls, a), CompleteEach(CompleteEach(calls, a), b);
      forall before: seq<Step> ::
        before + SettleAll(s, run, step, calls, a, deps) + SettleAll(s, run, step, x, b, deps) + SettleAll(s, run, step, y, c, deps)
        == before + SettleAll(s, run, step, calls, a + b + c, deps)
  {
    SettleAllConcat(s, run, step, calls, a, b, deps);
    SettleAllConcat(s, run, step, calls, a + b, c, deps);
    CompleteEachConcat(calls, a, b);
    var x, y := CompleteEach(calls, a), CompleteEach(CompleteEach(calls, a), b);
    OneByOne(SettleAll(s, run, step, calls, a, deps), SettleAll(s, run, step, x, b, deps), SettleAll(s, run, step, y, c, deps));
  }

  lemma {:induction false} OneByOne(p: seq<Step>, q: seq<Step>, r: seq<Step>)
    ensures forall before: seq<Step> :: before + p + q + r == before + (p + q + r)
  {
  }

  lemma {:induction false} SettleAllStep(s: State, run: string, step: StepId, calls: seq<Call>, owed: seq<Owed>, i: nat, deps: Deps)
    requires i < |owed|
    ensures var next := WithCallStatus(calls, owed[i].call.index, Completed);
      && CompleteEach(calls, owed[i..]) == CompleteEach(next, owed[i + 1..])
      && forall before: seq<Step> :: before + SettleAll(s, run, step, calls, owed[i..], deps)
           == before + SettleOne(s, run, step, calls, owed[i], deps) + SettleAll(s, run, step, next, owed[i + 1..], deps)
  {
  }

  // --- The executor --------------------------------------------------------------------

  datatype Action = Resumed | Abandoned | Replayed | GaveUp

  datatype Report = Report(action: Action, uncertain: bool, synthesized: nat, executed: nat,
                           reexecuted: nat, event: Envelope, terminal: bool)

  /** What a pass over a run that stands there does, in a word: something is given up when an effect has to be stood in for. */
  ghost function Word(position: Option<Position>): Action {
    match position
    case None => GaveUp
    case Some(Checkpoint) => Resumed
    case Some(Terminal(_)) => Resumed
    case Some(RequestPending(_, _, _, _)) => Abandoned
    case Some(Compacting(_)) => Replayed
    case Some(Tools(_, calls)) => if exists c :: c in calls && c.status == EffectPending && c.replay == Never then Abandoned else Replayed
  }

  class Executor {
    const process: Process
    const deps: Deps

    constructor (process: Process, deps: Deps)
      ensures this.process == process && this.deps == deps
    {
      this.process, this.deps := process, deps;
    }

    /** Announced, never logged: its number is one past the highest the record holds. */
    method Announce(run: string) returns (event: Envelope)
      ensures event == Envelope(Some(HighestSeq(process.store.entries, run) + 1), RecoveryApplied, System, NoPayload)
    {
      event := Envelope(Some(HighestSeq(process.store.entries, run) + 1), RecoveryApplied, System, NoPayload);
    }

    method ApplyRecovery(run: string) returns (r: Report)
      requires process.Valid()
      modifies process, process.store
      ensures process.Valid()
      ensures process.journal == old(process.journal) + Steps(old(process.store.Now()), run, deps)
      ensures process.store.Now() == Recovered(old(process.store.Now()), run, deps)
      ensures r.uncertain <==> PlanRecovery(PositionOf(old(process.store.Now()), run)).SettleUncertain?
      ensures r.event == Envelope(Some(HighestSeq(process.store.Now().entries, run) + 1), RecoveryApplied, System, NoPayload)
      ensures r.action == Word(PositionOf(old(process.store.Now()), run))
      ensures var plan := PlanRecovery(PositionOf(old(process.store.Now()), run));
        && r.synthesized == (if plan.FinishTools? then |plan.synthesize| else if plan.SettleUncertain? then 1 else 0)
        && r.executed == (if plan.FinishTools? then |plan.execute| else 0)
        && r.reexecuted == (if plan.FinishTools? then |plan.reexecute| else 0)
        && (r.terminal <==> plan.SettleUncertain? || plan.NothingOwed? || plan.ReportFailed?)
    {
      var position := if run in process.store.positions then Some(process.store.positions[run]) else None;
      var plan := PlanRecovery(position);
      Act(run, plan);
      var event := Announce(run);
      match plan {
        case SettleUncertain(_, _) => r := Report(Abandoned, true, 1, 0, 0, event, true);
        case FinishTools(_, calls, synthesize, reexecute, execute) =>
          assert |synthesize| > 0 ==> synthesize[0] in calls && Falls(synthesize[0], Stranded);
          assert forall c :: c in calls && Falls(c, Stranded) ==> c in synthesize;
          r := Report(if |synthesize| > 0 then Abandoned else Replayed, false,
                      |synthesize|, |execute|, |reexecute|, event, false);
        case Recompact(_) => r := Report(Replayed, false, 0, 0, 0, event, false);
        case Resume => r := Report(Resumed, false, 0, 0, 0, event, false);
        case NothingOwed(_) => r := Report(Resumed, false, 0, 0, 0, event, true);
        case ReportFailed => r := Report(GaveUp, false, 0, 0, 0, event, true);
      }
    }

    /** What is owed is done, before anything is reported. */
    method Act(run: string, plan: Plan)
      requires process.Valid() && plan == PlanRecovery(PositionOf(process.store.Now(), run))
      modifies process, process.store
      ensures process.Valid()
      ensures process.journal == old(process.journal) + Steps(old(process.store.Now()), run, deps)
      ensures process.store.Now() == Recovered(old(process.store.Now()), run, deps)
    {
      ghost var start, before := process.store.Now(), process.journal;
      match plan {
        case SettleUncertain(key, _) =>
          process.Commit([PutEntry(UncertainEntry(run, key)), SetPosition(run, Terminal(Interrupted))]);
        case FinishTools(step, calls, synthesize, reexecute, execute) =>
          FinishTools(run, step, calls, synthesize, reexecute, execute);
        case Recompact(_) =>
          process.Commit([SetPosition(run, Record.Checkpoint)]);
        case _ =>
      }
      assert process.journal == before + Steps(start, run, deps);
      ReplayConcat(process.origin, before, Steps(start, run, deps));
    }

    method FinishTools(run: string, step: StepId, calls: seq<Call>,
                       synthesize: seq<Call>, reexecute: seq<Call>, execute: seq<Call>)
      requires process.Valid()
      modifies process, process.store
      ensures process.Valid()
      ensures process.journal == old(process.journal)
        + SettleAll(old(process.store.Now()), run, step, calls,
                    Mark(synthesize, false) + Mark(execute, true) + Mark(reexecute, true), deps)
        + [Commit([SetPosition(run, Record.Checkpoint)])]
    {
      ghost var start := process.store.Now();
      ghost var a, b, c := Mark(synthesize, false), Mark(execute, true), Mark(reexecute, true);
      ThreePasses(start, run, step, calls, a, b, c, deps);
      var position := SettleEach(start, run, step, calls, synthesize, false);
      position := SettleEach(start, run, step, position, execute, true);
      position := SettleEach(start, run, step, position, reexecute, true);
      process.Commit([SetPosition(run, Record.Checkpoint)]);
    }

    /** The three loops of a tools pass differ only in what they do for a result. */
    method SettleEach(ghost start: State, run: string, step: StepId, calls: seq<Call>, todo: seq<Call>, execute: bool)
      returns (position: seq<Call>)
      requires process.Valid() && process.store.toolArgs == start.toolArgs
      modifies process, process.store
      ensures process.Valid() && process.store.toolArgs == start.toolArgs
      ensures position == CompleteEach(calls, Mark(todo, execute))
      ensures process.journal == old(process.journal) + SettleAll(start, run, step, calls, Mark(todo, execute), deps)
    {
      ghost var owed := Mark(todo, execute);
      position := calls;
      assert owed[0..] == owed;
      for i := 0 to |todo|
        invariant process.Valid() && process.store.toolArgs == start.toolArgs
        invariant CompleteEach(position, owed[i..]) == CompleteEach(calls, owed)
        invariant process.journal + SettleAll(start, run, step, position, owed[i..], deps)
               == old(process.journal) + SettleAll(start, run, step, calls, owed, deps)
      {
        SettleAllStep(start, run, step, position, owed, i, deps);
        position := Settle(start, run, step, position, todo[i], execute);
      }
      assert owed[|todo|..] == [];
    }

    /** Run one call, or stand in for it, and file its outcome with the advanced marker. */
    method Settle(ghost start: State, run: string, step: StepId, calls: seq<Call>, call: Call, execute: bool)
      returns (position: seq<Call>)
      requires process.Valid() && process.store.toolArgs == start.toolArgs
      modifies process, process.store
      ensures process.Valid() && process.store.toolArgs == start.toolArgs
      ensures position == WithCallStatus(calls, call.index, Completed)
      ensures process.journal == old(process.journal) + SettleOne(start, run, step, calls, Owed(call, execute), deps)
    {
      var result := INTERRUPTED;
      if execute && deps.reexecute.Some? {
        var args := if (step, call.index) in process.store.toolArgs
                    then process.store.toolArgs[(step, call.index)] else Null;
        process.Note(Began(call.toolUseId, args));
        result := deps.reexecute.value(call, args);
      }
      position := WithCallStatus(calls, call.index, Completed);
      ghost var s := process.store.Now();
      var entry, marker := PutEntry(ResultEntry(run, call, result)), SetPosition(run, Tools(step, position));
      process.Commit([entry, marker]);
      ApplyTwo(s, entry, marker);
    }
  }
}
