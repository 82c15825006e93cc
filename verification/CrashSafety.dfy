/** A crash anywhere, then recovery: every call ends with exactly one answer, no `never` call
    starts twice, and the one uncertainty is named exactly. */
module CrashSafety {
  import opened Json
  import opened Contract
  import opened Record
  import opened Checkpoint
  import opened Journal
  import opened Recovery
  import opened RecoveryLaws
  import opened Protocol
  import RunLoop

  // --- Every call is answered ----------------------------------------------------------------

  function SettleTx(s: State, run: string, step: StepId, calls: seq<Call>, owed: Owed, deps: Deps): RunLoop.Tx {
    RunLoop.Filing([ResultEntry(run, owed.call, OutcomeOf(s, step, owed, deps))])
    .(position := Some(Tools(step, WithCallStatus(calls, owed.call.index, Completed))))
  }

  lemma {:induction false} SettledIsTidy(s: State, run: string, step: StepId, calls: seq<Call>, deps: Deps, asked: seq<string>)
    requires Kept(s, run) && Owing(s, run, asked)
    requires PositionOf(s, run) == Some(Tools(step, calls)) && OwedBy(calls) != []
    ensures var s1 := Settled(s, run, step, calls, OwedBy(calls)[0], deps);
      Kept(s1, run) && Owing(s1, run, asked)
  {
    AdvanceOwed(calls);
    var o := OwedBy(calls)[0];
    var tx := SettleTx(s, run, step, calls, o, deps);
    var e := tx.entries[0];
    var r := OutcomeOf(s, step, o, deps);
    assert e.blocks == Some([ToolResultBlock(o.call.toolUseId, r.text, !r.ok)]);
    assert Proper(e, o.call.toolUseId);
    var i: nat := o.call.index;
    assert AdvancesAt(run, calls, WithCallStatus(calls, i, Completed), tx.entries, i);
    TidyKeeps(s, run, tx, asked);
    FiledOne(s.entries, e);
    assert Landed(s, run, tx) == Settled(s, run, step, calls, o, deps);
  }

  lemma {:induction false} NothingOwed(calls: seq<Call>)
    requires OwedBy(calls) == []
    ensures AllIn(calls, Completed)
  {
    assert Select(calls, Stranded) == [] && Select(calls, Unstarted) == [] && Select(calls, Repeatable) == [];
    forall i | 0 <= i < |calls| ensures calls[i].status == Completed {
      assert calls[i] in calls;
      assert calls[i] !in Select(calls, Stranded) && calls[i] !in Select(calls, Unstarted)
          && calls[i] !in Select(calls, Repeatable);
    }
  }

  /** One whole pass from any state the protocol can leave behind. */
  lemma {:induction false} RecoveryAnswers(s: State, run: string, deps: Deps, asked: seq<string>)
    requires Kept(s, run) && Owing(s, run, asked)
    ensures var r := Recovered(s, run, deps);
      && Kept(r, run)
      && (forall id :: id in asked ==> Answered(r.entries, run, id))
      && (PositionOf(s, run).Some? && PositionOf(s, run).value.Tools? ==> PositionOf(r, run) == Some(Record.Checkpoint))
    decreases OwedNow(s, run)
  {
    if OwedNow(s, run) > 0 {
      var Some(Tools(step, calls)) := PositionOf(s, run);
      var o := OwedBy(calls)[0];
      Unfold(s, run, step, calls, deps);
      SettleOneEffect(s, run, step, calls, o, deps);
      var s1 := Settled(s, run, step, calls, o, deps);
      ReplayConcat(s, SettleOne(s, run, step, calls, o, deps), Steps(s1, run, deps));
      SettledIsTidy(s, run, step, calls, deps, asked);
      RecoveryAnswers(s1, run, deps, asked);
    } else if Steps(s, run, deps) == [] {
    } else {
      assert Steps(s, run, deps) == [Steps(s, run, deps)[0]];
      ReplayOne(s, Steps(s, run, deps)[0]);
      LastStepKeeps(s, run, deps, asked);
    }
  }

  lemma {:induction false} LastStepKeeps(s: State, run: string, deps: Deps, asked: seq<string>)
    requires Kept(s, run) && Owing(s, run, asked) && OwedNow(s, run) == 0 && |Steps(s, run, deps)| == 1
    ensures var r := After(s, Steps(s, run, deps)[0]);
      && Kept(r, run)
      && (forall id :: id in asked ==> Answered(r.entries, run, id))
      && (PositionOf(s, run).value.Tools? ==> PositionOf(r, run) == Some(Record.Checkpoint))
  {
    match PlanRecovery(PositionOf(s, run))
    case SettleUncertain(key, _) =>
      var e, p := UncertainEntry(run, key), Terminal(Interrupted);
      ApplyTwo(s, PutEntry(e), SetPosition(run, p));
      FiledOne(s.entries, e);
      UncertainKeeps(s, run, key);
      forall id | id in asked ensures Answered(Filed(s.entries, [e]), run, id) {
        StillAnswered(s.entries, Filed(s.entries, [e]), run, id);
      }
    case FinishTools(_, calls, _, _, _) =>
      NothingOwed(calls);
      ApplyOne(s, SetPosition(run, Record.Checkpoint));
    case Recompact(_) =>
      ApplyOne(s, SetPosition(run, Record.Checkpoint));
  }

  lemma {:induction false} UncertainKeeps(s: State, run: string, key: SettlementKey)
    requires Kept(s, run) && PositionOf(s, run).Some? && PositionOf(s, run).value.RequestPending?
    requires key.RequestKey?
    ensures var es := Filed(s.entries, [UncertainEntry(run, key)]);
      OneEach(es) && AllProper(es, run)
  {
  }

  // --- The one uncertainty -------------------------------------------------------------------

  predicate InFlight(s: State, run: string) {
    PlanRecovery(PositionOf(s, run)).SettleUncertain?
  }

  /** The request in flight is the one whose intent was the last transaction, and the surface is as it was before. */
  ghost predicate InFlightExactly(run: string, origin: State, j: seq<Step>) {
    var at := LastCommit(j);
    && (InFlight(Replay(origin, j), run) <==> at.Some? && IsIntent(run, j[at.value]))
    && (InFlight(Replay(origin, j), run) ==>
          OnSurface(Replay(origin, j).entries) == OnSurface(Replay(origin, j[..at.value]).entries))
  }

  lemma {:induction false} AfterCommit(run: string, origin: State, j: seq<Step>, s: State, tx: RunLoop.Tx)
    requires j != [] && s == Replay(origin, j[..|j| - 1]) && Replay(origin, j) == Landed(s, run, tx)
    requires j[|j| - 1] == Commit(RunLoop.Writes(run, tx)) && Tidy(run, PositionOf(s, run), tx)
    ensures InFlightExactly(run, origin, j)
  {
    IntentOfTx(run, tx);
    assert LastCommit(j) == Some(|j| - 1);
    if tx.position.Some? && tx.position.value.RequestPending? {
      FiledOffSurface(s.entries, tx.entries);
    }
  }

  lemma {:induction false} AfterOther(run: string, origin: State, init: seq<Step>, step: Step)
    requires InFlightExactly(run, origin, init) && !step.Commit? && Replay(origin, init + [step]) == Replay(origin, init)
    ensures InFlightExactly(run, origin, init + [step])
  {
    var j := init + [step];
    assert j[..|j| - 1] == init;
    assert LastCommit(j) == LastCommit(init);
    assert LastCommit(init).Some? ==> j[..LastCommit(init).value] == init[..LastCommit(init).value];
  }

  /** Recovery reports an uncertain outcome exactly when the crash fell between a request's intent
      and the run's next transaction; and then nothing of that turn is on the surface, before
      recovery or after. */
  lemma {:induction false} UncertainExactly(run: string, origin: State, j: seq<Step>)
    requires Fresh(origin, run) && Lawful(run, origin, j)
    ensures InFlightExactly(run, origin, j)
    decreases |j|
  {
    if j != [] {
      var init, step, s, tx := LastStep(run, origin, j);
      if step.Commit? {
        AfterCommit(run, origin, j, s, tx);
      } else {
        UncertainExactly(run, origin, init);
        AfterOther(run, origin, init, step);
      }
    }
  }

  /** And recovery's own statement of it stays off the surface, under the request's own identity. */
  lemma {:induction false} UncertainIsSettled(s: State, run: string, deps: Deps)
    requires InFlight(s, run)
    ensures var r := Recovered(s, run, deps);
      && PositionOf(r, run) == Some(Terminal(Interrupted))
      && OnSurface(r.entries) == OnSurface(s.entries)
      && s.entries <= r.entries && |r.entries| <= |s.entries| + 1
      && exists e :: e in r.entries && e.runId == run && e.key == Some(PositionOf(s, run).value.key)
  {
    var key := PositionOf(s, run).value.key;
    var e := UncertainEntry(run, key);
    var step := Commit([PutEntry(e), SetPosition(run, Terminal(Interrupted))]);
    assert Steps(s, run, deps) == [step];
    ReplayOne(s, step);
    ApplyTwo(s, PutEntry(e), SetPosition(run, Terminal(Interrupted)));
    FiledOne(s.entries, e);
    FiledOffSurface(s.entries, [e]);
    var r := Recovered(s, run, deps);
    if Collides(s.entries, e) {
      var k :| 0 <= k < |s.entries| && Clash(s.entries[k], e);
      assert s.entries[k] in r.entries;
    } else {
      assert e in r.entries;
    }
  }

  // --- At most once ------------------------------------------------------------------------------

  /** How often each call has been begun, read off the position. */
  ghost predicate Counted(run: string, origin: State, j: seq<Step>) {
    && (forall id :: Starts(j, id) <= 1)
    && (forall id :: id !in Asked(run, j) ==> Starts(j, id) == 0)
    && match PositionOf(Replay(origin, j), run)
       case Some(Tools(_, calls)) => Indexed(calls) && CountedCalls(run, origin, j, calls)
       case _ => true
  }

  ghost predicate CountedCalls(run: string, origin: State, j: seq<Step>, calls: seq<Call>) {
    Distinct(Ids(calls)) && forall i :: 0 <= i < |calls| ==> CountedCall(run, origin, j, calls[i], i)
  }

  ghost predicate CountedCall(run: string, origin: State, j: seq<Step>, call: Call, i: nat) {
    && call.toolUseId in Asked(run, j)
    && (call.status == Planned || JustCleared(run, origin, j, i) ==> Starts(j, call.toolUseId) == 0)
  }

  lemma {:induction false} StartsOne(j: seq<Step>, step: Step, id: string)
    ensures Starts(j + [step], id) == Starts(j, id) + (if step.Began? && step.toolUseId == id then 1 else 0)
  {
    StartsConcat(j, [step], id);
    assert [step][1..] == [];
    assert Starts([step], id) == (if step.Began? && step.toolUseId == id then 1 else 0) + Starts([], id);
  }

  /** While tool ids do not repeat, a lawful journal begins each call at most once. */
  lemma {:induction false} LawfulStartsOnce(run: string, origin: State, j: seq<Step>)
    requires Fresh(origin, run) && Lawful(run, origin, j) && Distinct(Asked(run, j))
    ensures Counted(run, origin, j)
    decreases |j|
  {
    if j != [] {
      var init, step, s, tx := LastStep(run, origin, j);
      DistinctInit(Asked(run, init), AskedBy(run, step));
      LawfulStartsOnce(run, origin, init);
      forall id ensures Starts(j, id) == Starts(init, id) + (if step.Began? && step.toolUseId == id then 1 else 0) {
        StartsOne(init, step, id);
      }
      if step.Commit? {
        AskedOfTx(run, tx);
        CommitCounts(run, origin, init, s, step, tx);
      } else if step.Began? {
        BeginCounts(run, origin, init, step);
      }
    }
  }

  lemma {:induction false} BeginCounts(run: string, origin: State, j: seq<Step>, step: Step)
    requires step.Began? && Counted(run, origin, j) && Legal(run, origin, j, step)
    requires Replay(origin, j + [step]) == Replay(origin, j)
    requires Asked(run, j + [step]) == Asked(run, j)
    requires forall id :: Starts(j + [step], id) == Starts(j, id) + (if step.toolUseId == id then 1 else 0)
    ensures Counted(run, origin, j + [step])
  {
  }

  lemma {:induction false} CommitCounts(run: string, origin: State, j: seq<Step>, s: State, step: Step, tx: RunLoop.Tx)
    requires Counted(run, origin, j) && step.Commit? && s == Replay(origin, j)
    requires Tidy(run, PositionOf(s, run), tx) && Replay(origin, j + [step]) == Landed(s, run, tx)
    requires Asked(run, j + [step]) == Asked(run, j) + Plans(tx)
    requires Distinct(Plans(tx)) && forall id :: id in Plans(tx) ==> id !in Asked(run, j)
    requires forall id :: Starts(j + [step], id) == Starts(j, id)
    ensures Counted(run, origin, j + [step])
  {
    var pos := PositionOf(s, run);
    if tx.position.Some? && tx.position.value.Tools? {
      if pos.Some? && pos.value.Tools? {
        AdvanceCounts(run, origin, j, s, step, tx);
      } else {
        PlanCounts(run, origin, j, s, step, tx.position.value.calls);
      }
    } else if tx.position.None? && pos.Some? && pos.value.Tools? {
      forall i | 0 <= i < |pos.value.calls| ensures CountedCall(run, origin, j + [step], pos.value.calls[i], i) {
        SameCallCounts(run, origin, j, s, step, pos.value.calls, i, pos.value.calls[i]);
      }
    }
  }

  /** A call seen again after the next transaction, planned only if it was. */
  lemma {:induction false} SameCallCounts(run: string, origin: State, j: seq<Step>, s: State, step: Step,
                                          calls: seq<Call>, i: nat, call: Call)
    requires s == Replay(origin, j) && PositionOf(s, run).Some? && PositionOf(s, run).value.Tools?
    requires calls == PositionOf(s, run).value.calls && i < |calls|
    requires CountedCall(run, origin, j, calls[i], i)
    requires call.toolUseId == calls[i].toolUseId && (call.status == Planned ==> calls[i].status == Planned)
    requires Asked(run, j) <= Asked(run, j + [step])
    requires forall id :: Starts(j + [step], id) == Starts(j, id)
    ensures CountedCall(run, origin, j + [step], call, i)
  {
  }

  lemma {:induction false} AdvanceCounts(run: string, origin: State, j: seq<Step>, s: State, step: Step, tx: RunLoop.Tx)
    requires Counted(run, origin, j) && s == Replay(origin, j)
    requires PositionOf(s, run).Some? && PositionOf(s, run).value.Tools?
    requires tx.position.Some? && tx.position.value.Tools?
    requires Tidy(run, PositionOf(s, run), tx)
    requires Asked(run, j) <= Asked(run, j + [step])
    requires forall id :: Starts(j + [step], id) == Starts(j, id)
    ensures Indexed(tx.position.value.calls) && CountedCalls(run, origin, j + [step], tx.position.value.calls)
  {
    var calls, calls' := PositionOf(s, run).value.calls, tx.position.value.calls;
    var k :| 0 <= k < |calls| && AdvancesAt(run, calls, calls', tx.entries, k);
    AdvancedCalls(run, calls, calls', tx.entries, k);
    SameCallsCount(run, origin, j, s, step, calls, calls');
  }

  lemma {:induction false} AdvancedCalls(run: string, calls: seq<Call>, calls': seq<Call>, es: seq<Entry>, k: nat)
    requires Indexed(calls) && k < |calls| && AdvancesAt(run, calls, calls', es, k)
    ensures Indexed(calls') && Ids(calls') == Ids(calls)
    ensures forall i :: 0 <= i < |calls'| && calls'[i].status == Planned ==> calls[i].status == Planned
  {
    assert |calls'| == |calls|;
    assert forall i :: 0 <= i < |calls| ==> calls'[i].toolUseId == calls[i].toolUseId;
  }

  lemma {:induction false} SameCallsCount(run: string, origin: State, j: seq<Step>, s: State, step: Step, calls: seq<Call>, calls': seq<Call>)
    requires s == Replay(origin, j) && PositionOf(s, run).Some? && PositionOf(s, run).value.Tools?
    requires calls == PositionOf(s, run).value.calls && CountedCalls(run, origin, j, calls) && Ids(calls') == Ids(calls)
    requires forall i :: 0 <= i < |calls'| && calls'[i].status == Planned ==> calls[i].status == Planned
    requires Asked(run, j) <= Asked(run, j + [step])
    requires forall id :: Starts(j + [step], id) == Starts(j, id)
    ensures CountedCalls(run, origin, j + [step], calls')
  {
    forall i | 0 <= i < |calls'| ensures CountedCall(run, origin, j + [step], calls'[i], i) {
      assert |Ids(calls)| == |Ids(calls')| && Ids(calls)[i] == Ids(calls')[i];
      assert CountedCall(run, origin, j, calls[i], i);
      SameCallCounts(run, origin, j, s, step, calls, i, calls'[i]);
    }
  }

  lemma {:induction false} PlanCounts(run: string, origin: State, j: seq<Step>, s: State, step: Step, calls: seq<Call>)
    requires Counted(run, origin, j) && s == Replay(origin, j)
    requires !(PositionOf(s, run).Some? && PositionOf(s, run).value.Tools?)
    requires Asked(run, j + [step]) == Asked(run, j) + Ids(calls)
    requires Distinct(Ids(calls)) && forall id :: id in Ids(calls) ==> id !in Asked(run, j)
    requires forall id :: Starts(j + [step], id) == Starts(j, id)
    ensures CountedCalls(run, origin, j + [step], calls)
  {
  }
}
