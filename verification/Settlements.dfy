/** What recovery files for the calls a crash left without an answer, written out. */
module Settlements {
  import opened Json
  import opened Contract
  import opened Record
  import opened Checkpoint
  import opened Journal
  import opened Recovery
  import opened RecoveryLaws
  import opened Protocol
  import CrashSafety
  import RunLoop

  /** A call that may have run and must not run again is stood in for; so is every call while there is no way to run one. */
  function StoodIn(run: string, id: string): Entry {
    Entry(run, None, Some(ToolKey(id)), ToolFailed, System, Tool(id),
          Some([ToolResultBlock(id, "[interrupted: the harness restarted while this was running]", true)]), true, false)
  }

  function RanTo(run: string, id: string, o: Outcome): Entry {
    Entry(run, None, Some(ToolKey(id)), if o.ok then ToolFinished else ToolFailed, System, Tool(id),
          Some([ToolResultBlock(id, o.text, !o.ok)]), true, false)
  }

  /** The answer owed to the call at `i`: what running it with the arguments on the record gave, or a stand-in. */
  function Settlement(s: State, run: string, step: StepId, call: Call, deps: Deps): Entry {
    if deps.reexecute.None? || (call.status == EffectPending && call.replay == Never) then StoodIn(run, call.toolUseId)
    else RanTo(run, call.toolUseId,
               deps.reexecute.value(call, if (step, call.index) in s.toolArgs then s.toolArgs[(step, call.index)] else Null))
  }

  ghost predicate OnlyAnswer(entries: seq<Entry>, run: string, id: string, e: Entry) {
    e in entries && Answers(e, run, id) && forall x :: x in entries && Answers(x, run, id) ==> x == e
  }

  /** No other call that is owed has this one's id. */
  predicate Alone(calls: seq<Call>, i: nat)
    requires i < |calls|
  {
    forall k :: 0 <= k < |calls| && k != i && calls[k].status != Completed ==> calls[k].toolUseId != calls[i].toolUseId
  }

  // --- One pass -------------------------------------------------------------------------------

  lemma {:induction false} FiledUnderItsId(s: State, run: string, step: StepId, calls: seq<Call>, deps: Deps)
    requires Indexed(calls) && OwedBy(calls) != []
    ensures var o := OwedBy(calls)[0];
      && o.call.index < |calls| && calls[o.call.index] == o.call && o.call.status != Completed
      && ResultEntry(run, o.call, OutcomeOf(s, step, o, deps)) == Settlement(s, run, step, o.call, deps)
      && Answers(Settlement(s, run, step, o.call, deps), run, o.call.toolUseId)
  {
    var i, b := FirstOwed(calls);
  }

  lemma {:induction false} AnswerAdded(entries: seq<Entry>, run: string, id: string, e: Entry)
    requires Answers(e, run, id) && e.seqNo.None?
    ensures var after := if Collides(entries, e) then entries else entries + [e];
      && (!Answered(entries, run, id) ==> OnlyAnswer(after, run, id, e))
      && (forall x, other :: OnlyAnswer(entries, run, other, x) ==> OnlyAnswer(after, run, other, x))
      && (forall other :: other != id && !Answered(entries, run, other) ==> !Answered(after, run, other))
  {
    var after := if Collides(entries, e) then entries else entries + [e];
    if Collides(entries, e) {
      var k :| 0 <= k < |entries| && Clash(entries[k], e);
      assert Answers(entries[k], run, id);
    } else {
      assert after[|entries|] == e;
    }
    forall x, other | OnlyAnswer(entries, run, other, x) ensures OnlyAnswer(after, run, other, x) {
      if other == id {
        var k :| 0 <= k < |entries| && entries[k] == x;
        assert Clash(entries[k], e);
      }
    }
  }

  /** A pass with something to settle is a settlement and then a pass. */
  lemma {:induction false} PassUnfolds(s: State, run: string, step: StepId, calls: seq<Call>, deps: Deps)
    requires PositionOf(s, run) == Some(Tools(step, calls)) && Indexed(calls) && OwedBy(calls) != []
    ensures var o := OwedBy(calls)[0];
      var s1 := Settled(s, run, step, calls, o, deps);
      && Recovered(s, run, deps) == Recovered(s1, run, deps) && GoodPosition(s1, run) && OwedNow(s1, run) < OwedNow(s, run)
      && s1.toolArgs == s.toolArgs && PositionOf(s1, run) == Some(Tools(step, WithCallStatus(calls, o.call.index, Completed)))
  {
    var o := OwedBy(calls)[0];
    Unfold(s, run, step, calls, deps);
    SettleOneEffect(s, run, step, calls, o, deps);
    ReplayConcat(s, SettleOne(s, run, step, calls, o, deps), Steps(Settled(s, run, step, calls, o, deps), run, deps));
  }

  lemma {:induction false} LastFiles(s: State, run: string, deps: Deps)
    requires OwedNow(s, run) == 0
    ensures Recovered(s, run, deps).entries ==
      match PositionOf(s, run)
      case Some(RequestPending(key, _, _, _)) =>
        if Collides(s.entries, UncertainEntry(run, key)) then s.entries else s.entries + [UncertainEntry(run, key)]
      case _ => s.entries
  {
    var steps := Steps(s, run, deps);
    if steps != [] {
      assert steps == [steps[0]];
      ReplayOne(s, steps[0]);
      match PlanRecovery(PositionOf(s, run))
      case SettleUncertain(key, _) =>
        ApplyTwo(s, PutEntry(UncertainEntry(run, key)), SetPosition(run, Terminal(Interrupted)));
      case _ => ApplyOne(s, SetPosition(run, Record.Checkpoint));
    }
  }

  lemma {:induction false} StandsBeside(entries: seq<Entry>, run: string, id: string, e: Entry, more: Entry)
    requires OnlyAnswer(entries, run, id, e)
    ensures OnlyAnswer(if Collides(entries, more) then entries else entries + [more], run, id, e)
  {
    if Answers(more, run, id) {
      var k :| 0 <= k < |entries| && entries[k] == e;
      assert Clash(entries[k], more);
    }
  }

  /** An answer that stands is left alone. */
  lemma {:induction false} AnswerStands(s: State, run: string, deps: Deps, id: string, e: Entry)
    requires GoodPosition(s, run) && OnlyAnswer(s.entries, run, id, e)
    ensures OnlyAnswer(Recovered(s, run, deps).entries, run, id, e)
    decreases OwedNow(s, run)
  {
    if OwedNow(s, run) > 0 {
      var Some(Tools(step, calls)) := PositionOf(s, run);
      var o := OwedBy(calls)[0];
      PassUnfolds(s, run, step, calls, deps);
      StandsBeside(s.entries, run, id, e, ResultEntry(run, o.call, OutcomeOf(s, step, o, deps)));
      AnswerStands(Settled(s, run, step, calls, o, deps), run, deps, id, e);
    } else {
      LastFiles(s, run, deps);
      match PositionOf(s, run)
      case Some(RequestPending(key, _, _, _)) => StandsBeside(s.entries, run, id, e, UncertainEntry(run, key));
      case _ =>
    }
  }

  /** The call at `i` is owed an answer, and nothing else is filed under its id. */
  ghost predicate OwedAt(s: State, run: string, step: StepId, calls: seq<Call>, i: nat) {
    && PositionOf(s, run) == Some(Tools(step, calls)) && Indexed(calls)
    && i < |calls| && calls[i].status != Completed && Alone(calls, i)
    && !Answered(s.entries, run, calls[i].toolUseId)
  }

  /** After a whole pass the one answer of a call that was owed is its settlement. */
  lemma {:induction false} PassSettles(s: State, run: string, step: StepId, calls: seq<Call>, deps: Deps, i: nat)
    requires OwedAt(s, run, step, calls, i)
    ensures OnlyAnswer(Recovered(s, run, deps).entries, run, calls[i].toolUseId, Settlement(s, run, step, calls[i], deps))
    decreases OwedNow(s, run)
  {
    if OwedBy(calls) == [] {
      CrashSafety.NothingOwed(calls);
      assert false;
    } else {
      var o := OwedBy(calls)[0];
      var s1 := Settled(s, run, step, calls, o, deps);
      FiledUnderItsId(s, run, step, calls, deps);
      PassUnfolds(s, run, step, calls, deps);
      AnswerAdded(s.entries, run, o.call.toolUseId, Settlement(s, run, step, o.call, deps));
      if o.call.index == i {
        AnswerStands(s1, run, deps, calls[i].toolUseId, Settlement(s, run, step, calls[i], deps));
      } else {
        PassSettles(s1, run, step, WithCallStatus(calls, o.call.index, Completed), deps, i);
      }
    }
  }

  // --- What a lawful journal leaves owed ---------------------------------------------------------

  lemma {:induction false} FiledFrom(entries: seq<Entry>, es: seq<Entry>)
    ensures forall e :: e in Filed(entries, es) ==> e in entries || e in es
    decreases |es|
  {
    if es != [] {
      FiledFrom(if Collides(entries, es[0]) then entries else entries + [es[0]], es[1..]);
    }
  }

  /** Only what was asked is answered, ids of one step differ, and what is owed has no answer yet. */
  ghost predicate OwesOnly(s: State, run: string, asked: seq<string>) {
    && (forall id :: Answered(s.entries, run, id) ==> id in asked)
    && match PositionOf(s, run)
       case Some(Tools(_, calls)) =>
         && Indexed(calls) && Distinct(Ids(calls)) && (forall i :: 0 <= i < |calls| ==> calls[i].toolUseId in asked)
         && forall i :: 0 <= i < |calls| && calls[i].status != Completed ==> !Answered(s.entries, run, calls[i].toolUseId)
       case _ => true
  }

  lemma {:induction false} KeylessAnswersNothing(s: State, run: string, tx: RunLoop.Tx)
    requires Keyless(tx.entries)
    ensures forall id :: Answered(Landed(s, run, tx).entries, run, id) ==> Answered(s.entries, run, id)
  {
    FiledFrom(s.entries, tx.entries);
  }

  lemma {:induction false} BringsOneAnswer(s: State, run: string, tx: RunLoop.Tx, id: string)
    requires Brings(tx.entries, run, id)
    ensures forall other :: other != id && Answered(Landed(s, run, tx).entries, run, other) ==> Answered(s.entries, run, other)
  {
    FiledFrom(s.entries, tx.entries);
    var es := tx.entries;
    forall other | other != id && Answered(Landed(s, run, tx).entries, run, other) ensures Answered(s.entries, run, other) {
      assert forall k :: 0 <= k < |es| ==> !Answers(es[k], run, other);
    }
  }

  lemma {:induction false} AdvancedOwesOnly(s: State, run: string, tx: RunLoop.Tx, asked: seq<string>, calls: seq<Call>, i: nat)
    requires OwesOnly(s, run, asked) && i < |calls|
    requires tx.position.Some? && tx.position.value.Tools? && PositionOf(s, run).Some? && PositionOf(s, run).value.Tools?
    requires calls == PositionOf(s, run).value.calls && AdvancesAt(run, calls, tx.position.value.calls, tx.entries, i)
    ensures OwesOnly(Landed(s, run, tx), run, asked + Plans(tx))
  {
    var calls' := tx.position.value.calls;
    assert Ids(calls') == Ids(calls);
    assert calls'[i].status != Planned;
    assert asked + [] == asked;
    assert forall k :: 0 <= k < |calls| ==> Ids(calls)[k] == calls[k].toolUseId;
    if calls'[i].status == Completed {
      BringsOneAnswer(s, run, tx, calls[i].toolUseId);
    } else {
      KeylessAnswersNothing(s, run, tx);
    }
  }

  lemma {:induction false} LandedOwesOnly(s: State, run: string, tx: RunLoop.Tx, asked: seq<string>)
    requires OwesOnly(s, run, asked) && Tidy(run, PositionOf(s, run), tx)
    requires Distinct(Plans(tx)) && forall id :: id in Plans(tx) ==> id !in asked
    ensures OwesOnly(Landed(s, run, tx), run, asked + Plans(tx))
  {
    FiledFrom(s.entries, tx.entries);
    var pos := PositionOf(s, run);
    if tx.position.Some? && tx.position.value.Tools? && pos.Some? && pos.value.Tools? {
      var calls, calls' := pos.value.calls, tx.position.value.calls;
      var i: nat :| i < |calls| && AdvancesAt(run, calls, calls', tx.entries, i);
      AdvancedOwesOnly(s, run, tx, asked, calls, i);
    } else {
      KeylessAnswersNothing(s, run, tx);
    }
  }

  /** While tool ids do not repeat, so does every lawful journal. */
  lemma {:induction false} LawfulOwesOnly(run: string, origin: State, j: seq<Step>)
    requires Fresh(origin, run) && Lawful(run, origin, j) && Distinct(Asked(run, j))
    ensures OwesOnly(Replay(origin, j), run, Asked(run, j))
    decreases |j|
  {
    if j != [] {
      var init, step, s, tx := LastStep(run, origin, j);
      DistinctInit(Asked(run, init), AskedBy(run, step));
      LawfulOwesOnly(run, origin, init);
      if step.Commit? {
        AskedOfTx(run, tx);
        LandedOwesOnly(s, run, tx, Asked(run, init));
      }
    }
  }

  lemma {:induction false} DistinctIsAlone(s: State, run: string, asked: seq<string>, step: StepId, calls: seq<Call>, i: nat)
    requires OwesOnly(s, run, asked) && PositionOf(s, run) == Some(Tools(step, calls))
    requires i < |calls| && calls[i].status != Completed
    ensures OwedAt(s, run, step, calls, i)
  {
    assert forall k :: 0 <= k < |calls| ==> Ids(calls)[k] == calls[k].toolUseId;
  }

  // --- A request in flight -----------------------------------------------------------------------------

  /** What says that a request's outcome is not known, under the request's own key and off the surface. */
  function Unknown(run: string, key: SettlementKey): Entry {
    Entry(run, None, Some(key), RunInterrupted, System, Uncertain, None, false, false)
  }

  /** A run files nothing under a request's key. */
  ghost predicate OnlyCallsKeyed(entries: seq<Entry>, run: string) {
    forall e :: e in entries && e.runId == run && e.key.Some? ==> e.key.value.ToolKey?
  }

  lemma {:induction false} LandedKeys(s: State, run: string, tx: RunLoop.Tx)
    requires OnlyCallsKeyed(s.entries, run) && Tidy(run, PositionOf(s, run), tx)
    ensures OnlyCallsKeyed(Landed(s, run, tx).entries, run)
  {
    FiledFrom(s.entries, tx.entries);
    var pos := PositionOf(s, run);
    if tx.position.Some? && tx.position.value.Tools? && pos.Some? && pos.value.Tools? {
      var calls := pos.value.calls;
      var i: nat :| i < |calls| && AdvancesAt(run, calls, tx.position.value.calls, tx.entries, i);
      BroughtKeys(run, tx.entries, calls[i].toolUseId);
    }
  }

  lemma {:induction false} BroughtKeys(run: string, es: seq<Entry>, id: string)
    requires Brings(es, run, id) || Keyless(es)
    ensures forall e :: e in es && e.key.Some? ==> e.key.value.ToolKey?
  {
  }

  lemma {:induction false} LawfulKeys(run: string, origin: State, j: seq<Step>)
    requires Fresh(origin, run) && Lawful(run, origin, j)
    ensures OnlyCallsKeyed(Replay(origin, j).entries, run)
    decreases |j|
  {
    if j != [] {
      var init, step, s, tx := LastStep(run, origin, j);
      LawfulKeys(run, origin, init);
      if step.Commit? {
        LandedKeys(s, run, tx);
      }
    }
  }

  /** Recovering a lawful journal's request in flight files that its outcome is unknown, and nothing else. */
  lemma {:induction false} UncertainFiles(run: string, origin: State, j: seq<Step>, deps: Deps)
    requires Fresh(origin, run) && Lawful(run, origin, j) && CrashSafety.InFlight(Replay(origin, j), run)
    ensures var left := Replay(origin, j);
      Recovered(left, run, deps).entries == left.entries + [Unknown(run, PositionOf(left, run).value.key)]
  {
    LawfulKeys(run, origin, j);
    LawfulKeeps(run, origin, j);
    LastFiles(Replay(origin, j), run, deps);
  }
}
