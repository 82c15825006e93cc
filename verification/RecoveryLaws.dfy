/** Recovery passes may themselves be cut short; however often that happens, the record
    ends the same. */
module RecoveryLaws {
  import opened Json
  import opened Contract
  import opened Record
  import opened Checkpoint
  import opened Journal
  import opened Recovery

  // --- One call at a time -----------------------------------------------------------

  lemma {:induction false} SelectConcat(x: seq<Call>, y: seq<Call>, b: Bucket)
    ensures Select(x + y, b) == Select(x, b) + Select(y, b)
    decreases |x|
  {
    if x == [] {
      assert x + y == y;
    } else {
      assert (x + y)[1..] == x[1..] + y;
      SelectConcat(x[1..], y, b);
    }
  }

  /** The first selected call splits the list. */
  lemma {:induction false} SelectSplit(calls: seq<Call>, i: nat, b: Bucket)
    requires i < |calls|
    ensures Select(calls, b) == Select(calls[..i], b) + Select([calls[i]], b) + Select(calls[i + 1..], b)
  {
    assert calls == calls[..i] + ([calls[i]] + calls[i + 1..]);
    SelectConcat(calls[..i], [calls[i]] + calls[i + 1..], b);
    SelectConcat([calls[i]], calls[i + 1..], b);
  }

  /** Completing a call takes it, and nothing else, out of whatever selected it. */
  lemma {:induction false} CompleteOne(calls: seq<Call>, i: nat, b: Bucket)
    requires Indexed(calls) && i < |calls|
    ensures var done := WithCallStatus(calls, i, Completed);
      && (!Falls(calls[i], b) ==> Select(done, b) == Select(calls, b))
      && (Falls(calls[i], b) && Select(calls, b)[0] == calls[i] ==> Select(done, b) == Select(calls, b)[1..])
  {
    var done := WithCallStatus(calls, i, Completed);
    SelectSplit(calls, i, b);
    SelectSplit(done, i, b);
    assert done[..i] == calls[..i] && done[i + 1..] == calls[i + 1..];
    if Falls(calls[i], b) && Select(calls, b)[0] == calls[i] {
      assert Select(calls[..i], b) == [];
      assert Select(calls, b)[1..] == Select(calls[i + 1..], b);
    }
  }

  /** Which call a pass settles first. */
  lemma {:induction false} FirstOwed(calls: seq<Call>) returns (i: nat, b: Bucket)
    requires Indexed(calls) && OwedBy(calls) != []
    ensures i < |calls| && OwedBy(calls)[0] == Owed(calls[i], b != Stranded)
    ensures Falls(calls[i], b) && Select(calls, b) != [] && Select(calls, b)[0] == calls[i]
    ensures b == Stranded || Select(calls, Stranded) == []
    ensures b == Repeatable ==> Select(calls, Unstarted) == []
  {
    var o := OwedBy(calls)[0];
    b := if Select(calls, Stranded) != [] then Stranded
         else if Select(calls, Unstarted) != [] then Unstarted else Repeatable;
    assert o == Owed(Select(calls, b)[0], b != Stranded);
    assert Select(calls, b)[0] in calls;
    i :| 0 <= i < |calls| && calls[i] == Select(calls, b)[0];
  }

  lemma {:induction false} AdvanceOwed(calls: seq<Call>)
    requires Indexed(calls) && OwedBy(calls) != []
    ensures var o := OwedBy(calls)[0];
      && o.call.index < |calls| && calls[o.call.index] == o.call && o.call.status != Completed
      && OwedBy(WithCallStatus(calls, o.call.index, Completed)) == OwedBy(calls)[1..]
  {
    var i, b := FirstOwed(calls);
    CompleteOne(calls, i, Stranded);
    CompleteOne(calls, i, Unstarted);
    CompleteOne(calls, i, Repeatable);
    var done := WithCallStatus(calls, i, Completed);
    assert Mark(Select(done, b), b != Stranded) == Mark(Select(calls, b), b != Stranded)[1..];
  }

  lemma {:induction false} SettleAllReadsArgs(s: State, t: State, run: string, step: StepId, calls: seq<Call>, owed: seq<Owed>, deps: Deps)
    requires s.toolArgs == t.toolArgs
    ensures SettleAll(s, run, step, calls, owed, deps) == SettleAll(t, run, step, calls, owed, deps)
    decreases |owed|
  {
    if owed != [] {
      SettleAllReadsArgs(s, t, run, step, WithCallStatus(calls, owed[0].call.index, Completed), owed[1..], deps);
    }
  }

  /** What settling one call does to the record. */
  function Settled(s: State, run: string, step: StepId, calls: seq<Call>, owed: Owed, deps: Deps): State {
    var entry := ResultEntry(run, owed.call, OutcomeOf(s, step, owed, deps));
    var s1 := if Collides(s.entries, entry) then s else s.(entries := s.entries + [entry]);
    s1.(positions := s1.positions[run := Tools(step, WithCallStatus(calls, owed.call.index, Completed))])
  }

  lemma {:induction false} SettleOneEffect(s: State, run: string, step: StepId, calls: seq<Call>, owed: Owed, deps: Deps)
    ensures Replay(s, SettleOne(s, run, step, calls, owed, deps)) == Settled(s, run, step, calls, owed, deps)
  {
    var entry := PutEntry(ResultEntry(run, owed.call, OutcomeOf(s, step, owed, deps)));
    var marker := SetPosition(run, Tools(step, WithCallStatus(calls, owed.call.index, Completed)));
    ApplyTwo(s, entry, marker);
    var commit := Commit([entry, marker]);
    assert Replay(s, [commit]) == After(s, commit);
    if owed.run && deps.reexecute.Some? {
      var began := Began(owed.call.toolUseId, ArgsOf(s, step, owed.call));
      assert ([began] + [commit])[1..] == [commit];
    }
  }

  /** A pass with something to settle is one settlement followed by a whole pass. */
  lemma {:induction false} Unfold(s: State, run: string, step: StepId, calls: seq<Call>, deps: Deps)
    requires PositionOf(s, run) == Some(Tools(step, calls)) && Indexed(calls) && OwedBy(calls) != []
    ensures var o := OwedBy(calls)[0];
      var s1 := Settled(s, run, step, calls, o, deps);
      && Steps(s, run, deps) == SettleOne(s, run, step, calls, o, deps) + Steps(s1, run, deps)
      && GoodPosition(s1, run)
      && OwedBy(WithCallStatus(calls, o.call.index, Completed)) == OwedBy(calls)[1..]
  {
    AdvanceOwed(calls);
    var o := OwedBy(calls)[0];
    var done := WithCallStatus(calls, o.call.index, Completed);
    var s1 := Settled(s, run, step, calls, o, deps);
    SettleAllReadsArgs(s, s1, run, step, done, OwedBy(done), deps);
    var last := [Commit([SetPosition(run, Record.Checkpoint)])];
    assert Steps(s1, run, deps) == SettleAll(s, run, step, done, OwedBy(done), deps) + last;
  }

  function OwedNow(s: State, run: string): nat {
    match PositionOf(s, run)
    case Some(Tools(_, calls)) => |OwedBy(calls)|
    case _ => 0
  }

  /** Confluence: a pass cut anywhere, then a whole pass, gives what the whole pass gives. */
  lemma {:induction false} CutThenRecover(s: State, run: string, deps: Deps, cut: nat)
    requires GoodPosition(s, run) && cut <= |Steps(s, run, deps)|
    ensures var left := Replay(s, Steps(s, run, deps)[..cut]);
      GoodPosition(left, run) && Recovered(left, run, deps) == Recovered(s, run, deps)
    decreases OwedNow(s, run)
  {
    var steps := Steps(s, run, deps);
    if cut == 0 {
      assert steps[..0] == [];
    } else if OwedNow(s, run) > 0 {
      var Some(Tools(step, calls)) := PositionOf(s, run);
      var o := OwedBy(calls)[0];
      Unfold(s, run, step, calls, deps);
      var one := SettleOne(s, run, step, calls, o, deps);
      var s1 := Settled(s, run, step, calls, o, deps);
      SettleOneEffect(s, run, step, calls, o, deps);
      ReplayConcat(s, one, Steps(s1, run, deps));
      if cut < |one| {
        assert steps[..cut] == one[..cut] == [one[0]];
        assert Replay(s, [one[0]]) == s;
      } else {
        var rest := Steps(s1, run, deps)[..cut - |one|];
        assert steps[..cut] == one + rest;
        ReplayConcat(s, one, rest);
        CutThenRecover(s1, run, deps, cut - |one|);
      }
    } else {
      assert |steps| == 1;
      assert steps[..cut] == steps;
      assert Replay(s, steps) == After(s, steps[0]);
      LastStepSettles(s, run, deps);
    }
  }

  /** When nothing is left to run, the pass's one transaction leaves nothing owed. */
  lemma {:induction false} LastStepSettles(s: State, run: string, deps: Deps)
    requires |Steps(s, run, deps)| == 1 && OwedNow(s, run) == 0
    ensures Steps(Recovered(s, run, deps), run, deps) == []
  {
    var steps := Steps(s, run, deps);
    assert steps == [steps[0]];
    ReplayOne(s, steps[0]);
    match PlanRecovery(PositionOf(s, run))
    case SettleUncertain(key, _) =>
      ApplyTwo(s, PutEntry(UncertainEntry(run, key)), SetPosition(run, Terminal(Interrupted)));
    case FinishTools(_, _, _, _, _) => ApplyOne(s, SetPosition(run, Record.Checkpoint));
    case Recompact(_) => ApplyOne(s, SetPosition(run, Record.Checkpoint));
  }

  /** The record after passes cut short at the given points. */
  function AfterPasses(s: State, run: string, deps: Deps, cuts: seq<nat>): State
    decreases |cuts|
  {
    if cuts == [] then s
    else
      var steps := Steps(s, run, deps);
      AfterPasses(Replay(s, if cuts[0] <= |steps| then steps[..cuts[0]] else steps), run, deps, cuts[1..])
  }

  /** Any number of passes, each cut anywhere, and then one whole pass: the same entries in the
      same order, the same position, as if the first pass had not been cut. */
  lemma {:induction false} RecoveryConfluent(s: State, run: string, deps: Deps, cuts: seq<nat>)
    requires GoodPosition(s, run)
    ensures Recovered(AfterPasses(s, run, deps, cuts), run, deps) == Recovered(s, run, deps)
    decreases |cuts|
  {
    if cuts != [] {
      var steps := Steps(s, run, deps);
      var cut := if cuts[0] <= |steps| then cuts[0] else |steps|;
      assert steps[..|steps|] == steps;
      CutThenRecover(s, run, deps, cut);
      RecoveryConfluent(Replay(s, steps[..cut]), run, deps, cuts[1..]);
    }
  }

  /** Once a pass has completed, another does nothing at all. */
  lemma {:induction false} RecoveryIdempotent(s: State, run: string, deps: Deps)
    requires GoodPosition(s, run)
    ensures Steps(Recovered(s, run, deps), run, deps) == []
    ensures Recovered(Recovered(s, run, deps), run, deps) == Recovered(s, run, deps)
    decreases OwedNow(s, run)
  {
    if OwedNow(s, run) > 0 {
      var Some(Tools(step, calls)) := PositionOf(s, run);
      Unfold(s, run, step, calls, deps);
      var one := SettleOne(s, run, step, calls, OwedBy(calls)[0], deps);
      var s1 := Settled(s, run, step, calls, OwedBy(calls)[0], deps);
      SettleOneEffect(s, run, step, calls, OwedBy(calls)[0], deps);
      ReplayConcat(s, one, Steps(s1, run, deps));
      RecoveryIdempotent(s1, run, deps);
    } else if Steps(s, run, deps) != [] {
      LastStepSettles(s, run, deps);
    }
  }

  // --- What a pass is announced under --------------------------------------------------------

  /** Recovery files nothing that takes a number. */
  predicate Unnumbered(steps: seq<Step>) {
    forall i :: 0 <= i < |steps| && steps[i].Commit? ==> NoNumbers(steps[i].writes)
  }

  predicate NoNumbers(writes: seq<Write>) {
    forall i :: 0 <= i < |writes| && writes[i].PutEntry? ==> writes[i].entry.seqNo.None?
  }

  lemma {:induction false} MaxSeqConcat(a: seq<Entry>, e: Entry, run: string)
    requires e.seqNo.None?
    ensures MaxSeq(a + [e], run) == MaxSeq(a, run)
    decreases |a|
  {
    if a == [] {
      assert a + [e] == [e] && [e][1..] == [];
      assert MaxSeq([], run) == 0;
    } else {
      assert (a + [e])[1..] == a[1..] + [e];
      MaxSeqConcat(a[1..], e, run);
    }
  }

  lemma {:induction false} ApplyKeepsHighest(s: State, writes: seq<Write>, run: string)
    requires NoNumbers(writes)
    ensures HighestSeq(Apply(s, writes).entries, run) == HighestSeq(s.entries, run)
    decreases |writes|
  {
    if writes != [] {
      if writes[0].PutEntry? {
        MaxSeqConcat(s.entries, writes[0].entry, run);
      }
      ApplyKeepsHighest(ApplyWrite(s, writes[0]), writes[1..], run);
    }
  }

  lemma {:induction false} ReplayKeepsHighest(s: State, steps: seq<Step>, run: string)
    requires Unnumbered(steps)
    ensures HighestSeq(Replay(s, steps).entries, run) == HighestSeq(s.entries, run)
    decreases |steps|
  {
    if steps != [] {
      if steps[0].Commit? {
        ApplyKeepsHighest(s, steps[0].writes, run);
      }
      ReplayKeepsHighest(After(s, steps[0]), steps[1..], run);
    }
  }

  lemma {:induction false} SettlingIsUnnumbered(s: State, run: string, step: StepId, calls: seq<Call>, owed: seq<Owed>, deps: Deps)
    ensures Unnumbered(SettleAll(s, run, step, calls, owed, deps))
    decreases |owed|
  {
    if owed != [] {
      SettlingIsUnnumbered(s, run, step, WithCallStatus(calls, owed[0].call.index, Completed), owed[1..], deps);
    }
  }

  lemma {:induction false} PassIsUnnumbered(s: State, run: string, deps: Deps)
    ensures Unnumbered(Steps(s, run, deps))
  {
    match PlanRecovery(PositionOf(s, run))
    case FinishTools(step, calls, _, _, _) => SettlingIsUnnumbered(s, run, step, calls, OwedBy(calls), deps);
    case _ =>
  }

  /** Every pass over a run, after however many cut short, is announced under one and the same number: an
      announcement takes a number and leaves no trace of it on the record. */
  lemma {:induction false} PassesShareANumber(s: State, run: string, deps: Deps, cuts: seq<nat>)
    ensures var after := Recovered(AfterPasses(s, run, deps, cuts), run, deps);
      HighestSeq(after.entries, run) + 1 == HighestSeq(Recovered(s, run, deps).entries, run) + 1 == HighestSeq(s.entries, run) + 1
    decreases |cuts|
  {
    var steps := Steps(s, run, deps);
    PassIsUnnumbered(s, run, deps);
    ReplayKeepsHighest(s, steps, run);
    if cuts != [] {
      var pass := if cuts[0] <= |steps| then steps[..cuts[0]] else steps;
      ReplayKeepsHighest(s, pass, run);
      PassesShareANumber(Replay(s, pass), run, deps, cuts[1..]);
    }
  }
}
