/** Restarting with a way to run calls: how often a call that must not be repeated is begun. */
module Restarts {
  import opened Json
  import opened Contract
  import opened Record
  import opened Checkpoint
  import opened Journal
  import opened Recovery
  import opened RecoveryLaws
  import opened Protocol
  import opened CrashSafety

  /** One pass, cut after so many steps. */
  function Pass(s: State, run: string, deps: Deps, cut: nat): seq<Step> {
    var steps := Steps(s, run, deps);
    if cut <= |steps| then steps[..cut] else steps
  }

  /** Passes cut at the given points, and then a whole one. */
  function Passes(s: State, run: string, deps: Deps, cuts: seq<nat>): seq<Step>
    decreases |cuts|
  {
    if cuts == [] then Steps(s, run, deps)
    else
      var pass := Pass(s, run, deps, cuts[0]);
      pass + Passes(Replay(s, pass), run, deps, cuts[1..])
  }

  lemma {:induction false} PassesReach(s: State, run: string, deps: Deps, cuts: seq<nat>)
    ensures Replay(s, Passes(s, run, deps, cuts)) == Recovered(AfterPasses(s, run, deps, cuts), run, deps)
    decreases |cuts|
  {
    if cuts != [] {
      var pass := Pass(s, run, deps, cuts[0]);
      ReplayConcat(s, pass, Passes(Replay(s, pass), run, deps, cuts[1..]));
      PassesReach(Replay(s, pass), run, deps, cuts[1..]);
    }
  }

  predicate EndsBeginning(steps: seq<Step>, id: string) {
    steps != [] && steps[|steps| - 1].Began? && steps[|steps| - 1].toolUseId == id
  }

  /** How many passes were cut after beginning the call and before recording its outcome. */
  function Torn(s: State, run: string, deps: Deps, cuts: seq<nat>, id: string): nat
    decreases |cuts|
  {
    if cuts == [] then 0
    else
      var pass := Pass(s, run, deps, cuts[0]);
      (if EndsBeginning(pass, id) then 1 else 0) + Torn(Replay(s, pass), run, deps, cuts[1..], id)
  }

  /** As shipped, no way to run a call is supplied, and recovery begins none. */
  lemma {:induction false} ShippedBeginsNothing(s: State, run: string, cuts: seq<nat>, id: string)
    ensures Starts(Passes(s, run, SHIPPED, cuts), id) == 0
    decreases |cuts|
  {
    if cuts == [] {
      WholePassBeginsNothing(s, run, id);
    } else {
      var pass := Pass(s, run, SHIPPED, cuts[0]);
      WholePassBeginsNothing(s, run, id);
      var steps := Steps(s, run, SHIPPED);
      if cuts[0] <= |steps| {
        assert steps == steps[..cuts[0]] + steps[cuts[0]..];
        StartsConcat(steps[..cuts[0]], steps[cuts[0]..], id);
      }
      ShippedBeginsNothing(Replay(s, pass), run, cuts[1..], id);
      StartsConcat(pass, Passes(Replay(s, pass), run, SHIPPED, cuts[1..]), id);
    }
  }

  lemma {:induction false} WholePassBeginsNothing(s: State, run: string, id: string)
    ensures Starts(Steps(s, run, SHIPPED), id) == 0
  {
    match PlanRecovery(PositionOf(s, run))
    case FinishTools(step, calls, _, _, _) =>
      SettlingBeginsNothing(s, run, step, calls, OwedBy(calls), id);
      CommitBeginsNothing([SetPosition(run, Record.Checkpoint)], id);
      StartsConcat(SettleAll(s, run, step, calls, OwedBy(calls), SHIPPED), [Commit([SetPosition(run, Record.Checkpoint)])], id);
    case SettleUncertain(key, _) =>
      CommitBeginsNothing([PutEntry(UncertainEntry(run, key)), SetPosition(run, Terminal(Interrupted))], id);
    case Recompact(_) =>
      CommitBeginsNothing([SetPosition(run, Record.Checkpoint)], id);
    case _ =>
  }

  lemma {:induction false} CommitBeginsNothing(writes: seq<Write>, id: string)
    ensures Starts([Commit(writes)], id) == 0
  {
  }

  lemma {:induction false} SettlingBeginsNothing(s: State, run: string, step: StepId, calls: seq<Call>, owed: seq<Owed>, id: string)
    ensures Starts(SettleAll(s, run, step, calls, owed, SHIPPED), id) == 0
    decreases |owed|
  {
    if owed != [] {
      var done := WithCallStatus(calls, owed[0].call.index, Completed);
      var one := SettleOne(s, run, step, calls, owed[0], SHIPPED);
      SettlingBeginsNothing(s, run, step, done, owed[1..], id);
      assert one == [one[0]] && one[0].Commit?;
      CommitBeginsNothing(one[0].writes, id);
      StartsConcat(one, SettleAll(s, run, step, done, owed[1..], SHIPPED), id);
    }
  }

  // --- With a way to run calls ---------------------------------------------------------------------

  /** The position holds this call as planned. */
  predicate Unbegun(s: State, run: string, id: string) {
    match PositionOf(s, run)
    case Some(Tools(_, calls)) => PlannedIn(calls, id)
    case _ => false
  }

  /** Ids are distinct, and the call with this one must not be repeated. */
  ghost predicate NeverRepeats(s: State, run: string, id: string) {
    match PositionOf(s, run)
    case Some(Tools(_, calls)) => NeverIn(calls, id)
    case _ => true
  }

  lemma {:induction false} SettledNeverRepeats(s: State, run: string, step: StepId, calls: seq<Call>, deps: Deps, id: string)
    requires NeverRepeats(s, run, id) && PositionOf(s, run) == Some(Tools(step, calls)) && OwedBy(calls) != []
    ensures var o := OwedBy(calls)[0];
      var s1 := Settled(s, run, step, calls, o, deps);
      && NeverRepeats(s1, run, id)
      && (Unbegun(s1, run, id) <==> Unbegun(s, run, id) && o.call.toolUseId != id)
      && (o.call.toolUseId == id && o.run ==> Unbegun(s, run, id))
      && (o.call.toolUseId == id && Unbegun(s, run, id) ==> o.run)
  {
    AdvanceOwed(calls);
    CompletedNeverRepeats(calls, OwedBy(calls)[0], id);
  }

  /** Some call with this id is planned. */
  predicate PlannedIn(calls: seq<Call>, id: string) {
    exists i :: 0 <= i < |calls| && calls[i].toolUseId == id && calls[i].status == Planned
  }

  ghost predicate NeverIn(calls: seq<Call>, id: string) {
    && Indexed(calls) && Distinct(Ids(calls))
    && forall i :: 0 <= i < |calls| && calls[i].toolUseId == id ==> calls[i].replay == Never
  }

  /** The call that is settled first, among calls with ids of their own. */
  lemma {:induction false} CompletedNeverRepeats(calls: seq<Call>, o: Owed, id: string)
    requires NeverIn(calls, id) && OwedBy(calls) != [] && o == OwedBy(calls)[0]
    ensures var done := WithCallStatus(calls, o.call.index, Completed);
      && NeverIn(done, id)
      && (PlannedIn(done, id) <==> PlannedIn(calls, id) && o.call.toolUseId != id)
      && (o.call.toolUseId == id && o.run ==> PlannedIn(calls, id))
      && (o.call.toolUseId == id && PlannedIn(calls, id) ==> o.run)
  {
    var k, b := FirstOwed(calls);
    OnlyOneWithId(calls, k);
    OthersStay(calls, k, id);
  }

  lemma {:induction false} OnlyOneWithId(calls: seq<Call>, k: nat)
    requires Distinct(Ids(calls)) && k < |calls|
    ensures forall i :: 0 <= i < |calls| && i != k ==> calls[i].toolUseId != calls[k].toolUseId
  {
    forall i | 0 <= i < |calls| && i != k ensures calls[i].toolUseId != calls[k].toolUseId {
      assert Ids(calls)[i] == calls[i].toolUseId && Ids(calls)[k] == calls[k].toolUseId;
    }
  }

  lemma {:induction false} OthersStay(calls: seq<Call>, k: nat, id: string)
    requires NeverIn(calls, id) && k < |calls|
    requires forall i :: 0 <= i < |calls| && i != k ==> calls[i].toolUseId != calls[k].toolUseId
    ensures var done := WithCallStatus(calls, k, Completed);
      NeverIn(done, id) && (PlannedIn(done, id) <==> PlannedIn(calls, id) && calls[k].toolUseId != id)
  {
    var done := WithCallStatus(calls, k, Completed);
    assert forall i :: 0 <= i < |calls| ==> done[i].toolUseId == calls[i].toolUseId && done[i].replay == calls[i].replay;
    assert Ids(done) == Ids(calls);
    if PlannedIn(calls, id) && calls[k].toolUseId != id {
      var i :| 0 <= i < |calls| && calls[i].toolUseId == id && calls[i].status == Planned;
      assert done[i] == calls[i];
    }
  }

  ghost predicate Tallies(s: State, run: string, pass: seq<Step>, id: string) {
    var left := Replay(s, pass);
    && NeverRepeats(left, run, id)
    && (Unbegun(left, run, id) ==> Unbegun(s, run, id))
    && (EndsBeginning(pass, id) ==> Unbegun(left, run, id))
    && Starts(pass, id) == (if Unbegun(s, run, id) && !Unbegun(left, run, id) then 1 else 0)
                           + (if EndsBeginning(pass, id) then 1 else 0)
  }

  /** One cut pass begins the call once if it takes it past planned, and once more if it is cut right
      after beginning it. */
  lemma {:induction false} PassBegins(s: State, run: string, deps: Deps, cut: nat, id: string)
    requires NeverRepeats(s, run, id) && deps.reexecute.Some? && cut <= |Steps(s, run, deps)|
    ensures Tallies(s, run, Steps(s, run, deps)[..cut], id)
    decreases OwedNow(s, run)
  {
    var steps := Steps(s, run, deps);
    if cut == 0 {
      TallyNothing(s, run, id);
      assert steps[..0] == [];
    } else if OwedNow(s, run) > 0 {
      var one, s1 := Peel(s, run, deps, id);
      if cut < |one| {
        TallyTorn(s, run, one[0], id);
        assert steps[..cut] == [one[0]];
      } else {
        var rest := Steps(s1, run, deps)[..cut - |one|];
        PassBegins(s1, run, deps, cut - |one|, id);
        TallyOn(s, run, one, s1, rest, id);
        assert steps[..cut] == one + rest;
      }
    } else {
      LastPassBegins(s, run, deps, id);
      assert steps[..cut] == steps;
    }
  }

  lemma {:induction false} TallyNothing(s: State, run: string, id: string)
    requires NeverRepeats(s, run, id)
    ensures Tallies(s, run, [], id)
  {
  }

  lemma {:induction false} TallyTorn(s: State, run: string, began: Step, id: string)
    requires NeverRepeats(s, run, id) && began.Began? && (began.toolUseId == id ==> Unbegun(s, run, id))
    ensures Tallies(s, run, [began], id)
  {
    CutInside(s, began, id);
  }

  lemma {:induction false} TallyOn(s: State, run: string, one: seq<Step>, s1: State, rest: seq<Step>, id: string)
    requires one != [] && one[|one| - 1].Commit? && s1 == Replay(s, one) && Tallies(s1, run, rest, id)
    requires Unbegun(s1, run, id) ==> Unbegun(s, run, id)
    requires Starts(one, id) == if Unbegun(s, run, id) && !Unbegun(s1, run, id) then 1 else 0
    ensures Tallies(s, run, one + rest, id)
  {
    OneThenRest(s, one, rest, id);
  }

  /** The first settlement of a pass, and the state it leaves the rest to. */
  lemma {:induction false} Peel(s: State, run: string, deps: Deps, id: string) returns (one: seq<Step>, s1: State)
    requires NeverRepeats(s, run, id) && deps.reexecute.Some? && OwedNow(s, run) > 0
    ensures Steps(s, run, deps) == one + Steps(s1, run, deps) && s1 == Replay(s, one)
    ensures NeverRepeats(s1, run, id) && OwedNow(s1, run) < OwedNow(s, run)
    ensures 1 <= |one| <= 2 && one[|one| - 1].Commit? && (|one| == 2 ==> one[0].Began?)
    ensures |one| == 2 && one[0].toolUseId == id ==> Unbegun(s, run, id)
    ensures Unbegun(s1, run, id) ==> Unbegun(s, run, id)
    ensures Starts(one, id) == if Unbegun(s, run, id) && !Unbegun(s1, run, id) then 1 else 0
  {
    var Some(Tools(step, calls)) := PositionOf(s, run);
    var o := OwedBy(calls)[0];
    Unfold(s, run, step, calls, deps);
    one := SettleOne(s, run, step, calls, o, deps);
    s1 := Settled(s, run, step, calls, o, deps);
    SettleOneBegins(s, run, step, calls, o, deps, id);
    SettledNeverRepeats(s, run, step, calls, deps, id);
    SettleOneEffect(s, run, step, calls, o, deps);
  }

  lemma {:induction false} CutInside(s: State, began: Step, id: string)
    requires began.Began?
    ensures Replay(s, [began]) == s && Starts([began], id) == (if EndsBeginning([began], id) then 1 else 0)
  {
  }

  lemma {:induction false} OneThenRest(s: State, one: seq<Step>, rest: seq<Step>, id: string)
    requires one != [] && one[|one| - 1].Commit?
    ensures Replay(s, one + rest) == Replay(Replay(s, one), rest)
    ensures Starts(one + rest, id) == Starts(one, id) + Starts(rest, id)
    ensures EndsBeginning(one + rest, id) <==> EndsBeginning(rest, id)
  {
    ReplayConcat(s, one, rest);
    StartsConcat(one, rest, id);
  }

  lemma {:induction false} SettleOneBegins(s: State, run: string, step: StepId, calls: seq<Call>, o: Owed, deps: Deps, id: string)
    requires deps.reexecute.Some?
    ensures var one := SettleOne(s, run, step, calls, o, deps);
      && 1 <= |one| <= 2 && one[|one| - 1].Commit? && (|one| == 2 <==> o.run)
      && (o.run ==> one[0].Began? && one[0].toolUseId == o.call.toolUseId)
      && Starts(one, id) == if o.run && o.call.toolUseId == id then 1 else 0
  {
    var one := SettleOne(s, run, step, calls, o, deps);
    CommitBeginsNothing(one[|one| - 1].writes, id);
    if o.run {
      assert one[1..] == [one[1]];
    } else {
      assert one == [one[0]];
    }
  }

  lemma {:induction false} LastPassBegins(s: State, run: string, deps: Deps, id: string)
    requires OwedNow(s, run) == 0 && NeverRepeats(s, run, id)
    ensures var steps := Steps(s, run, deps);
      && |steps| <= 1 && (steps != [] ==> steps[0].Commit?) && Starts(steps, id) == 0
      && !Unbegun(s, run, id) && !Unbegun(Replay(s, steps), run, id) && NeverRepeats(Replay(s, steps), run, id)
  {
    var steps := Steps(s, run, deps);
    if PositionOf(s, run).Some? && PositionOf(s, run).value.Tools? {
      CrashSafety.NothingOwed(PositionOf(s, run).value.calls);
    }
    if steps != [] {
      assert steps == [steps[0]];
      CommitBeginsNothing(steps[0].writes, id);
      ReplayOne(s, steps[0]);
      match PlanRecovery(PositionOf(s, run))
      case SettleUncertain(key, _) =>
        ApplyTwo(s, PutEntry(UncertainEntry(run, key)), SetPosition(run, Terminal(Interrupted)));
      case FinishTools(_, _, _, _, _) => ApplyOne(s, SetPosition(run, Record.Checkpoint));
      case Recompact(_) => ApplyOne(s, SetPosition(run, Record.Checkpoint));
    }
  }

  lemma {:induction false} WholePassFinishes(s: State, run: string, deps: Deps, id: string)
    requires GoodPosition(s, run)
    ensures !Unbegun(Recovered(s, run, deps), run, id) && !EndsBeginning(Steps(s, run, deps), id)
  {
    RecoveryIdempotent(s, run, deps);
    var r := Recovered(s, run, deps);
    assert PositionOf(r, run).Some? && PositionOf(r, run).value.Tools? ==> |Steps(r, run, deps)| > 0;
  }

  /** Exactly: once if it had not been begun before the crash, plus once for every pass cut between
      beginning it and recording its outcome. */
  lemma {:induction false} BegunExactly(s: State, run: string, deps: Deps, cuts: seq<nat>, id: string)
    requires NeverRepeats(s, run, id) && deps.reexecute.Some?
    ensures Starts(Passes(s, run, deps, cuts), id)
      == (if Unbegun(s, run, id) then 1 else 0) + Torn(s, run, deps, cuts, id)
    ensures !Unbegun(s, run, id) ==> Torn(s, run, deps, cuts, id) == 0
    decreases |cuts|
  {
    var steps := Steps(s, run, deps);
    if cuts == [] {
      PassBegins(s, run, deps, |steps|, id);
      assert steps[..|steps|] == steps;
      WholePassFinishes(s, run, deps, id);
    } else {
      var cut := if cuts[0] <= |steps| then cuts[0] else |steps|;
      assert steps[..|steps|] == steps;
      PassBegins(s, run, deps, cut, id);
      var pass := Pass(s, run, deps, cuts[0]);
      assert pass == steps[..cut];
      BegunExactly(Replay(s, pass), run, deps, cuts[1..], id);
      StartsConcat(pass, Passes(Replay(s, pass), run, deps, cuts[1..]), id);
    }
  }

  // --- A run, its crash and its recovery ---------------------------------------------------------------

  /** As shipped, no call is begun twice over the loop, its crash, and any number of recoveries. */
  lemma {:induction false} ShippedAtMostOnce(run: string, origin: State, j: seq<Step>, cuts: seq<nat>, id: string)
    requires Fresh(origin, run) && Lawful(run, origin, j) && Distinct(Asked(run, j))
    ensures Starts(j + Passes(Replay(origin, j), run, SHIPPED, cuts), id) <= 1
  {
    LawfulStartsOnce(run, origin, j);
    ShippedBeginsNothing(Replay(origin, j), run, cuts, id);
    StartsConcat(j, Passes(Replay(origin, j), run, SHIPPED, cuts), id);
  }

  /** With a way to run calls, a call that must not be repeated is begun at most once exactly when no
      pass was cut between beginning it and recording its outcome. */
  lemma {:induction false} NeverAtMostOnceExactly(run: string, origin: State, j: seq<Step>, deps: Deps, cuts: seq<nat>, id: string)
    requires Fresh(origin, run) && Lawful(run, origin, j) && Distinct(Asked(run, j))
    requires deps.reexecute.Some? && NeverRepeats(Replay(origin, j), run, id)
    ensures Starts(j + Passes(Replay(origin, j), run, deps, cuts), id) <= 1
      <==> Torn(Replay(origin, j), run, deps, cuts, id) == 0
  {
    var s := Replay(origin, j);
    LawfulStartsOnce(run, origin, j);
    BegunExactly(s, run, deps, cuts, id);
    StartsConcat(j, Passes(s, run, deps, cuts), id);
    if Unbegun(s, run, id) {
      var Tools(_, calls) := PositionOf(s, run).value;
      var i :| 0 <= i < |calls| && calls[i].toolUseId == id && calls[i].status == Planned;
      assert CountedCall(run, origin, j, calls[i], i);
    }
  }

  /** Such a cut exists for every planned call that a pass takes first: it is then begun twice. */
  lemma {:induction false} TornBeginsTwice(s: State, run: string, step: StepId, call: Call, deps: Deps)
    requires PositionOf(s, run) == Some(Tools(step, [call])) && Indexed([call])
    requires call.status == Planned && call.replay == Never && deps.reexecute.Some?
    ensures Starts(Passes(s, run, deps, [1]), call.toolUseId) == 2
  {
    var calls := [call];
    assert calls[1..] == [];
    assert Select(calls, Unstarted) == [call] && Select(calls, Stranded) == [] && Select(calls, Repeatable) == [] by {
      assert Select([], Unstarted) == [] && Select([], Stranded) == [] && Select([], Repeatable) == [];
    }
    var id := call.toolUseId;
    assert Ids(calls) == [id];
    assert OwedBy(calls) == [Owed(call, true)];
    Unfold(s, run, step, calls, deps);
    SettleOneBegins(s, run, step, calls, Owed(call, true), deps, id);
    var pass := Pass(s, run, deps, 1);
    assert EndsBeginning(pass, id);
    assert [1][1..] == [];
    assert calls[0].toolUseId == id;
    assert Torn(s, run, deps, [1], id) == 1 + Torn(Replay(s, pass), run, deps, [], id);
    BegunExactly(s, run, deps, [1], id);
  }
}
