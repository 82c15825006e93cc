/** Every call a run plans is run once, if it is let through and there is such a tool, and otherwise not at all; and it is
    run between the transaction that marks it and the one that answers it. */
module Effects {
  import opened Json
  import opened Contract
  import opened Record
  import opened Checkpoint
  import opened Journal
  import opened World
  import opened Protocol
  import opened Deeds
  import opened Conduct
  import CrashSafety
  import Pacing
  import RunLoop

  // --- What a step was ----------------------------------------------------------------------------

  lemma {:induction false} AnswerWasDone(spec: RunLoop.Spec, world: nat -> RunLoop.Turn, origin: State, j: seq<Step>, step: Step)
    requires MayBe(spec, world, origin, j, step) && FilesKeyed(step)
    ensures Sends(j) > 0 && AnsweredIn(spec, world(Sends(j) - 1), origin, j, step)
  {
  }

  lemma {:induction false} PlanWasMade(spec: RunLoop.Spec, world: nat -> RunLoop.Turn, origin: State, j: seq<Step>, step: Step)
    requires MayBe(spec, world, origin, j, step) && PlannedBy(step).Some?
    ensures Sends(j) > 0 && PlansAsAsked(spec, world(Sends(j) - 1), origin, j, PlannedBy(step).value)
  {
    if Sends(j) > 0 && AnsweredIn(spec, world(Sends(j) - 1), origin, j, step) {
      AnswersPlanNothing(spec, world(Sends(j) - 1), origin, j, step);
    }
  }

  lemma {:induction false} AnswersPlanNothing(spec: RunLoop.Spec, turn: RunLoop.Turn, origin: State, j: seq<Step>, step: Step)
    requires AnsweredIn(spec, turn, origin, j, step)
    ensures PlannedBy(step).None?
  {
    var stepId: StepId, calls: seq<Call>, at: nat :| AnsweredAt(spec, turn, origin, j, step, stepId, calls, at);
    assert calls[at := calls[at].(status := Completed)][at].status != Planned;
  }

  // --- From the plan to the answer --------------------------------------------------------------------

  /** The calls planned are in hand, the one at `i` not completed. */
  ghost predicate InHand(run: string, s: State, planned: seq<Call>, i: nat) {
    match PositionOf(s, run)
    case Some(Tools(_, calls)) => Held(calls, planned, i)
    case _ => false
  }

  predicate Held(calls: seq<Call>, planned: seq<Call>, i: nat) {
    && |calls| == |planned| && i < |calls| && calls[i].status != Completed
    && forall x :: 0 <= x < |calls| ==> calls[x].toolUseId == planned[x].toolUseId && calls[x].name == planned[x].name
  }

  /** The step answers the call at `i`, of this id and name. */
  ghost predicate AnswersCall(spec: RunLoop.Spec, turn: RunLoop.Turn, origin: State, j: seq<Step>, step: Step, planned: Call, i: nat) {
    step.Commit? && exists stepId, calls: seq<Call> :: AnswersThere(spec, turn, origin, j, step, stepId, calls, planned, i)
  }

  ghost predicate AnswersThere(spec: RunLoop.Spec, turn: RunLoop.Turn, origin: State, j: seq<Step>, step: Step,
                               stepId: StepId, calls: seq<Call>, planned: Call, i: nat)
    requires step.Commit?
  {
    && AnsweredAt(spec, turn, origin, j, step, stepId, calls, i)
    && calls[i].toolUseId == planned.toolUseId && calls[i].name == planned.name
  }

  lemma {:induction false} PlanLands(run: string, s: State, tx: RunLoop.Tx, planned: seq<Call>, i: nat)
    requires PlannedBy(Step.Commit(RunLoop.Writes(run, tx))) == Some(planned) && i < |planned|
    ensures InHand(run, Landed(s, run, tx), planned, i)
  {
    var writes := RunLoop.Writes(run, tx);
    Pacing.PositionOfTx(run, tx, writes[|writes| - 1]);
  }

  /** The answer that completes a call is the one its own step says. */
  lemma {:induction false} SameCall(calls: seq<Call>, x: nat, at: nat)
    requires x < |calls| && at < |calls| && calls[x].status != Completed
    requires calls[at := calls[at].(status := Completed)] == calls[x := calls[x].(status := Completed)]
    ensures at == x
  {
    var a, b := calls[at := calls[at].(status := Completed)], calls[x := calls[x].(status := Completed)];
    assert a[x] == b[x] && b[x].status == Completed;
  }

  lemma {:induction false} BringsKeyed(run: string, tx: RunLoop.Tx, id: string)
    requires Brings(tx.entries, run, id)
    ensures FilesKeyed(Step.Commit(RunLoop.Writes(run, tx)))
  {
    var n := |tx.entries|;
    assert RunLoop.Writes(run, tx)[n - 1] == PutEntry(tx.entries[n - 1]);
    assert RunLoop.Writes(run, tx)[n - 1] in RunLoop.Writes(run, tx);
  }

  lemma {:induction false} AnswerMovesOn(spec: RunLoop.Spec, turn: RunLoop.Turn, origin: State, j: seq<Step>, step: Step,
                                         stepId: StepId, calls: seq<Call>, planned: seq<Call>, x: nat)
    requires PositionOf(Replay(origin, j), spec.runId) == Some(Tools(stepId, calls)) && InHand(spec.runId, Replay(origin, j), planned, x)
    requires AnsweredIn(spec, turn, origin, j, step)
    requires step.writes != [] && step.writes[|step.writes| - 1] == SetPosition(spec.runId, Tools(stepId, calls[x := calls[x].(status := Completed)]))
    ensures AnswersCall(spec, turn, origin, j, step, planned[x], x)
  {
    var stepId': StepId, calls': seq<Call>, at: nat :| AnsweredAt(spec, turn, origin, j, step, stepId', calls', at);
    SameCall(calls, x, at);
    assert AnswersThere(spec, turn, origin, j, step, stepId', calls', planned[x], x);
  }

  /** This transaction completes the call at `i`. */
  ghost predicate MovesOn(run: string, s: State, tx: RunLoop.Tx, i: nat) {
    match PositionOf(s, run)
    case Some(Tools(stepId, calls)) =>
      && i < |calls| && tx.position == Some(Tools(stepId, WithCallStatus(calls, i, Completed)))
      && AdvancesAt(run, calls, tx.position.value.calls, tx.entries, i)
    case _ => false
  }

  lemma {:induction false} AdvancedIsHeld(run: string, calls: seq<Call>, next: seq<Call>, es: seq<Entry>, planned: seq<Call>, i: nat, x: nat)
    requires Indexed(calls) && Held(calls, planned, i) && x < |calls| && AdvancesAt(run, calls, next, es, x)
    ensures Held(next, planned, i) || (x == i && next == WithCallStatus(calls, i, Completed))
  {
  }

  lemma {:induction false} HandMovesOn(run: string, s: State, tx: RunLoop.Tx, planned: seq<Call>, i: nat)
    requires Kept(s, run) && Tidy(run, PositionOf(s, run), tx) && InHand(run, s, planned, i)
    ensures InHand(run, Landed(s, run, tx), planned, i) || MovesOn(run, s, tx, i)
  {
    var calls := PositionOf(s, run).value.calls;
    if tx.position.Some? && tx.position.value.Tools? {
      var next := tx.position.value.calls;
      var x: nat :| x < |calls| && AdvancesAt(run, calls, next, tx.entries, x);
      AdvancedIsHeld(run, calls, next, tx.entries, planned, i, x);
    }
  }

  lemma {:induction false} Completes(spec: RunLoop.Spec, world: nat -> RunLoop.Turn, origin: State, j: seq<Step>, s: State, tx: RunLoop.Tx,
                                     planned: seq<Call>, i: nat)
    requires s == Replay(origin, j) && Kept(s, spec.runId) && InHand(spec.runId, s, planned, i) && MovesOn(spec.runId, s, tx, i)
    requires MayBe(spec, world, origin, j, Step.Commit(RunLoop.Writes(spec.runId, tx)))
    ensures Sends(j) > 0 && AnswersCall(spec, world(Sends(j) - 1), origin, j, Step.Commit(RunLoop.Writes(spec.runId, tx)), planned[i], i)
  {
    var Tools(stepId, calls) := PositionOf(s, spec.runId).value;
    assert WithCallStatus(calls, i, Completed)[i].status != EffectPending;
    BringsKeyed(spec.runId, tx, calls[i].toolUseId);
    LastWrite(spec.runId, tx);
    AnswerWasDone(spec, world, origin, j, Step.Commit(RunLoop.Writes(spec.runId, tx)));
    AnswerMovesOn(spec, world(Sends(j) - 1), origin, j, Step.Commit(RunLoop.Writes(spec.runId, tx)), stepId, calls, planned, i);
  }

  // --- Over a journal ------------------------------------------------------------------------------

  /** Every step is one a run of this world may take. */
  ghost predicate Lived(spec: RunLoop.Spec, world: nat -> RunLoop.Turn, origin: State, j: seq<Step>) {
    Fresh(origin, spec.runId) && Lawful(spec.runId, origin, j) && Each(AsMayBe(spec, world, origin), j)
  }

  lemma {:induction false} EachPrefix(ok: (seq<Step>, Step) -> bool, j: seq<Step>, m: nat)
    requires Each(ok, j) && m <= |j|
    ensures Each(ok, j[..m])
  {
    forall k | 0 <= k < m ensures ok(j[..m][..k], j[..m][k]) {
      assert j[..m][..k] == j[..k];
    }
  }

  /** Where such a journal is cut, and what comes next. */
  lemma {:induction false} LivedAt(spec: RunLoop.Spec, world: nat -> RunLoop.Turn, origin: State, j: seq<Step>, m: nat)
    requires Lived(spec, world, origin, j) && m < |j|
    ensures Fresh(origin, spec.runId) && Lawful(spec.runId, origin, j[..m])
    ensures Legal(spec.runId, origin, j[..m], j[m]) && MayBe(spec, world, origin, j[..m], j[m])
  {
    LawfulPrefix(spec.runId, origin, j, m);
    assert AsMayBe(spec, world, origin)(j[..m], j[m]);
  }

  /** The step at `k` answers the planned call at `i`, in the turn it was planned in. */
  ghost predicate AnswersAt(spec: RunLoop.Spec, turn: RunLoop.Turn, origin: State, j: seq<Step>, k: nat, planned: Call, i: nat) {
    k < |j| && AnswersCall(spec, turn, origin, j[..k], j[k], planned, i)
  }

  lemma {:induction false} PlanMoves(spec: RunLoop.Spec, world: nat -> RunLoop.Turn, origin: State, init: seq<Step>, step: Step, planned: seq<Call>, i: nat)
    requires MayBe(spec, world, origin, init, step) && Lawful(spec.runId, origin, init) && Legal(spec.runId, origin, init, step)
    requires PlannedBy(step) == Some(planned) && i < |planned|
    ensures Sends(init) > 0 && InHand(spec.runId, Replay(origin, init + [step]), planned, i) && Sends(init + [step]) == Sends(init)
  {
    PlanWasMade(spec, world, origin, init, step);
    var s := Replay(origin, init);
    var tx := TxOf(spec.runId, origin, init, step);
    PlanLands(spec.runId, s, tx, planned, i);
    assert (init + [step])[..|init|] == init;
  }

  lemma {:induction false} QuietStep(origin: State, init: seq<Step>, step: Step)
    requires !step.Commit?
    ensures Replay(origin, init + [step]) == Replay(origin, init)
  {
    ReplayConcat(origin, init, [step]);
    ReplayOne(Replay(origin, init), step);
  }

  /** What a lawful transaction was. */
  lemma {:induction false} TxOf(run: string, origin: State, init: seq<Step>, step: Step) returns (tx: RunLoop.Tx)
    requires Lawful(run, origin, init) && Legal(run, origin, init, step) && step.Commit?
    ensures step.writes == RunLoop.Writes(run, tx) && Tidy(run, PositionOf(Replay(origin, init), run), tx)
    ensures Replay(origin, init + [step]) == Landed(Replay(origin, init), run, tx)
  {
    tx :| step.writes == RunLoop.Writes(run, tx) && Tidy(run, PositionOf(Replay(origin, init), run), tx)
          && Lands(Replay(origin, init).entries, tx.entries);
    LawfulExtend(run, origin, init, step);
    ApplyTx(Replay(origin, init), run, tx);
  }

  lemma {:induction false} StepMovesOn(spec: RunLoop.Spec, world: nat -> RunLoop.Turn, origin: State, init: seq<Step>, step: Step, planned: seq<Call>, i: nat)
    requires Fresh(origin, spec.runId) && Lawful(spec.runId, origin, init) && Legal(spec.runId, origin, init, step)
    requires MayBe(spec, world, origin, init, step) && InHand(spec.runId, Replay(origin, init), planned, i) && 0 < Sends(init)
    ensures var j := init + [step];
      || (InHand(spec.runId, Replay(origin, j), planned, i) && Sends(j) == Sends(init))
      || AnswersCall(spec, world(Sends(init) - 1), origin, init, step, planned[i], i)
  {
    var j, s := init + [step], Replay(origin, init);
    assert j[..|init|] == init;
    if step.Commit? {
      var tx := TxOf(spec.runId, origin, init, step);
      LawfulKeeps(spec.runId, origin, init);
      HandMovesOn(spec.runId, s, tx, planned, i);
      if MovesOn(spec.runId, s, tx, i) {
        Completes(spec, world, origin, init, s, tx, planned, i);
      }
    } else {
      QuietStep(origin, init, step);
    }
  }

  lemma {:induction false} CutAfter<T>(j: seq<T>, k: nat)
    requires k < |j|
    ensures j[..k + 1] == j[..k] + [j[k]]
  {
  }

  /** Until something is done it is in hand. */
  lemma {:induction false} Until(hand: nat -> bool, done: nat -> bool, p: nat, n: nat) returns (k: nat)
    requires p <= n && hand(p) && forall m: nat :: p <= m < n && hand(m) ==> hand(m + 1) || done(m)
    ensures hand(n) || (p <= k < n && done(k))
    decreases n - p
  {
    k := p;
    if p < n && !done(p) {
      k := Until(hand, done, p + 1, n);
    }
  }

  ghost predicate HandAt(run: string, origin: State, j: seq<Step>, planned: seq<Call>, i: nat, sends: nat, m: nat) {
    m <= |j| && InHand(run, Replay(origin, j[..m]), planned, i) && Sends(j[..m]) == sends
  }

  ghost function Hand(run: string, origin: State, j: seq<Step>, planned: seq<Call>, i: nat, sends: nat): nat -> bool {
    (m: nat) => HandAt(run, origin, j, planned, i, sends, m)
  }

  ghost function Done(spec: RunLoop.Spec, turn: RunLoop.Turn, origin: State, j: seq<Step>, planned: Call, i: nat): nat -> bool {
    (m: nat) => AnswersAt(spec, turn, origin, j, m, planned, i)
  }

  lemma {:induction false} LivedMovesOn(spec: RunLoop.Spec, world: nat -> RunLoop.Turn, origin: State, j: seq<Step>, planned: seq<Call>, i: nat, sends: nat, m: nat)
    requires Lived(spec, world, origin, j) && m < |j| && 0 < sends
    requires InHand(spec.runId, Replay(origin, j[..m]), planned, i) && Sends(j[..m]) == sends
    ensures (InHand(spec.runId, Replay(origin, j[..m] + [j[m]]), planned, i) && Sends(j[..m] + [j[m]]) == sends)
         || Done(spec, world(sends - 1), origin, j, planned[i], i)(m)
  {
    LivedAt(spec, world, origin, j, m);
    StepMovesOn(spec, world, origin, j[..m], j[m], planned, i);
  }

  lemma {:induction false} HandIs(run: string, origin: State, j: seq<Step>, planned: seq<Call>, i: nat, sends: nat, m: nat)
    requires m < |j|
    ensures Hand(run, origin, j, planned, i, sends)(m) <==> InHand(run, Replay(origin, j[..m]), planned, i) && Sends(j[..m]) == sends
    ensures Hand(run, origin, j, planned, i, sends)(m + 1)
       <==> InHand(run, Replay(origin, j[..m] + [j[m]]), planned, i) && Sends(j[..m] + [j[m]]) == sends
  {
    CutAfter(j, m);
  }

  lemma {:induction false} HandAlways(spec: RunLoop.Spec, world: nat -> RunLoop.Turn, origin: State, j: seq<Step>, planned: seq<Call>, i: nat, sends: nat, m: nat)
    requires Lived(spec, world, origin, j) && m < |j| && 0 < sends && i < |planned|
    requires Hand(spec.runId, origin, j, planned, i, sends)(m)
    ensures Hand(spec.runId, origin, j, planned, i, sends)(m + 1) || Done(spec, world(sends - 1), origin, j, planned[i], i)(m)
  {
    HandIs(spec.runId, origin, j, planned, i, sends, m);
    LivedMovesOn(spec, world, origin, j, planned, i, sends, m);
  }

  lemma {:induction false} PlanAtFirst(spec: RunLoop.Spec, world: nat -> RunLoop.Turn, origin: State, j: seq<Step>, p: nat, planned: seq<Call>, i: nat)
    requires Lived(spec, world, origin, j) && p < |j| && PlannedBy(j[p]) == Some(planned) && i < |planned|
    ensures Sends(j[..p]) > 0 && Hand(spec.runId, origin, j, planned, i, Sends(j[..p]))(p + 1)
  {
    LivedAt(spec, world, origin, j, p);
    PlanMoves(spec, world, origin, j[..p], j[p], planned, i);
    CutAfter(j, p);
  }

  /** Since its plan a call has been in hand, with no request sent in between; or it has been answered. */
  lemma {:induction false} HandOrAnswered(spec: RunLoop.Spec, world: nat -> RunLoop.Turn, origin: State, j: seq<Step>, p: nat, planned: seq<Call>, i: nat)
    returns (k: nat)
    requires Lived(spec, world, origin, j) && p < |j| && PlannedBy(j[p]) == Some(planned) && i < |planned|
    ensures Sends(j[..p]) > 0
    ensures Hand(spec.runId, origin, j, planned, i, Sends(j[..p]))(|j|)
         || (p < k < |j| && Done(spec, world(Sends(j[..p]) - 1), origin, j, planned[i], i)(k))
  {
    var sends := Sends(j[..p]);
    PlanAtFirst(spec, world, origin, j, p, planned, i);
    var hand, done := Hand(spec.runId, origin, j, planned, i, sends), Done(spec, world(sends - 1), origin, j, planned[i], i);
    forall m: nat | p + 1 <= m < |j| && hand(m) ensures hand(m + 1) || done(m) {
      HandAlways(spec, world, origin, j, planned, i, sends, m);
    }
    k := Until(hand, done, p + 1, |j|);
  }

  // --- How often it was begun ------------------------------------------------------------------------

  lemma {:induction false} AskedPrefix(run: string, j: seq<Step>, m: nat)
    requires m <= |j|
    ensures Asked(run, j[..m]) <= Asked(run, j)
    decreases |j|
  {
    if m == |j| {
      assert j[..m] == j;
    } else {
      assert j[..|j| - 1][..m] == j[..m];
      AskedPrefix(run, j[..|j| - 1], m);
    }
  }

  lemma {:induction false} DistinctPrefix(run: string, j: seq<Step>, m: nat)
    requires m <= |j| && Distinct(Asked(run, j))
    ensures Distinct(Asked(run, j[..m]))
  {
    AskedPrefix(run, j, m);
    var rest := Asked(run, j)[|Asked(run, j[..m])|..];
    assert Asked(run, j) == Asked(run, j[..m]) + rest;
    DistinctInit(Asked(run, j[..m]), rest);
  }

  lemma {:induction false} NotAgain(run: string, origin: State, init: seq<Step>, step: Step, id: string)
    requires Fresh(origin, run) && Lawful(run, origin, init) && Legal(run, origin, init, step)
    requires !Awaiting(Replay(origin, init), run, id) && id !in AskedBy(run, step)
    ensures !Awaiting(Replay(origin, init + [step]), run, id) && Starts(init + [step], id) == Starts(init, id)
  {
    CrashSafety.StartsOne(init, step, id);
    if step.Commit? {
      var tx := TxOf(run, origin, init, step);
      LawfulKeeps(run, origin, init);
      AskedOfTx(run, tx);
      NotAwaitedAgain(run, Replay(origin, init), tx, id);
    } else {
      QuietStep(origin, init, step);
      if step.Began? {
        BeginsAwaited(run, origin, init, step);
      }
    }
  }

  lemma {:induction false} Always(kept: nat -> bool, k: nat, n: nat)
    requires k <= n && kept(k) && forall m: nat :: k <= m < n && kept(m) ==> kept(m + 1)
    ensures kept(n)
    decreases n - k
  {
    if k < n {
      Always(kept, k + 1, n);
    }
  }

  ghost predicate Rests(run: string, origin: State, j: seq<Step>, id: string, starts: nat, m: nat) {
    m <= |j| && id in Asked(run, j[..m]) && !Awaiting(Replay(origin, j[..m]), run, id) && Starts(j[..m], id) == starts
  }

  lemma {:induction false} AskedNext(run: string, j: seq<Step>, step: Step)
    ensures Asked(run, j + [step]) == Asked(run, j) + AskedBy(run, step)
  {
    assert (j + [step])[..|j|] == j;
  }

  lemma {:induction false} NotAskedTwice(run: string, j: seq<Step>, m: nat, id: string)
    requires m < |j| && Distinct(Asked(run, j)) && id in Asked(run, j[..m])
    ensures id in Asked(run, j[..m + 1]) && id !in AskedBy(run, j[m])
  {
    CutAfter(j, m);
    DistinctPrefix(run, j, m + 1);
    AskedNext(run, j[..m], j[m]);
    DistinctInit(Asked(run, j[..m]), AskedBy(run, j[m]));
  }

  ghost function Resting(run: string, origin: State, j: seq<Step>, id: string, starts: nat): nat -> bool {
    (m: nat) => Rests(run, origin, j, id, starts, m)
  }

  lemma {:induction false} RestsOn(run: string, origin: State, j: seq<Step>, id: string, starts: nat, m: nat)
    requires Fresh(origin, run) && Lawful(run, origin, j) && Distinct(Asked(run, j)) && m < |j| && Resting(run, origin, j, id, starts)(m)
    ensures Resting(run, origin, j, id, starts)(m + 1)
  {
    LawfulPrefix(run, origin, j, m);
    NotAskedTwice(run, j, m, id);
    NotAgain(run, origin, j[..m], j[m], id);
    CutAfter(j, m);
  }

  lemma {:induction false} RestsEver(run: string, origin: State, j: seq<Step>, id: string, starts: nat, k: nat)
    requires Fresh(origin, run) && Lawful(run, origin, j) && Distinct(Asked(run, j)) && k <= |j| && Resting(run, origin, j, id, starts)(k)
    ensures Resting(run, origin, j, id, starts)(|j|)
  {
    var kept := Resting(run, origin, j, id, starts);
    forall m: nat | k <= m < |j| && kept(m) ensures kept(m + 1) {
      RestsOn(run, origin, j, id, starts, m);
    }
    Always(kept, k, |j|);
  }

  /** A call that was asked for and is waited for no longer is never begun again. */
  lemma {:induction false} NeverAgain(run: string, origin: State, j: seq<Step>, k: nat, id: string)
    requires Fresh(origin, run) && Lawful(run, origin, j) && Distinct(Asked(run, j)) && k <= |j|
    requires id in Asked(run, j[..k]) && !Awaiting(Replay(origin, j[..k]), run, id)
    ensures Starts(j, id) == Starts(j[..k], id)
  {
    RestsEver(run, origin, j, id, Starts(j[..k], id), k);
    assert j[..|j|] == j;
  }

  /** Only a call that is waited for is begun. */
  lemma {:induction false} BeginsAwaited(run: string, origin: State, j: seq<Step>, step: Step)
    requires step.Began? && Legal(run, origin, j, step)
    ensures Awaiting(Replay(origin, j), run, step.toolUseId)
  {
  }

  lemma {:induction false} NotAwaitedAgain(run: string, s: State, tx: RunLoop.Tx, id: string)
    requires Tidy(run, PositionOf(s, run), tx) && !Awaiting(s, run, id) && id !in Plans(tx)
    requires PositionOf(s, run).Some? && PositionOf(s, run).value.Tools? ==> Indexed(PositionOf(s, run).value.calls)
    ensures !Awaiting(Landed(s, run, tx), run, id)
  {
    var pos := PositionOf(s, run);
    if tx.position.Some? && tx.position.value.Tools? {
      var calls' := tx.position.value.calls;
      if pos.Some? && pos.value.Tools? {
        var calls := pos.value.calls;
        var x: nat :| x < |calls| && AdvancesAt(run, calls, calls', tx.entries, x);
      } else {
        assert forall y :: 0 <= y < |calls'| ==> Ids(calls')[y] == calls'[y].toolUseId;
      }
    }
  }

  ghost predicate HasStatus(run: string, s: State, i: nat, status: CallStatus) {
    match PositionOf(s, run)
    case Some(Tools(_, calls)) => i < |calls| && calls[i].status == status
    case _ => false
  }

  /** The step before `k` begins the call with this input, and the step before that is the transaction that marks it. */
  ghost predicate BegunBefore(run: string, origin: State, j: seq<Step>, k: nat, i: nat, id: string, input: Value) {
    && 2 <= k <= |j| && j[k - 1] == Began(id, input) && j[k - 2].Commit?
    && HasStatus(run, Replay(origin, j[..k - 2]), i, Planned) && HasStatus(run, Replay(origin, j[..k - 1]), i, EffectPending)
  }

  /** So often has the call been begun when its answer is due. */
  lemma {:induction false} CountWhenDue(spec: RunLoop.Spec, turn: RunLoop.Turn, origin: State, j: seq<Step>, stepId: StepId, calls: seq<Call>, i: nat)
    requires Due(spec, turn, origin, j, stepId, calls, i) && CrashSafety.Counted(spec.runId, origin, j)
    ensures calls[i].toolUseId in Asked(spec.runId, j) && Distinct(Ids(calls)) && Indexed(calls)
    ensures !ToRun(spec, turn, i, calls[i].name) ==> Starts(j, calls[i].toolUseId) == 0
    ensures ToRun(spec, turn, i, calls[i].name) ==>
      j != [] && j[|j| - 1] == Began(calls[i].toolUseId, Leaves(turn, i, calls[i].toolUseId)) && Starts(j, calls[i].toolUseId) == 1
  {
    var id := calls[i].toolUseId;
    assert CrashSafety.CountedCall(spec.runId, origin, j, calls[i], i);
    if ToRun(spec, turn, i, calls[i].name) {
      JustBegun(j, id);
      assert Starts(j, id) <= 1;
    }
  }

  lemma {:induction false} JustBegun(j: seq<Step>, id: string)
    requires j != [] && j[|j| - 1].Began? && j[|j| - 1].toolUseId == id
    ensures Starts(j, id) >= 1
  {
    assert j == j[..|j| - 1] + [j[|j| - 1]];
    CrashSafety.StartsOne(j[..|j| - 1], j[|j| - 1], id);
  }

  lemma {:induction false} BeginsCleared(run: string, origin: State, j: seq<Step>, step: Step, stepId: StepId, calls: seq<Call>, i: nat)
    requires step.Began? && Legal(run, origin, j, step) && i < |calls| && step.toolUseId == calls[i].toolUseId
    requires PositionOf(Replay(origin, j), run) == Some(Tools(stepId, calls)) && Distinct(Ids(calls))
    ensures calls[i].status == EffectPending && JustCleared(run, origin, j, i)
  {
    var x: nat :| x < |calls| && calls[x].toolUseId == step.toolUseId && calls[x].status == EffectPending && JustCleared(run, origin, j, x);
    assert Ids(calls)[x] == Ids(calls)[i];
  }

  lemma {:induction false} BegunIsMarked(run: string, origin: State, init: seq<Step>, step: Step, stepId: StepId, calls: seq<Call>, i: nat)
    requires Legal(run, origin, init, step) && step.Began? && i < |calls| && step.toolUseId == calls[i].toolUseId
    requires PositionOf(Replay(origin, init + [step]), run) == Some(Tools(stepId, calls)) && Distinct(Ids(calls))
    ensures BegunBefore(run, origin, init + [step], |init| + 1, i, step.toolUseId, step.input)
  {
    QuietStep(origin, init, step);
    BeginsCleared(run, origin, init, step, stepId, calls, i);
    ClearedBefore(run, origin, init, step, i);
  }

  lemma {:induction false} ClearedBefore(run: string, origin: State, init: seq<Step>, step: Step, i: nat)
    requires step.Began? && JustCleared(run, origin, init, i) && HasStatus(run, Replay(origin, init), i, EffectPending)
    ensures BegunBefore(run, origin, init + [step], |init| + 1, i, step.toolUseId, step.input)
  {
    var j := init + [step];
    assert j[..|j| - 1] == init && j[..|j| - 2] == init[..|init| - 1];
  }

  lemma {:induction false} BegunBeforeIn(run: string, origin: State, j: seq<Step>, k: nat, i: nat, id: string, input: Value)
    requires k <= |j| && BegunBefore(run, origin, j[..k], k, i, id, input)
    ensures BegunBefore(run, origin, j, k, i, id, input)
  {
    assert j[..k][..k - 2] == j[..k - 2] && j[..k][..k - 1] == j[..k - 1];
  }

  lemma {:induction false} AnsweredIsDone(run: string, s: State, tx: RunLoop.Tx, stepId: StepId, calls: seq<Call>, i: nat)
    requires i < |calls| && Distinct(Ids(calls))
    requires tx.position == Some(Tools(stepId, calls[i := calls[i].(status := Completed)]))
    ensures !Awaiting(Landed(s, run, tx), run, calls[i].toolUseId)
  {
    assert forall x :: 0 <= x < |calls| ==> Ids(calls)[x] == calls[x].toolUseId;
  }

  /** The transaction that answers a call leaves it waited for no longer. */
  lemma {:induction false} AnswerLeavesNone(run: string, origin: State, j: seq<Step>, step: Step, stepId: StepId, calls: seq<Call>, i: nat)
    requires Lawful(run, origin, j + [step]) && i < |calls| && Distinct(Ids(calls))
    requires step.Commit? && step.writes != []
    requires step.writes[|step.writes| - 1] == SetPosition(run, Tools(stepId, calls[i := calls[i].(status := Completed)]))
    ensures !Awaiting(Replay(origin, j + [step]), run, calls[i].toolUseId)
  {
    var init, last, s, tx := LastStep(run, origin, j + [step]);
    Pacing.PositionOfTx(run, tx, step.writes[|step.writes| - 1]);
    AnsweredIsDone(run, s, tx, stepId, calls, i);
  }

  lemma {:induction false} AnswerIsLast(run: string, origin: State, before: seq<Step>, step: Step, stepId: StepId, calls: seq<Call>, i: nat)
    requires Lawful(run, origin, before + [step]) && i < |calls| && Distinct(Ids(calls)) && calls[i].toolUseId in Asked(run, before)
    requires step.Commit? && step.writes != []
    requires step.writes[|step.writes| - 1] == SetPosition(run, Tools(stepId, calls[i := calls[i].(status := Completed)]))
    ensures var j, id := before + [step], calls[i].toolUseId;
      id in Asked(run, j) && !Awaiting(Replay(origin, j), run, id) && Starts(j, id) == Starts(before, id)
  {
    AnswerLeavesNone(run, origin, before, step, stepId, calls, i);
    CrashSafety.StartsOne(before, step, calls[i].toolUseId);
    AskedNext(run, before, step);
  }

  /** What an answer says of the journal up to it. */
  lemma {:induction false} CountsThere(spec: RunLoop.Spec, turn: RunLoop.Turn, origin: State, before: seq<Step>, step: Step, planned: Call, i: nat)
    requires Fresh(origin, spec.runId) && Lawful(spec.runId, origin, before + [step]) && Lawful(spec.runId, origin, before)
    requires Distinct(Asked(spec.runId, before)) && AnswersCall(spec, turn, origin, before, step, planned, i)
    ensures var j, id := before + [step], planned.toolUseId;
      && id in Asked(spec.runId, j) && !Awaiting(Replay(origin, j), spec.runId, id)
      && Starts(j, id) == (if ToRun(spec, turn, i, planned.name) then 1 else 0)
    ensures ToRun(spec, turn, i, planned.name) ==>
      BegunBefore(spec.runId, origin, before, |before|, i, planned.toolUseId, Leaves(turn, i, planned.toolUseId))
  {
    var stepId: StepId, calls: seq<Call> :| AnswersThere(spec, turn, origin, before, step, stepId, calls, planned, i);
    CrashSafety.LawfulStartsOnce(spec.runId, origin, before);
    CountWhenDue(spec, turn, origin, before, stepId, calls, i);
    AnswerIsLast(spec.runId, origin, before, step, stepId, calls, i);
    if ToRun(spec, turn, i, planned.name) {
      MarkedAtEnd(spec.runId, origin, before, stepId, calls, i);
    }
  }

  lemma {:induction false} MarkedAtEnd(run: string, origin: State, j: seq<Step>, stepId: StepId, calls: seq<Call>, i: nat)
    requires Lawful(run, origin, j) && j != [] && j[|j| - 1].Began? && i < |calls| && j[|j| - 1].toolUseId == calls[i].toolUseId
    requires PositionOf(Replay(origin, j), run) == Some(Tools(stepId, calls)) && Distinct(Ids(calls))
    ensures BegunBefore(run, origin, j, |j|, i, calls[i].toolUseId, j[|j| - 1].input)
  {
    var init, step := j[..|j| - 1], j[|j| - 1];
    assert j == init + [step];
    assert Legal(run, origin, init, step);
    BegunIsMarked(run, origin, init, step, stepId, calls, i);
  }

  lemma {:induction false} CutThere(run: string, origin: State, j: seq<Step>, k: nat)
    requires Lawful(run, origin, j) && k < |j|
    ensures Lawful(run, origin, j[..k]) && Lawful(run, origin, j[..k] + [j[k]])
  {
    CutAfter(j, k);
    LawfulPrefix(run, origin, j, k);
    LawfulPrefix(run, origin, j, k + 1);
  }

  /** While ids do not repeat, a call that is answered has been begun once if it was let through and there is such a tool,
      right after it was marked and right before it is answered, and otherwise not at all; and so it stays. */
  lemma {:induction false} AnsweredCounts(spec: RunLoop.Spec, turn: RunLoop.Turn, origin: State, j: seq<Step>, k: nat, planned: Call, i: nat)
    requires Fresh(origin, spec.runId) && Lawful(spec.runId, origin, j) && Distinct(Asked(spec.runId, j))
    requires AnswersAt(spec, turn, origin, j, k, planned, i)
    ensures Starts(j, planned.toolUseId) == if ToRun(spec, turn, i, planned.name) then 1 else 0
    ensures ToRun(spec, turn, i, planned.name) ==>
      BegunBefore(spec.runId, origin, j, k, i, planned.toolUseId, Leaves(turn, i, planned.toolUseId))
  {
    CutAfter(j, k);
    CutThere(spec.runId, origin, j, k);
    DistinctPrefix(spec.runId, j, k);
    CountsThere(spec, turn, origin, j[..k], j[k], planned, i);
    NeverAgain(spec.runId, origin, j, k + 1, planned.toolUseId);
    if ToRun(spec, turn, i, planned.name) {
      BegunBeforeIn(spec.runId, origin, j, k, i, planned.toolUseId, Leaves(turn, i, planned.toolUseId));
    }
  }
}
