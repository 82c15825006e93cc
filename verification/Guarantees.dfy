/** What the loop and recovery guarantee together, of every run, wherever it is cut. */
module Guarantees {
  import opened Json
  import opened Contract
  import opened Record
  import opened Checkpoint
  import opened Journal
  import opened Recovery
  import opened RecoveryLaws
  import opened Protocol
  import opened CrashSafety
  import opened Restarts
  import opened RunLaws
  import opened TurnLaws
  import opened Runs
  import opened Pacing
  import Conduct
  import Deeds
  import Effects
  import RequestLaws
  import ResultLaws
  import ConverseRequest
  import Surface
  import Settlements
  import PassScript
  import RunLoop
  import RequestBuilder

  function WholeRun(spec: RunLoop.Spec, world: nat -> RunLoop.Turn, origin: State, inbox: seq<string>): RunLoop.Loop {
    RunLoop.Run(spec, world, RunLoop.Idle(origin, inbox))
  }

  /** What is left when the process dies after `cut` steps of the run. */
  function Crashed(spec: RunLoop.Spec, world: nat -> RunLoop.Turn, origin: State, inbox: seq<string>, cut: nat): State
    requires cut <= |WholeRun(spec, world, origin, inbox).journal|
  {
    Replay(origin, WholeRun(spec, world, origin, inbox).journal[..cut])
  }

  /** Every prefix of every run obeys the protocol. */
  lemma {:induction false} RunIsLawful(spec: RunLoop.Spec, world: nat -> RunLoop.Turn, origin: State, inbox: seq<string>, cut: nat)
    requires Fresh(origin, spec.runId) && cut <= |WholeRun(spec, world, origin, inbox).journal|
    ensures Lawful(spec.runId, origin, WholeRun(spec, world, origin, inbox).journal[..cut])
  {
    RunStands(spec, origin, world, inbox);
    LawfulPrefix(spec.runId, origin, WholeRun(spec, world, origin, inbox).journal, cut);
  }

  lemma {:induction false} OnceIfAnswered(entries: seq<Entry>, run: string, id: string)
    requires OneEach(entries) && AllProper(entries, run) && Answered(entries, run, id)
    ensures AnsweredOnce(entries, run, id)
  {
  }

  /** Wherever a run is cut, and however often its recovery is: once a pass completes, every call the
      run ever planned has exactly one answer on the surface, under its own key; and from a tools phase
      the run is back at its checkpoint. */
  lemma {:induction false} EveryCallAnsweredOnce(spec: RunLoop.Spec, world: nat -> RunLoop.Turn, origin: State, inbox: seq<string>,
                                                 cut: nat, deps: Deps, cuts: seq<nat>)
    requires Fresh(origin, spec.runId) && cut <= |WholeRun(spec, world, origin, inbox).journal|
    ensures var left := Crashed(spec, world, origin, inbox, cut);
      var after := Recovered(AfterPasses(left, spec.runId, deps, cuts), spec.runId, deps);
      && (forall id :: id in Asked(spec.runId, WholeRun(spec, world, origin, inbox).journal[..cut]) ==>
            AnsweredOnce(after.entries, spec.runId, id))
      && (PositionOf(left, spec.runId).Some? && PositionOf(left, spec.runId).value.Tools? ==>
            PositionOf(after, spec.runId) == Some(Record.Checkpoint))
  {
    RunIsLawful(spec, world, origin, inbox, cut);
    LawfulAnsweredOnce(spec.runId, origin, WholeRun(spec, world, origin, inbox).journal[..cut], deps, cuts);
  }

  lemma {:induction false} LawfulAnsweredOnce(run: string, origin: State, j: seq<Step>, deps: Deps, cuts: seq<nat>)
    requires Fresh(origin, run) && Lawful(run, origin, j)
    ensures var left := Replay(origin, j);
      var after := Recovered(AfterPasses(left, run, deps, cuts), run, deps);
      && (forall id :: id in Asked(run, j) ==> AnsweredOnce(after.entries, run, id))
      && (PositionOf(left, run).Some? && PositionOf(left, run).value.Tools? ==>
            PositionOf(after, run) == Some(Record.Checkpoint))
  {
    LawfulKeeps(run, origin, j);
    var left := Replay(origin, j);
    RecoveryConfluent(left, run, deps, cuts);
    RecoveryAnswers(left, run, deps, Asked(run, j));
    forall id | id in Asked(run, j) ensures AnsweredOnce(Recovered(left, run, deps).entries, run, id) {
      OnceIfAnswered(Recovered(left, run, deps).entries, run, id);
    }
  }

  /** However often recovery was cut, all that was done together leaves what one whole pass leaves. */
  lemma {:induction false} LawfulRecovers(run: string, origin: State, j: seq<Step>, deps: Deps, cuts: seq<nat>)
    requires Fresh(origin, run) && Lawful(run, origin, j)
    ensures Replay(origin, j + Passes(Replay(origin, j), run, deps, cuts)) == Recovered(Replay(origin, j), run, deps)
  {
    LawfulKeeps(run, origin, j);
    ReplayConcat(origin, j, Passes(Replay(origin, j), run, deps, cuts));
    PassesReach(Replay(origin, j), run, deps, cuts);
    RecoveryConfluent(Replay(origin, j), run, deps, cuts);
  }

  /** As shipped, no call's effect is begun twice over a run, its crash and its recoveries, which leave what one whole
      recovery leaves. */
  lemma {:induction false} RunBeginsOnce(spec: RunLoop.Spec, world: nat -> RunLoop.Turn, origin: State, inbox: seq<string>,
                                         cut: nat, cuts: seq<nat>, id: string)
    requires Fresh(origin, spec.runId) && cut <= |WholeRun(spec, world, origin, inbox).journal|
    requires Distinct(Asked(spec.runId, WholeRun(spec, world, origin, inbox).journal[..cut]))
    ensures var j := WholeRun(spec, world, origin, inbox).journal[..cut];
      && Starts(j + Passes(Replay(origin, j), spec.runId, SHIPPED, cuts), id) <= 1
      && Replay(origin, j + Passes(Replay(origin, j), spec.runId, SHIPPED, cuts))
         == Recovered(Replay(origin, j), spec.runId, SHIPPED)
  {
    RunIsLawful(spec, world, origin, inbox, cut);
    LawfulRecovers(spec.runId, origin, WholeRun(spec, world, origin, inbox).journal[..cut], SHIPPED, cuts);
    ShippedAtMostOnce(spec.runId, origin, WholeRun(spec, world, origin, inbox).journal[..cut], cuts, id);
  }

  /** Given a way to run calls, a call that must not be repeated is begun at most once just when no
      recovery was cut between beginning it and recording its outcome. The record is one whole recovery's either way. */
  lemma {:induction false} RunBeginsNeverOnce(spec: RunLoop.Spec, world: nat -> RunLoop.Turn, origin: State, inbox: seq<string>,
                                              cut: nat, deps: Deps, cuts: seq<nat>, id: string)
    requires Fresh(origin, spec.runId) && cut <= |WholeRun(spec, world, origin, inbox).journal|
    requires Distinct(Asked(spec.runId, WholeRun(spec, world, origin, inbox).journal[..cut]))
    requires deps.reexecute.Some? && NeverRepeats(Crashed(spec, world, origin, inbox, cut), spec.runId, id)
    ensures var j := WholeRun(spec, world, origin, inbox).journal[..cut];
      && (Starts(j + Passes(Replay(origin, j), spec.runId, deps, cuts), id) <= 1
          <==> Torn(Replay(origin, j), spec.runId, deps, cuts, id) == 0)
      && Replay(origin, j + Passes(Replay(origin, j), spec.runId, deps, cuts))
         == Recovered(Replay(origin, j), spec.runId, deps)
  {
    RunIsLawful(spec, world, origin, inbox, cut);
    LawfulRecovers(spec.runId, origin, WholeRun(spec, world, origin, inbox).journal[..cut], deps, cuts);
    NeverAtMostOnceExactly(spec.runId, origin, WholeRun(spec, world, origin, inbox).journal[..cut], deps, cuts, id);
  }

  /** Recovery calls a run's outcome uncertain exactly when the crash fell between a request's intent
      and the next transaction; and then no block of that turn is on the surface, before it or after, and all that
      is filed is that the outcome is not known, under the request's own key. */
  lemma {:induction false} RunUncertainExactly(spec: RunLoop.Spec, world: nat -> RunLoop.Turn, origin: State, inbox: seq<string>,
                                               cut: nat, deps: Deps)
    requires Fresh(origin, spec.runId) && cut <= |WholeRun(spec, world, origin, inbox).journal|
    ensures var j := WholeRun(spec, world, origin, inbox).journal[..cut];
      var left := Crashed(spec, world, origin, inbox, cut);
      var at := LastCommit(j);
      && (InFlight(left, spec.runId) <==> at.Some? && IsIntent(spec.runId, j[at.value]))
      && (InFlight(left, spec.runId) ==>
            && PositionOf(Recovered(left, spec.runId, deps), spec.runId) == Some(Terminal(Interrupted))
            && OnSurface(Recovered(left, spec.runId, deps).entries)
               == OnSurface(left.entries) == OnSurface(Replay(origin, j[..at.value]).entries)
            && Recovered(left, spec.runId, deps).entries
               == left.entries + [Settlements.Unknown(spec.runId, PositionOf(left, spec.runId).value.key)])
  {
    RunIsLawful(spec, world, origin, inbox, cut);
    UncertainExactly(spec.runId, origin, WholeRun(spec, world, origin, inbox).journal[..cut]);
    if InFlight(Crashed(spec, world, origin, inbox, cut), spec.runId) {
      UncertainIsSettled(Crashed(spec, world, origin, inbox, cut), spec.runId, deps);
      Settlements.UncertainFiles(spec.runId, origin, WholeRun(spec, world, origin, inbox).journal[..cut], deps);
    }
  }

  /** A crash left the call at `i` of the step in hand without an answer. */
  predicate LeftOwing(left: State, run: string, i: nat) {
    match PositionOf(left, run)
    case Some(Tools(_, calls)) => i < |calls| && calls[i].status != Completed
    case _ => false
  }

  /** Its id has no answer, and no other call of the step waits for one under it. */
  predicate OwedAlone(left: State, run: string, i: nat)
    requires LeftOwing(left, run, i)
  {
    var calls := PositionOf(left, run).value.calls;
    Settlements.Alone(calls, i) && !Answered(left.entries, run, calls[i].toolUseId)
  }

  /** Wherever a run is cut and however often its recovery is: what a completed pass leaves as the one answer of a call
      the crash left owing is a failure that says the call was interrupted, if the call may have run and must not run
      again or if there is no way to run it; and otherwise what running it with the recorded arguments gave, failed
      exactly when that did. So for every such call while ids do not repeat; and for one whose id is its own, whatever
      the others are. */
  lemma {:induction false} RunSettlesOwed(spec: RunLoop.Spec, world: nat -> RunLoop.Turn, origin: State, inbox: seq<string>,
                                          cut: nat, deps: Deps, cuts: seq<nat>, i: nat)
    requires Fresh(origin, spec.runId) && cut <= |WholeRun(spec, world, origin, inbox).journal|
    requires LeftOwing(Crashed(spec, world, origin, inbox, cut), spec.runId, i)
    requires Distinct(Asked(spec.runId, WholeRun(spec, world, origin, inbox).journal[..cut]))
          || OwedAlone(Crashed(spec, world, origin, inbox, cut), spec.runId, i)
    ensures var left := Crashed(spec, world, origin, inbox, cut);
      var Tools(step, calls) := PositionOf(left, spec.runId).value;
      Settlements.OnlyAnswer(Recovered(AfterPasses(left, spec.runId, deps, cuts), spec.runId, deps).entries, spec.runId,
                             calls[i].toolUseId, Settlements.Settlement(left, spec.runId, step, calls[i], deps))
  {
    RunIsLawful(spec, world, origin, inbox, cut);
    LawfulSettlesOwed(spec.runId, origin, WholeRun(spec, world, origin, inbox).journal[..cut], deps, cuts, i);
  }

  lemma {:induction false} LawfulSettlesOwed(run: string, origin: State, j: seq<Step>, deps: Deps, cuts: seq<nat>, i: nat)
    requires Fresh(origin, run) && Lawful(run, origin, j) && LeftOwing(Replay(origin, j), run, i)
    requires Distinct(Asked(run, j)) || OwedAlone(Replay(origin, j), run, i)
    ensures var left := Replay(origin, j);
      var Tools(step, calls) := PositionOf(left, run).value;
      Settlements.OnlyAnswer(Recovered(AfterPasses(left, run, deps, cuts), run, deps).entries, run,
                             calls[i].toolUseId, Settlements.Settlement(left, run, step, calls[i], deps))
  {
    var left := Replay(origin, j);
    var Tools(step, calls) := PositionOf(left, run).value;
    LawfulKeeps(run, origin, j);
    RecoveryConfluent(left, run, deps, cuts);
    if Distinct(Asked(run, j)) {
      Settlements.LawfulOwesOnly(run, origin, j);
      Settlements.DistinctIsAlone(left, run, Asked(run, j), step, calls, i);
    }
    Settlements.PassSettles(left, run, step, calls, deps, i);
  }

  // --- Endings ----------------------------------------------------------------------------------

  ghost predicate EndsAt(run: string, origin: State, j: seq<Step>, k: nat) {
    k < |j| && j[k].Commit? && TerminalAt(run, origin, j, k + 1)
  }

  ghost predicate TerminalAt(run: string, origin: State, j: seq<Step>, k: nat)
    requires k <= |j|
  {
    var pos := PositionOf(Replay(origin, j[..k]), run);
    pos.Some? && pos.value.Terminal?
  }

  lemma {:induction false} ReplayStep(origin: State, j: seq<Step>, k: nat)
    requires k < |j|
    ensures Replay(origin, j[..k + 1]) == After(Replay(origin, j[..k]), j[k])
  {
    assert j[..k + 1] == j[..k] + [j[k]];
    ReplayConcat(origin, j[..k], [j[k]]);
    ReplayOne(Replay(origin, j[..k]), j[k]);
  }

  /** Nothing is written after a terminal position. */
  lemma {:induction false} StaysTerminal(run: string, origin: State, j: seq<Step>, k: nat, m: nat)
    requires Lawful(run, origin, j) && k <= m <= |j| && TerminalAt(run, origin, j, k)
    ensures TerminalAt(run, origin, j, m) && forall x :: k <= x < m ==> !j[x].Commit?
    decreases m
  {
    if k < m {
      StaysTerminal(run, origin, j, k, m - 1);
      StaysOne(run, origin, j, m - 1);
    }
  }

  lemma {:induction false} StaysOne(run: string, origin: State, j: seq<Step>, k: nat)
    requires Lawful(run, origin, j) && k < |j| && TerminalAt(run, origin, j, k)
    ensures TerminalAt(run, origin, j, k + 1) && !j[k].Commit?
  {
    assert Legal(run, origin, j[..k], j[k]);
    NothingAfterEnd(run, origin, j[..k], j[k]);
    ReplayStep(origin, j, k);
  }

  lemma {:induction false} NothingAfterEnd(run: string, origin: State, j: seq<Step>, step: Step)
    requires Legal(run, origin, j, step)
    requires PositionOf(Replay(origin, j), run).Some? && PositionOf(Replay(origin, j), run).value.Terminal?
    ensures !step.Commit?
  {
  }

  /** A lawful journal that leaves the run terminal ended it in exactly one transaction, its last. */
  lemma {:induction false} EndsOnce(run: string, origin: State, j: seq<Step>)
    requires Fresh(origin, run) && Lawful(run, origin, j) && TerminalAt(run, origin, j, |j|)
    ensures LastCommit(j).Some? && EndsAt(run, origin, j, LastCommit(j).value)
    ensures forall k: nat :: EndsAt(run, origin, j, k) ==> k == LastCommit(j).value
  {
    LastCommitDecides(run, origin, j, |j|);
    forall k: nat | EndsAt(run, origin, j, k) ensures k == LastCommit(j).value {
      StaysTerminal(run, origin, j, k + 1, |j|);
    }
  }

  lemma {:induction false} LastCommitDecides(run: string, origin: State, j: seq<Step>, k: nat)
    requires Fresh(origin, run) && k <= |j| && TerminalAt(run, origin, j, k)
    requires forall x :: k <= x < |j| ==> !j[x].Commit?
    ensures LastCommit(j).Some? && EndsAt(run, origin, j, LastCommit(j).value)
    decreases k
  {
    if k > 0 && !j[k - 1].Commit? {
      ReplayStep(origin, j, k - 1);
      LastCommitDecides(run, origin, j, k - 1);
    }
  }

  /** Every run, on every path out of it, commits exactly one terminal position, and commits nothing
      after it; and what that transaction says was spent is the sum of the run's usage rows. */
  lemma {:induction false} RunEndsOnce(spec: RunLoop.Spec, world: nat -> RunLoop.Turn, origin: State, inbox: seq<string>)
    requires Fresh(origin, spec.runId)
    ensures var m := WholeRun(spec, world, origin, inbox);
      && m.ended.Some? && PositionOf(m.rec, spec.runId) == Some(Terminal(m.ended.value.outcome))
      && LastCommit(m.journal).Some? && EndsAt(spec.runId, origin, m.journal, LastCommit(m.journal).value)
      && (forall k: nat :: EndsAt(spec.runId, origin, m.journal, k) ==> k == LastCommit(m.journal).value)
      && |m.rec.entries| > 0 && origin.usage <= m.rec.usage
      && m.rec.entries[|m.rec.entries| - 1].payload == Spend(Total(m.rec.usage[|origin.usage|..]))
  {
    RunStands(spec, origin, world, inbox);
    var m := WholeRun(spec, world, origin, inbox);
    assert m.journal[..|m.journal|] == m.journal;
    EndsOnce(spec.runId, origin, m.journal);
  }

  /** Every row of the run's ledger marks a prefix of the log, as it stood when one of the run's requests was
      sent, that rebuilds that request exactly when what precedes the run's baseline is silent. From the start of the
      session it always is; and where the request comes back, the fingerprint recorded with it agrees. */
  lemma {:induction false} RunRebuilds(spec: RunLoop.Spec, world: nat -> RunLoop.Turn, origin: State, inbox: seq<string>, i: nat)
    returns (k: nat)
    requires Fresh(origin, spec.runId)
    requires |origin.usage| <= i < |WholeRun(spec, world, origin, inbox).rec.usage|
    ensures var m := WholeRun(spec, world, origin, inbox);
      var row := m.rec.usage[i];
      && row.boundary <= |m.rec.entries| && k < |m.journal| && m.journal[k].Sent?
      && Replay(origin, m.journal[..k]).entries == m.rec.entries[..row.boundary]
      && RebuildsExactly(spec, m.rec.entries[..row.boundary], m.journal[k].request)
  {
    RunStands(spec, origin, world, inbox);
    var m := WholeRun(spec, world, origin, inbox);
    assert Tells(spec, origin, m)(m.rec.usage[i]);
    k :| SentAt(spec, origin, m, m.rec.usage[i], k);
    AlikeIsSilent(spec, m.rec.entries[..m.rec.usage[i].boundary], m.journal[k].request);
  }

  ghost predicate RebuildsExactly(spec: RunLoop.Spec, prefix: seq<Entry>, request: Request) {
    && Rebuild(spec, prefix).Ok?
    && (Rebuild(spec, prefix).request == request <==> SilentBaseline(spec, prefix))
    && (SilentBaseline(spec, prefix) ==> Rebuild(spec, prefix).messages != RequestBuilder.Mismatch)
    && (spec.surfaceFrom <= 1 ==> SilentBaseline(spec, prefix))
  }

  lemma {:induction false} AlikeIsSilent(spec: RunLoop.Spec, prefix: seq<Entry>, request: Request)
    requires RebuildsIfAlike(spec, prefix, request)
    ensures RebuildsExactly(spec, prefix, request)
  {
    SilentExactly(spec, prefix);
  }

  // --- Numbers -------------------------------------------------------------------------------------

  /** Behind all that was there, which stays, comes the run's prompt as its number one; and each of its numbers is over
      those in front of it. */
  predicate NumberedFromOne(before: seq<Entry>, entries: seq<Entry>, run: string) {
    && |before| < |entries| && entries[..|before|] == before
    && entries[|before|].runId == run && entries[|before|].seqNo == Some(1) && entries[|before|].etype == UserPrompt
    && forall i, j :: 0 <= i < j < |entries| && entries[i].runId == run == entries[j].runId && entries[i].seqNo.Some? && entries[j].seqNo.Some? ==>
         entries[i].seqNo.value < entries[j].seqNo.value
  }

  /** So is every run on its record, whatever other runs have there. */
  lemma {:induction false} RunIsNumbered(spec: RunLoop.Spec, world: nat -> RunLoop.Turn, origin: State, inbox: seq<string>)
    requires Fresh(origin, spec.runId)
    ensures NumberedFromOne(origin.entries, WholeRun(spec, world, origin, inbox).rec.entries, spec.runId)
  {
    RunAscends(spec, world, origin, inbox);
    RunAddsTo(spec, world, origin, inbox);
    NothingNumbered(origin, spec.runId);
    OpensWith(spec, origin.entries, WholeRun(spec, world, origin, inbox).rec.entries);
  }

  lemma {:induction false} NothingNumbered(s: State, run: string)
    requires Fresh(s, run)
    ensures HighestSeq(s.entries, run) == 0
  {
    HighestSeqIs(s.entries, run);
  }

  lemma {:induction false} RunAscends(spec: RunLoop.Spec, world: nat -> RunLoop.Turn, origin: State, inbox: seq<string>)
    requires Fresh(origin, spec.runId)
    ensures Ascending(WholeRun(spec, world, origin, inbox).rec.entries, spec.runId)
  {
    RunStands(spec, origin, world, inbox);
  }

  lemma {:induction false} OpensWith(spec: RunLoop.Spec, before: seq<Entry>, entries: seq<Entry>)
    requires before + OpeningEntries(spec, 0) <= entries && Ascending(entries, spec.runId)
    ensures NumberedFromOne(before, entries, spec.runId)
  {
    assert before == entries[..|before|];
    assert entries[|before|] == (before + OpeningEntries(spec, 0))[|before|];
  }

  lemma {:induction false} RunAddsTo(spec: RunLoop.Spec, world: nat -> RunLoop.Turn, origin: State, inbox: seq<string>)
    requires Fresh(origin, spec.runId)
    ensures origin.entries + OpeningEntries(spec, HighestSeq(origin.entries, spec.runId)) <= WholeRun(spec, world, origin, inbox).rec.entries
  {
    var l, m := RunLoop.Opening(spec, RunLoop.Idle(origin, inbox)), WholeRun(spec, world, origin, inbox);
    RunStands(spec, origin, world, inbox);
    OpeningKeeps(spec, origin, inbox);
    TurnsInRun(spec, world, RunLoop.Idle(origin, inbox), 0);
    LogsGrow(origin, l.journal, m.journal);
  }

  lemma {:induction false} LogsGrow(origin: State, a: seq<Step>, b: seq<Step>)
    requires a <= b
    ensures Replay(origin, a).entries <= Replay(origin, b).entries
  {
    assert b == a + b[|a|..];
    ReplayConcat(origin, a, b[|a|..]);
    ReplayGrows(Replay(origin, a), b[|a|..]);
  }

  // --- What recovery would run ---------------------------------------------------------------------

  /** Wherever a run begins an effect, the record holds for the call what the model asked, in the turn whose request was
      the last one sent, and the effect is begun with what the gate left of it. A recovery from there runs what was
      asked: the same exactly when the gate left it alone. */
  lemma {:induction false} ReplayRunsWhatWasAsked(spec: RunLoop.Spec, world: nat -> RunLoop.Turn, origin: State, inbox: seq<string>, k: nat)
    returns (stepId: StepId, calls: seq<Call>, at: nat)
    requires Fresh(origin, spec.runId) && k < |WholeRun(spec, world, origin, inbox).journal|
    requires WholeRun(spec, world, origin, inbox).journal[k].Began?
    ensures var j := WholeRun(spec, world, origin, inbox).journal;
      && Sends(j[..k]) > 0 && RanAsAsked(spec, world(Sends(j[..k]) - 1), Replay(origin, j[..k]), j[k], stepId, calls, at)
  {
    var j := WholeRun(spec, world, origin, inbox).journal;
    Conduct.RunIsAsItMayBe(spec, world, origin, inbox);
    assert Conduct.AsMayBe(spec, world, origin)(j[..k], j[k]);
    stepId, calls, at :| Deeds.BegunAt(spec, world(Sends(j[..k]) - 1), origin, j[..k], j[k], stepId, calls, at);
  }

  ghost predicate RanAsAsked(spec: RunLoop.Spec, turn: RunLoop.Turn, s: State, step: Step, stepId: StepId, calls: seq<Call>, at: nat)
    requires step.Began?
  {
    var asked, gate := Deeds.Asks(turn, step.toolUseId), turn.effects(at).gate;
    && PositionOf(s, spec.runId) == Some(Tools(stepId, calls))
    && at < |calls| && calls[at].toolUseId == step.toolUseId && calls[at].status == EffectPending
    && !gate.Refused? && spec.knows(calls[at].name)
    && ArgsOf(s, stepId, calls[at]) == asked
    && step.input == (if gate.Continued? then RunLoop.OrNull(gate.input) else asked)
    && (ArgsOf(s, stepId, calls[at]) == step.input <==> (gate.Continued? ==> RunLoop.OrNull(gate.input) == asked))
  }

  // --- What a run asks, runs and answers ---------------------------------------------------------------

  lemma {:induction false} RunIsLived(spec: RunLoop.Spec, world: nat -> RunLoop.Turn, origin: State, inbox: seq<string>, cut: nat)
    requires Fresh(origin, spec.runId) && cut <= |WholeRun(spec, world, origin, inbox).journal|
    ensures Effects.Lived(spec, world, origin, WholeRun(spec, world, origin, inbox).journal[..cut])
  {
    RunIsLawful(spec, world, origin, inbox, cut);
    Conduct.RunIsAsItMayBe(spec, world, origin, inbox);
    Effects.EachPrefix(Conduct.AsMayBe(spec, world, origin), WholeRun(spec, world, origin, inbox).journal, cut);
  }

  /** Every request a run sends is its own: its model, its prompt, its tools and what it was asked for, sized and marked as it
      must be, and holding what the record says just then. */
  lemma {:induction false} RunAsksForItself(spec: RunLoop.Spec, world: nat -> RunLoop.Turn, origin: State, inbox: seq<string>, k: nat)
    requires Fresh(origin, spec.runId) && k < |WholeRun(spec, world, origin, inbox).journal|
    requires WholeRun(spec, world, origin, inbox).journal[k].Sent?
    ensures var j := WholeRun(spec, world, origin, inbox).journal;
      RequestLaws.Suits(spec, Replay(origin, j[..k]), j[k].request)
  {
    Conduct.RunIsAsItMayBe(spec, world, origin, inbox);
    var j := WholeRun(spec, world, origin, inbox).journal;
    assert Conduct.AsMayBe(spec, world, origin)(j[..k], j[k]);
  }

  lemma {:induction false} SaidOf(entries: seq<Entry>, e: Entry, x: Surface.Said)
    requires e in entries && x in Surface.SaidBy(Surface.RoleFor(e), Surface.BlocksOf(e))
    ensures x in Surface.Flat(entries)
    decreases |entries|
  {
    if e in entries[..|entries| - 1] {
      SaidOf(entries[..|entries| - 1], e, x);
    }
  }

  /** And with it every answer on the surface to a call on the surface reaches Converse: under the call's id, in the user's
      turn, as one text, its own, marked when the call failed. */
  lemma {:induction false} RunTellsConverse(spec: RunLoop.Spec, world: nat -> RunLoop.Turn, origin: State, inbox: seq<string>, k: nat,
                                            codec: Codec, e: Entry, id: string, text: string, failed: bool)
    requires Fresh(origin, spec.runId) && k < |WholeRun(spec, world, origin, inbox).journal|
    requires WholeRun(spec, world, origin, inbox).journal[k].Sent?
    requires var j := WholeRun(spec, world, origin, inbox).journal;
      var surface := SurfaceFrom(Replay(origin, j[..k]), spec.surfaceFrom);
      && e in surface && e.actor != Claude && e.blocks == Some([ToolResultBlock(id, text, failed)])
      && id in Surface.UseIds(Surface.Flat(surface))
      && ConverseRequest.ToConverse(codec, j[k].request.messages).Some?
    ensures Surface.Said(UserRole, ResultLaws.ConverseResult(id, [if failed then "[tool error] " + text else text]))
      in Surface.Spoken(ConverseRequest.ToConverse(codec, WholeRun(spec, world, origin, inbox).journal[k].request.messages).value)
  {
    var j := WholeRun(spec, world, origin, inbox).journal;
    var surface := SurfaceFrom(Replay(origin, j[..k]), spec.surfaceFrom);
    RunAsksForItself(spec, world, origin, inbox, k);
    TellsConverse(codec, surface, e, id, text, failed);
  }

  lemma {:induction false} TellsConverse(codec: Codec, surface: seq<Entry>, e: Entry, id: string, text: string, failed: bool)
    requires e in surface && e.actor != Claude && e.blocks == Some([ToolResultBlock(id, text, failed)])
    requires id in Surface.UseIds(Surface.Flat(surface)) && ConverseRequest.ToConverse(codec, Surface.Fold(surface)).Some?
    ensures Surface.Said(UserRole, ResultLaws.ConverseResult(id, [if failed then "[tool error] " + text else text]))
      in Surface.Spoken(ConverseRequest.ToConverse(codec, Surface.Fold(surface)).value)
  {
    var x := Surface.Said(UserRole, ToolResultBlock(id, text, failed));
    assert Surface.SaidBy(UserRole, [ToolResultBlock(id, text, failed)])[0] == x;
    SaidOf(surface, e, x);
    ResultLaws.AnswersReachConverse(codec, surface, UserRole, id, text, failed);
  }

  /** Every answer a run files is that of a call in hand, in the turn whose request was the last one sent: its outcome, in one
      transaction with what is told of it and with the marker that it is done. */
  lemma {:induction false} RunAnswersAsTold(spec: RunLoop.Spec, world: nat -> RunLoop.Turn, origin: State, inbox: seq<string>, k: nat)
    returns (stepId: StepId, calls: seq<Call>, at: nat)
    requires Fresh(origin, spec.runId) && k < |WholeRun(spec, world, origin, inbox).journal|
    requires Deeds.FilesKeyed(WholeRun(spec, world, origin, inbox).journal[k])
    ensures var j := WholeRun(spec, world, origin, inbox).journal;
      Sends(j[..k]) > 0 && Deeds.AnsweredAt(spec, world(Sends(j[..k]) - 1), origin, j[..k], j[k], stepId, calls, at)
  {
    Conduct.RunIsAsItMayBe(spec, world, origin, inbox);
    var j := WholeRun(spec, world, origin, inbox).journal;
    assert Conduct.AsMayBe(spec, world, origin)(j[..k], j[k]);
    Effects.AnswerWasDone(spec, world, origin, j[..k], j[k]);
    stepId, calls, at :| Deeds.AnsweredAt(spec, world(Sends(j[..k]) - 1), origin, j[..k], j[k], stepId, calls, at);
  }

  /** Wherever a run is cut in a tools phase, one pass settles all that has no outcome, in the one order there is, and is
      then back at the checkpoint. */
  lemma {:induction false} RunIsRecoveredInTurn(spec: RunLoop.Spec, world: nat -> RunLoop.Turn, origin: State, inbox: seq<string>,
                                                cut: nat, deps: Deps, step: StepId, calls: seq<Call>) returns (order: seq<Call>)
    requires Fresh(origin, spec.runId) && cut <= |WholeRun(spec, world, origin, inbox).journal|
    requires PositionOf(Crashed(spec, world, origin, inbox, cut), spec.runId) == Some(Tools(step, calls))
    ensures PassScript.InTurn(calls, order) && (forall other :: PassScript.InTurn(calls, other) ==> other == order)
    ensures forall c :: c in order ==> c.index < |calls|
    ensures var left := Crashed(spec, world, origin, inbox, cut);
      Steps(left, spec.runId, deps)
      == PassScript.Script(left, spec.runId, step, calls, order, deps) + [Step.Commit([SetPosition(spec.runId, Record.Checkpoint)])]
  {
    RunIsLawful(spec, world, origin, inbox, cut);
    LawfulKeeps(spec.runId, origin, WholeRun(spec, world, origin, inbox).journal[..cut]);
    order := PassScript.PassIsScripted(Crashed(spec, world, origin, inbox, cut), spec.runId, step, calls, deps);
    forall other | PassScript.InTurn(calls, other) ensures other == order {
      PassScript.OnlyOneTurn(calls, other, order);
    }
  }

  /** What the step at `k` of a journal made of the call planned at `i` of the step at `p`. */
  ghost predicate RunOnce(spec: RunLoop.Spec, turn: RunLoop.Turn, origin: State, j: seq<Step>, p: nat, k: nat, call: Call, i: nat) {
    && p < k < |j| && Effects.AnswersAt(spec, turn, origin, j, k, call, i)
    && Starts(j, call.toolUseId) == (if !turn.effects(i).gate.Refused? && spec.knows(call.name) then 1 else 0)
    && (!turn.effects(i).gate.Refused? && spec.knows(call.name) ==>
          Effects.BegunBefore(spec.runId, origin, j, k, i, call.toolUseId, Deeds.Leaves(turn, i, call.toolUseId)))
  }

  /** Wherever a run is cut, while ids do not repeat: what a transaction plans are the calls its turn's model asked for, and
      each of them either waits still or has its answer. One that has it was begun exactly once if its gate did not refuse it
      and there is such a tool, between the transaction that marked it and the one that answered it, with what the gate left
      of its input; and otherwise it was never begun. Of a whole run no call waits. */
  lemma {:induction false} RunRunsEachOnce(spec: RunLoop.Spec, world: nat -> RunLoop.Turn, origin: State, inbox: seq<string>,
                                           cut: nat, p: nat, i: nat) returns (k: nat)
    requires Fresh(origin, spec.runId) && p < cut <= |WholeRun(spec, world, origin, inbox).journal|
    requires var planned := Deeds.PlannedBy(WholeRun(spec, world, origin, inbox).journal[p]);
      planned.Some? && i < |planned.value|
    requires Distinct(Asked(spec.runId, WholeRun(spec, world, origin, inbox).journal[..cut]))
    ensures var j, all := WholeRun(spec, world, origin, inbox).journal[..cut], WholeRun(spec, world, origin, inbox).journal;
      var planned := Deeds.PlannedBy(all[p]).value;
      && Sends(j[..p]) > 0
      && var turn := world(Sends(j[..p]) - 1);
      && Deeds.PlansAsAsked(spec, turn, origin, j[..p], planned)
      && (Protocol.Awaiting(Replay(origin, j), spec.runId, planned[i].toolUseId) || RunOnce(spec, turn, origin, j, p, k, planned[i], i))
      && (cut == |all| ==> !Protocol.Awaiting(Replay(origin, j), spec.runId, planned[i].toolUseId))
  {
    var all := WholeRun(spec, world, origin, inbox).journal;
    var j := all[..cut];
    RunIsLived(spec, world, origin, inbox, cut);
    assert j[p] == all[p] && j[..p] == all[..p];
    k := LivedRunsEachOnce(spec, world, origin, j, p, Deeds.PlannedBy(all[p]).value, i);
    if cut == |all| {
      assert j == all;
      RunEndsOnce(spec, world, origin, inbox);
      RunStands(spec, origin, world, inbox);
    }
  }

  lemma {:induction false} LivedRunsEachOnce(spec: RunLoop.Spec, world: nat -> RunLoop.Turn, origin: State, j: seq<Step>, p: nat,
                                             planned: seq<Call>, i: nat) returns (k: nat)
    requires Effects.Lived(spec, world, origin, j) && p < |j| && Deeds.PlannedBy(j[p]) == Some(planned) && i < |planned|
    requires Distinct(Asked(spec.runId, j))
    ensures Sends(j[..p]) > 0 && Deeds.PlansAsAsked(spec, world(Sends(j[..p]) - 1), origin, j[..p], planned)
    ensures Protocol.Awaiting(Replay(origin, j), spec.runId, planned[i].toolUseId)
         || RunOnce(spec, world(Sends(j[..p]) - 1), origin, j, p, k, planned[i], i)
  {
    Effects.LivedAt(spec, world, origin, j, p);
    Effects.PlanWasMade(spec, world, origin, j[..p], j[p]);
    k := Effects.HandOrAnswered(spec, world, origin, j, p, planned, i);
    assert j[..|j|] == j;
    var turn := world(Sends(j[..p]) - 1);
    if p < k < |j| && Effects.AnswersAt(spec, turn, origin, j, k, planned[i], i) {
      Effects.AnsweredCounts(spec, turn, origin, j, k, planned[i], i);
    }
  }

  // --- What is told is on the record -----------------------------------------------------------------

  /** The event is on the record as it was told. */
  predicate OnRecord(entries: seq<Entry>, run: string, e: Envelope) {
    exists x :: x in entries && x == RunLoop.EntryFor(run, e, x.blocks)
  }

  /** Wherever a run is cut, whatever durable event the room was told is on the record already, as it was told; but
      for the error that broke the stream of a request in flight, which is told and not kept. */
  lemma {:induction false} ToldIsRecorded(spec: RunLoop.Spec, world: nat -> RunLoop.Turn, origin: State, inbox: seq<string>, k: nat, e: Envelope)
    requires Fresh(origin, spec.runId) && k < |WholeRun(spec, world, origin, inbox).journal|
    requires var j := WholeRun(spec, world, origin, inbox).journal;
      j[k].Emit? && e in j[k].events && !Ephemeral(e.etype) && !BreaksStream(spec.runId, origin, j[..k], e)
    ensures OnRecord(Replay(origin, WholeRun(spec, world, origin, inbox).journal[..k]).entries, spec.runId, e)
  {
    RunIsBounded(spec, world, origin, inbox);
    RunIsLawful(spec, world, origin, inbox, k);
    CandidIsKept(spec.runId, origin, WholeRun(spec, world, origin, inbox).journal, k, e);
  }

  predicate BreaksStream(run: string, origin: State, j: seq<Step>, e: Envelope) {
    e.etype == ProviderError && InFlight(Replay(origin, j), run)
  }

  lemma {:induction false} CandidIsKept(run: string, origin: State, j: seq<Step>, k: nat, e: Envelope)
    requires Fresh(origin, run) && k < |j| && Candid(run, j) && Lawful(run, origin, j[..k])
    requires j[k].Emit? && e in j[k].events && !Ephemeral(e.etype) && !BreaksStream(run, origin, j[..k], e)
    ensures OnRecord(Replay(origin, j[..k]).entries, run, e)
  {
    assert MayTell(run, j[..k], j[k].events);
    UncertainExactly(run, origin, j[..k]);
    FiledIsKept(run, origin, j[..k], e);
  }

  lemma {:induction false} FiledIsKept(run: string, origin: State, j: seq<Step>, e: Envelope)
    requires Lawful(run, origin, j) && j != [] && j[|j| - 1].Commit? && Files(j[|j| - 1].writes, run, e)
    ensures OnRecord(Replay(origin, j).entries, run, e)
  {
    var init, step, s, tx := LastStep(run, origin, j);
    var blocks :| PutEntry(RunLoop.EntryFor(run, e, blocks)) in step.writes;
    var x := RunLoop.EntryFor(run, e, blocks);
    PutsAreEntries(run, tx, x);
    assert x in Filed(s.entries, tx.entries);
  }

  lemma {:induction false} PutsAreEntries(run: string, tx: RunLoop.Tx, x: Entry)
    requires PutEntry(x) in RunLoop.Writes(run, tx)
    ensures x in tx.entries
  {
  }
}
