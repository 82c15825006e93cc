/** The step protocol a run's journal obeys, and what every prefix of such a journal guarantees. */
module Protocol {
  import opened Json
  import opened Contract
  import opened Record
  import opened Checkpoint
  import opened Journal
  import opened RunLoop

  // --- What a transaction does ---------------------------------------------------------------

  /** Each entry lands unless the log already holds its identity. */
  function Filed(entries: seq<Entry>, es: seq<Entry>): (r: seq<Entry>)
    ensures entries <= r
    decreases |es|
  {
    if es == [] then entries
    else Filed(if Collides(entries, es[0]) then entries else entries + [es[0]], es[1..])
  }

  function FiledUsage(rows: seq<UsageRow>, row: UsageRow): (r: seq<UsageRow>)
    ensures rows <= r
  {
    if exists i :: 0 <= i < |rows| && rows[i].id == row.id then rows else rows + [row]
  }

  lemma {:induction false} IntentOfTx(run: string, tx: Tx)
    ensures IsIntent(run, Step.Commit(Writes(run, tx))) <==> tx.position.Some? && tx.position.value.RequestPending?
  {
  }

  function Landed(s: State, run: string, tx: Tx): State {
    State(
      Filed(s.entries, tx.entries),
      if tx.usage.Some? then FiledUsage(s.usage, tx.usage.value) else s.usage,
      if tx.position.Some? then s.positions[run := tx.position.value] else s.positions,
      if tx.args.Some? then s.toolArgs[(tx.args.value.stepId, tx.args.value.index) := tx.args.value.value] else s.toolArgs,
      if tx.meta.None? then s.meta else if tx.meta.value then s.meta + {run} else s.meta - {run},
      if tx.result.Some? then s.results[run := tx.result.value] else s.results)
  }

  lemma {:induction false} ApplyPuts(s: State, es: seq<Entry>)
    ensures Apply(s, Puts(es)) == s.(entries := Filed(s.entries, es))
    decreases |es|
  {
    if es != [] {
      assert Puts(es)[1..] == Puts(es[1..]);
      ApplyPuts(ApplyWrite(s, PutEntry(es[0])), es[1..]);
    }
  }

  lemma {:induction false} ApplyMaybe(s: State, part: seq<Write>, rest: seq<Write>)
    requires |part| <= 1
    ensures Apply(s, part + rest) == Apply(if part == [] then s else ApplyWrite(s, part[0]), rest)
  {
    ApplyConcat(s, part, rest);
    if part != [] {
      assert part == [part[0]];
      ApplyOne(s, part[0]);
    }
  }

  lemma {:induction false} ApplyLedgers(s: State, run: string, tx: Tx)
    ensures var done := Landed(s, run, tx);
      Apply(s, Ledgers(tx)) == s.(usage := done.usage, toolArgs := done.toolArgs)
  {
    var a := if tx.usage.Some? then [PutUsage(tx.usage.value)] else [];
    var b := if tx.args.Some? then [SetToolArgs(tx.args.value.stepId, tx.args.value.index, tx.args.value.value)] else [];
    ApplyMaybe(s, a, b);
    var s1 := if a == [] then s else ApplyWrite(s, a[0]);
    ApplyMaybe(s1, b, []);
    assert b + [] == b;
  }

  lemma {:induction false} ApplyRegisters(s: State, run: string, tx: Tx)
    ensures Apply(s, Registers(run, tx))
      == Landed(s, run, tx).(entries := s.entries, usage := s.usage, toolArgs := s.toolArgs)
  {
    var c := if tx.meta.Some? then [if tx.meta.value then SetMeta(run) else DelMeta(run)] else [];
    var d := if tx.result.Some? then [SetResult(run, tx.result.value)] else [];
    var e := if tx.position.Some? then [SetPosition(run, tx.position.value)] else [];
    var s1 := if c == [] then s else ApplyWrite(s, c[0]);
    var s2 := if d == [] then s1 else ApplyWrite(s1, d[0]);
    ApplyMaybe(s, c, d + e);
    ApplyMaybe(s1, d, e);
    ApplyMaybe(s2, e, []);
    assert e + [] == e;
  }

  lemma {:induction false} ApplyTx(s: State, run: string, tx: Tx)
    ensures Apply(s, Writes(run, tx)) == Landed(s, run, tx)
  {
    ApplyConcat(s, Puts(tx.entries), Ledgers(tx) + Registers(run, tx));
    ApplyPuts(s, tx.entries);
    var s0 := s.(entries := Filed(s.entries, tx.entries));
    ApplyConcat(s0, Ledgers(tx), Registers(run, tx));
    ApplyLedgers(s0, run, tx);
    var done := Landed(s, run, tx);
    ApplyRegisters(s0.(usage := done.usage, toolArgs := done.toolArgs), run, tx);
  }

  // --- Answers -----------------------------------------------------------------------------------

  /** A surface entry holding the result of this call and nothing else. */
  ghost predicate Proper(e: Entry, id: string) {
    && e.seqNo.None? && e.onSurface
    && exists text, isError :: e.blocks == Some([ToolResultBlock(id, text, isError)])
  }

  predicate Answers(e: Entry, run: string, id: string) {
    e.runId == run && e.key == Some(ToolKey(id))
  }

  predicate Answered(entries: seq<Entry>, run: string, id: string) {
    exists e :: e in entries && Answers(e, run, id)
  }

  /** Exactly one entry answers the call, and it is a proper one. */
  ghost predicate AnsweredOnce(entries: seq<Entry>, run: string, id: string) {
    exists i :: 0 <= i < |entries| && Answers(entries[i], run, id) && Proper(entries[i], id)
      && forall j :: 0 <= j < |entries| && Answers(entries[j], run, id) ==> j == i
  }

  ghost predicate OneEach(entries: seq<Entry>) {
    forall i, j :: 0 <= i < j < |entries| && entries[i].key.Some? && entries[i].runId == entries[j].runId
      ==> entries[i].key != entries[j].key
  }

  ghost predicate AllProper(entries: seq<Entry>, run: string) {
    forall e, id :: e in entries && Answers(e, run, id) ==> Proper(e, id)
  }

  /** A completed call has its answer on the record. */
  ghost predicate Kept(s: State, run: string) {
    && OneEach(s.entries) && AllProper(s.entries, run)
    && match PositionOf(s, run)
       case Some(Tools(_, calls)) =>
         && Indexed(calls)
         && forall i :: 0 <= i < |calls| && calls[i].status == Completed ==> Answered(s.entries, run, calls[i].toolUseId)
       case Some(RequestPending(key, _, _, _)) => key.RequestKey?
       case _ => true
  }

  predicate Awaiting(s: State, run: string, id: string) {
    match PositionOf(s, run)
    case Some(Tools(_, calls)) => exists i :: 0 <= i < |calls| && calls[i].toolUseId == id && calls[i].status != Completed
    case _ => false
  }

  /** Nothing asked for is forgotten: it is answered, or the position still owes it. */
  predicate Owing(s: State, run: string, asked: seq<string>) {
    forall id :: id in asked ==> Answered(s.entries, run, id) || Awaiting(s, run, id)
  }

  // --- Legal transactions --------------------------------------------------------------------------

  predicate Keyless(es: seq<Entry>) {
    forall i :: 0 <= i < |es| ==> es[i].key.None?
  }

  /** The one keyed entry of a transaction answers this call. */
  ghost predicate Brings(es: seq<Entry>, run: string, id: string) {
    |es| > 0 && Answers(es[|es| - 1], run, id) && Proper(es[|es| - 1], id)
    && forall i :: 0 <= i < |es| - 1 ==> es[i].key.None?
  }

  ghost predicate Advances(run: string, calls: seq<Call>, calls': seq<Call>, es: seq<Entry>) {
    exists i :: 0 <= i < |calls| && AdvancesAt(run, calls, calls', es, i)
  }

  ghost predicate AdvancesAt(run: string, calls: seq<Call>, calls': seq<Call>, es: seq<Entry>, i: nat)
    requires i < |calls|
  {
    || (calls[i].status == Planned && calls' == WithCallStatus(calls, i, EffectPending) && Keyless(es))
    || (calls[i].status != Completed && calls' == WithCallStatus(calls, i, Completed) && Brings(es, run, calls[i].toolUseId))
  }

  predicate AllIn(calls: seq<Call>, status: CallStatus) {
    forall i :: 0 <= i < |calls| ==> calls[i].status == status
  }

  /** What a transaction may do to the position, and what it must bring with it. */
  ghost predicate Tidy(run: string, pos: Option<Position>, tx: Tx) {
    !(pos.Some? && pos.value.Terminal?) &&
    match tx.position
    case None => Keyless(tx.entries) && !(pos.Some? && pos.value.RequestPending?)
    case Some(Tools(step, calls')) =>
      if pos.Some? && pos.value.Tools? then pos.value.stepId == step && Advances(run, pos.value.calls, calls', tx.entries)
      else pos.Some? && pos.value.RequestPending? && Keyless(tx.entries) && Indexed(calls') && AllIn(calls', Planned)
    case Some(p) =>
      && Keyless(tx.entries)
      && (pos.Some? && pos.value.Tools? ==> AllIn(pos.value.calls, Completed))
      && (p.RequestPending? ==> pos == Some(Record.Checkpoint) && p.key.RequestKey?
                                && forall i :: 0 <= i < |tx.entries| ==> !tx.entries[i].onSurface)
  }

  lemma {:induction false} FiledKeeps(entries: seq<Entry>, es: seq<Entry>, run: string)
    requires OneEach(entries) && AllProper(entries, run)
    requires forall i, id :: 0 <= i < |es| && Answers(es[i], run, id) ==> Proper(es[i], id)
    ensures OneEach(Filed(entries, es)) && AllProper(Filed(entries, es), run)
    ensures forall i, id :: 0 <= i < |es| && es[i].seqNo.None? && Answers(es[i], run, id) ==>
      Answered(Filed(entries, es), run, id)
    decreases |es|
  {
    if es != [] {
      var next := if Collides(entries, es[0]) then entries else entries + [es[0]];
      assert forall i :: 0 <= i < |entries| ==> Clash(entries[i], es[0]) ==> Collides(entries, es[0]);
      FiledKeeps(next, es[1..], run);
      forall i, id | 0 <= i < |es| && es[i].seqNo.None? && Answers(es[i], run, id)
        ensures Answered(Filed(entries, es), run, id)
      {
        if i == 0 {
          assert Answered(next, run, id) by {
            if Collides(entries, es[0]) {
              var k :| 0 <= k < |entries| && Clash(entries[k], es[0]);
              assert entries[k] in next && Answers(entries[k], run, id);
            } else {
              assert es[0] in next;
            }
          }
          StillAnswered(next, Filed(next, es[1..]), run, id);
        } else {
          assert es[1..][i - 1] == es[i];
        }
      }
    }
  }

  lemma {:induction false} FiledOne(entries: seq<Entry>, e: Entry)
    ensures Filed(entries, [e]) == if Collides(entries, e) then entries else entries + [e]
  {
  }

  lemma {:induction false} StillAnswered(before: seq<Entry>, after: seq<Entry>, run: string, id: string)
    requires before <= after && Answered(before, run, id)
    ensures Answered(after, run, id)
  {
  }

  /** The ids of calls a step plans. */
  function Ids(calls: seq<Call>): (r: seq<string>)
    ensures |r| == |calls| && forall i :: 0 <= i < |r| ==> r[i] == calls[i].toolUseId
  {
    seq(|calls|, i requires 0 <= i < |calls| => calls[i].toolUseId)
  }

  function Plans(tx: Tx): seq<string> {
    match tx.position
    case Some(Tools(_, calls)) => if AllIn(calls, Planned) then Ids(calls) else []
    case _ => []
  }

  /** What a tidy transaction leaves of the answers: each single and proper, none lost. */
  lemma {:induction false} AnswersLand(s: State, run: string, tx: Tx)
    requires Kept(s, run) && Tidy(run, PositionOf(s, run), tx)
    ensures var t := Landed(s, run, tx);
      && OneEach(t.entries) && AllProper(t.entries, run)
      && (forall id :: Answered(s.entries, run, id) ==> Answered(t.entries, run, id))
      && (forall i, id :: 0 <= i < |tx.entries| && tx.entries[i].seqNo.None? && Answers(tx.entries[i], run, id) ==>
            Answered(t.entries, run, id))
  {
    assert forall i, id :: 0 <= i < |tx.entries| && Answers(tx.entries[i], run, id) ==> Proper(tx.entries[i], id);
    FiledKeeps(s.entries, tx.entries, run);
    forall id | Answered(s.entries, run, id) ensures Answered(Landed(s, run, tx).entries, run, id) {
      StillAnswered(s.entries, Landed(s, run, tx).entries, run, id);
    }
  }

  /** One call moved on: the others are as they were, and a completed one has its answer. */
  lemma {:induction false} AdvanceKeeps(s: State, run: string, tx: Tx, calls: seq<Call>, i: nat)
    requires Kept(s, run) && Tidy(run, PositionOf(s, run), tx) && i < |calls|
    requires tx.position.Some? && tx.position.value.Tools? && PositionOf(s, run).Some? && PositionOf(s, run).value.Tools?
    requires calls == PositionOf(s, run).value.calls && AdvancesAt(run, calls, tx.position.value.calls, tx.entries, i)
    ensures Kept(Landed(s, run, tx), run)
  {
    AnswersLand(s, run, tx);
    var es := tx.entries;
    if tx.position.value.calls[i].status == Completed {
      assert Answers(es[|es| - 1], run, calls[i].toolUseId);
    }
  }

  lemma {:induction false} AdvanceOwes(s: State, run: string, tx: Tx, calls: seq<Call>, i: nat, asked: seq<string>)
    requires Kept(s, run) && Owing(s, run, asked) && Tidy(run, PositionOf(s, run), tx) && i < |calls|
    requires tx.position.Some? && tx.position.value.Tools? && PositionOf(s, run).Some? && PositionOf(s, run).value.Tools?
    requires calls == PositionOf(s, run).value.calls && AdvancesAt(run, calls, tx.position.value.calls, tx.entries, i)
    ensures Owing(Landed(s, run, tx), run, asked) && Plans(tx) == []
  {
    AnswersLand(s, run, tx);
    var t, es, calls' := Landed(s, run, tx), tx.entries, tx.position.value.calls;
    if calls'[i].status == Completed {
      assert Answers(es[|es| - 1], run, calls[i].toolUseId);
    }
    forall id | id in asked ensures Answered(t.entries, run, id) || Awaiting(t, run, id) {
      if !Answered(s.entries, run, id) {
        var k :| 0 <= k < |calls| && calls[k].toolUseId == id && calls[k].status != Completed;
        assert calls'[k].toolUseId == id;
      }
    }
    assert calls'[i].status != Planned;
  }

  /** A tidy transaction loses no answer, forgets no call, and answers none twice. */
  lemma {:induction false} TidyKeeps(s: State, run: string, tx: Tx, asked: seq<string>)
    requires Kept(s, run) && Owing(s, run, asked) && Tidy(run, PositionOf(s, run), tx)
    ensures var t := Landed(s, run, tx);
      Kept(t, run) && Owing(t, run, asked + Plans(tx))
  {
    var pos := PositionOf(s, run);
    if tx.position.Some? && tx.position.value.Tools? && pos.Some? && pos.value.Tools? {
      var calls := pos.value.calls;
      var i: nat :| i < |calls| && AdvancesAt(run, calls, tx.position.value.calls, tx.entries, i);
      AdvanceKeeps(s, run, tx, calls, i);
      AdvanceOwes(s, run, tx, calls, i, asked);
      assert asked + [] == asked;
    } else {
      AnswersLand(s, run, tx);
      if tx.position.Some? && tx.position.value.Tools? {
        var calls' := tx.position.value.calls;
        forall id | id in Ids(calls') ensures Awaiting(Landed(s, run, tx), run, id) {
          var k :| 0 <= k < |calls'| && Ids(calls')[k] == id;
          assert calls'[k].toolUseId == id;
        }
      }
    }
  }

  lemma {:induction false} FiledOffSurface(entries: seq<Entry>, es: seq<Entry>)
    requires forall i :: 0 <= i < |es| ==> !es[i].onSurface
    ensures OnSurface(Filed(entries, es)) == OnSurface(entries)
    decreases |es|
  {
    if es != [] {
      OnSurfaceConcat(entries, [es[0]]);
      assert [es[0]][1..] == [];
      assert OnSurface([es[0]]) == [];
      FiledOffSurface(if Collides(entries, es[0]) then entries else entries + [es[0]], es[1..]);
    }
  }

  lemma {:induction false} OnSurfaceConcat(a: seq<Entry>, b: seq<Entry>)
    ensures OnSurface(a + b) == OnSurface(a) + OnSurface(b)
    decreases |a|
  {
    if a == [] {
      assert a + b == b;
    } else {
      assert (a + b)[1..] == a[1..] + b;
      OnSurfaceConcat(a[1..], b);
    }
  }

  // --- Legal journals --------------------------------------------------------------------------------

  /** What the last step did, if it cleared the call at `i` to start. */
  ghost predicate JustCleared(run: string, origin: State, j: seq<Step>, i: nat) {
    && j != [] && j[|j| - 1].Commit?
    && match PositionOf(Replay(origin, j[..|j| - 1]), run)
       case Some(Tools(_, calls)) => i < |calls| && calls[i].status == Planned
       case _ => false
  }

  /** Every entry that answers no call lands. */
  ghost predicate Lands(entries: seq<Entry>, es: seq<Entry>) {
    forall e :: e in es && e.key.None? ==> e in Filed(entries, es)
  }

  ghost predicate Legal(run: string, origin: State, j: seq<Step>, step: Step) {
    var pos := PositionOf(Replay(origin, j), run);
    match step
    case Commit(writes) => exists tx :: writes == Writes(run, tx) && Tidy(run, pos, tx) && Lands(Replay(origin, j).entries, tx.entries)
    case Sent(_) => pos.Some? && pos.value.RequestPending?
    case Began(id, _) =>
      && pos.Some? && pos.value.Tools?
      && exists i :: 0 <= i < |pos.value.calls| && pos.value.calls[i].toolUseId == id
          && pos.value.calls[i].status == EffectPending && JustCleared(run, origin, j, i)
    case Emit(_) => true
  }

  /** Every step is legal where it stands. */
  ghost predicate Lawful(run: string, origin: State, j: seq<Step>) {
    forall k :: 0 <= k < |j| ==> Legal(run, origin, j[..k], j[k])
  }

  lemma {:induction false} LawfulPrefix(run: string, origin: State, j: seq<Step>, k: nat)
    requires k <= |j| && Lawful(run, origin, j)
    ensures Lawful(run, origin, j[..k])
  {
    forall m | 0 <= m < k ensures Legal(run, origin, j[..k][..m], j[..k][m]) {
      assert j[..k][..m] == j[..m];
      assert Legal(run, origin, j[..m], j[m]);
    }
  }

  lemma {:induction false} LawfulExtend(run: string, origin: State, j: seq<Step>, step: Step)
    requires Lawful(run, origin, j) && Legal(run, origin, j, step)
    ensures Lawful(run, origin, j + [step])
    ensures Replay(origin, j + [step]) == After(Replay(origin, j), step)
  {
    ReplayConcat(origin, j, [step]);
    ReplayOne(Replay(origin, j), step);
    var all := j + [step];
    forall m | 0 <= m < |all| ensures Legal(run, origin, all[..m], all[m]) {
      if m < |j| {
        assert all[..m] == j[..m];
        assert Legal(run, origin, j[..m], j[m]);
      } else {
        assert all[..m] == j;
      }
    }
  }

  /** The ids a step plans calls for. */
  function AskedBy(run: string, step: Step): seq<string> {
    if step.Commit? && step.writes != [] && step.writes[|step.writes| - 1].SetPosition?
       && step.writes[|step.writes| - 1].runId == run
    then
      match step.writes[|step.writes| - 1].position
      case Tools(_, calls) => if AllIn(calls, Planned) then Ids(calls) else []
      case _ => []
    else []
  }

  function Asked(run: string, j: seq<Step>): seq<string>
    decreases |j|
  {
    if j == [] then [] else Asked(run, j[..|j| - 1]) + AskedBy(run, j[|j| - 1])
  }

  lemma {:induction false} AskedOfTx(run: string, tx: Tx)
    ensures AskedBy(run, Step.Commit(Writes(run, tx))) == Plans(tx)
  {
  }

  predicate Distinct(ids: seq<string>) {
    forall i, j :: 0 <= i < j < |ids| ==> ids[i] != ids[j]
  }

  lemma {:induction false} DistinctInit(a: seq<string>, b: seq<string>)
    requires Distinct(a + b)
    ensures Distinct(a) && Distinct(b) && forall id :: id in b ==> id !in a
  {
    forall i, j | 0 <= i < j < |a| ensures a[i] != a[j] {
      assert (a + b)[i] == a[i] && (a + b)[j] == a[j];
    }
    forall i, j | 0 <= i < j < |b| ensures b[i] != b[j] {
      assert (a + b)[|a| + i] == b[i] && (a + b)[|a| + j] == b[j];
    }
    forall i, j | 0 <= i < |a| && 0 <= j < |b| ensures a[i] != b[j] {
      assert (a + b)[i] == a[i] && (a + b)[|a| + j] == b[j];
    }
  }

  ghost predicate Fresh(s: State, run: string) {
    && run !in s.positions && OneEach(s.entries)
    && forall e :: e in s.entries ==> e.runId != run
  }

  /** A lawful journal's last step, and what it did. */
  lemma {:induction false} LastStep(run: string, origin: State, j: seq<Step>)
    returns (init: seq<Step>, step: Step, s: State, tx: Tx)
    requires Lawful(run, origin, j) && j != []
    ensures init == j[..|j| - 1] && j == init + [step] && step == j[|j| - 1]
    ensures Lawful(run, origin, init) && Legal(run, origin, init, step) && s == Replay(origin, init)
    ensures !step.Commit? ==> Replay(origin, j) == s
    ensures step.Commit? ==>
      && step.writes == Writes(run, tx) && Tidy(run, PositionOf(s, run), tx) && Lands(s.entries, tx.entries)
      && Replay(origin, j) == Landed(s, run, tx)
  {
    init, step := j[..|j| - 1], j[|j| - 1];
    s := Replay(origin, init);
    LawfulPrefix(run, origin, j, |j| - 1);
    assert Legal(run, origin, init, step);
    assert j == init + [step];
    LawfulExtend(run, origin, init, step);
    tx := Filing([]);
    if step.Commit? {
      tx :| step.writes == Writes(run, tx) && Tidy(run, PositionOf(s, run), tx) && Lands(s.entries, tx.entries);
      ApplyTx(s, run, tx);
    }
  }

  /** At every prefix of a lawful journal, so wherever a crash cuts it: answers are single and
      proper, completed calls have theirs, and nothing asked for is forgotten. */
  lemma {:induction false} LawfulKeeps(run: string, origin: State, j: seq<Step>)
    requires Fresh(origin, run) && Lawful(run, origin, j)
    ensures Kept(Replay(origin, j), run) && Owing(Replay(origin, j), run, Asked(run, j))
    decreases |j|
  {
    if j != [] {
      var init, step, s, tx := LastStep(run, origin, j);
      LawfulKeeps(run, origin, init);
      if step.Commit? {
        AskedOfTx(run, tx);
        TidyKeeps(s, run, tx, Asked(run, init));
      }
    }
  }
}
