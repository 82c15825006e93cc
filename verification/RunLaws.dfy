/** Every journal the loop can write is lawful, and what it adds to the record. */
module RunLaws {
  import opened Json
  import opened Contract
  import opened Record
  import opened Checkpoint
  import opened Journal
  import opened Normalize
  import opened StopReasons
  import opened RunLoop
  import opened Protocol
  import World

  // --- Numbering -------------------------------------------------------------------------

  /** The run's numbers on the record do not pass `hi`, and each is over those in front of it. */
  ghost predicate Ahead(entries: seq<Entry>, run: string, hi: nat) {
    && (forall e :: e in entries && e.runId == run && e.seqNo.Some? ==> e.seqNo.value <= hi)
    && InNumber(run)(entries)
  }

  ghost function InNumber(run: string): seq<Entry> -> bool {
    (entries: seq<Entry>) => Ascending(entries, run)
  }

  predicate Ascending(entries: seq<Entry>, run: string) {
    forall i, j :: 0 <= i < j < |entries| && HasNumber(entries[i], run) && HasNumber(entries[j], run) ==>
      entries[i].seqNo.value < entries[j].seqNo.value
  }

  predicate HasNumber(e: Entry, run: string) {
    e.runId == run && e.seqNo.Some?
  }

  /** Entries of the run with the numbers that follow `from`. */
  predicate Stamped(es: seq<Entry>, run: string, from: nat) {
    forall i :: 0 <= i < |es| ==> es[i].runId == run && es[i].key.None? && es[i].seqNo == Some(from + 1 + i)
  }

  predicate Consecutive(events: seq<Envelope>, from: nat) {
    forall i :: 0 <= i < |events| ==> events[i].seqNo == Some(from + 1 + i)
  }

  lemma {:induction false} StampedNext(entries: seq<Entry>, es: seq<Entry>, run: string, from: nat)
    requires es != [] && Ahead(entries, run, from) && Stamped(es, run, from)
    ensures !Collides(entries, es[0]) && Ahead(entries + [es[0]], run, from + 1) && Stamped(es[1..], run, from + 1)
  {
    assert Ascending(entries, run);
    forall i, j | 0 <= i < j < |entries + [es[0]]| && HasNumber((entries + [es[0]])[i], run) && HasNumber((entries + [es[0]])[j], run)
      ensures (entries + [es[0]])[i].seqNo.value < (entries + [es[0]])[j].seqNo.value
    {
      assert (entries + [es[0]])[i] == entries[i];
    }
    assert Ascending(entries + [es[0]], run);
  }

  lemma {:induction false} FiledStamped(entries: seq<Entry>, es: seq<Entry>, run: string, from: nat)
    requires Ahead(entries, run, from) && Stamped(es, run, from)
    ensures Filed(entries, es) == entries + es && Ahead(entries + es, run, from + |es|)
    decreases |es|
  {
    if es == [] {
      assert entries + es == entries;
    } else {
      StampedNext(entries, es, run, from);
      var next, rest := entries + [es[0]], es[1..];
      FiledStamped(next, rest, run, from + 1);
      FirstThenRest(entries, es);
      Rejoined(entries, es);
      assert from + 1 + |rest| == from + |es|;
    }
  }

  lemma {:induction false} Rejoined(entries: seq<Entry>, es: seq<Entry>)
    requires es != []
    ensures entries + [es[0]] + es[1..] == entries + es
  {
    assert es == [es[0]] + es[1..];
  }

  lemma {:induction false} FirstThenRest(entries: seq<Entry>, es: seq<Entry>)
    requires es != [] && !Collides(entries, es[0])
    ensures Filed(entries, es) == Filed(entries + [es[0]], es[1..])
  {
  }

  lemma {:induction false} FiledConcat(entries: seq<Entry>, a: seq<Entry>, b: seq<Entry>)
    ensures Filed(entries, a + b) == Filed(Filed(entries, a), b)
    decreases |a|
  {
    if a == [] {
      assert a + b == b;
    } else {
      assert (a + b)[1..] == a[1..] + b;
      FiledConcat(if Collides(entries, a[0]) then entries else entries + [a[0]], a[1..], b);
    }
  }

  // --- Soundness ---------------------------------------------------------------------------

  ghost predicate Sound(spec: Spec, origin: State, l: Loop) {
    && l.rec == Replay(origin, l.journal)
    && Lawful(spec.runId, origin, l.journal)
    && Ahead(l.rec.entries, spec.runId, l.norm.seqNo)
  }

  predicate Stands(spec: Spec, l: Loop, p: Position) {
    PositionOf(l.rec, spec.runId) == Some(p)
  }

  lemma {:induction false} DoQuiet(spec: Spec, origin: State, l: Loop, step: Step)
    requires Sound(spec, origin, l) && !step.Commit? && Legal(spec.runId, origin, l.journal, step)
    ensures Sound(spec, origin, Do(l, step)) && Do(l, step).rec == l.rec
  {
    LawfulExtend(spec.runId, origin, l.journal, step);
  }

  /** A transaction of numbered entries: all of them land. */
  lemma {:induction false} FilePlain(spec: Spec, origin: State, l: Loop, n: Norm, tx: Tx)
    requires Sound(spec, origin, l) && Stamped(tx.entries, spec.runId, l.norm.seqNo)
    requires n.seqNo == l.norm.seqNo + |tx.entries|
    requires Tidy(spec.runId, PositionOf(l.rec, spec.runId), tx)
    ensures forall m: Loop :: m.rec == l.rec && m.journal == l.journal && m.norm == n ==>
      && Sound(spec, origin, File(spec, m, tx))
      && File(spec, m, tx).rec == Landed(l.rec, spec.runId, tx)
    ensures Landed(l.rec, spec.runId, tx).entries == l.rec.entries + tx.entries
  {
    FiledStamped(l.rec.entries, tx.entries, spec.runId, l.norm.seqNo);
    ApplyTx(l.rec, spec.runId, tx);
    var step := Step.Commit(Writes(spec.runId, tx));
    assert Legal(spec.runId, origin, l.journal, step);
    LawfulExtend(spec.runId, origin, l.journal, step);
  }

  /** A transaction that brings a call's answer: it lands unless the call is answered already. */
  lemma {:induction false} FileAnswer(spec: Spec, origin: State, l: Loop, n: Norm, tx: Tx, es: seq<Entry>, answer: Entry, id: string)
    requires Sound(spec, origin, l) && tx.entries == es + [answer] && Stamped(es, spec.runId, l.norm.seqNo)
    requires n.seqNo == l.norm.seqNo + |es|
    requires Answers(answer, spec.runId, id) && answer.seqNo.None?
    requires Tidy(spec.runId, PositionOf(l.rec, spec.runId), tx)
    ensures forall m: Loop :: m.rec == l.rec && m.journal == l.journal && m.norm == n ==>
      && Sound(spec, origin, File(spec, m, tx))
      && File(spec, m, tx).rec == Landed(l.rec, spec.runId, tx)
    ensures Landed(l.rec, spec.runId, tx).entries ==
      if Answered(l.rec.entries, spec.runId, id) then l.rec.entries + es else l.rec.entries + tx.entries
  {
    AnswerLands(l.rec.entries, es, spec.runId, l.norm.seqNo, answer, id);
    ApplyTx(l.rec, spec.runId, tx);
    var step := Step.Commit(Writes(spec.runId, tx));
    assert Legal(spec.runId, origin, l.journal, step);
    LawfulExtend(spec.runId, origin, l.journal, step);
  }

  lemma {:induction false} AnswerLands(entries: seq<Entry>, es: seq<Entry>, run: string, from: nat, answer: Entry, id: string)
    requires Ahead(entries, run, from) && Stamped(es, run, from) && Answers(answer, run, id) && answer.seqNo.None?
    ensures var all := Filed(entries, es + [answer]);
      && all == (if Answered(entries, run, id) then entries + es else entries + (es + [answer]))
      && Ahead(all, run, from + |es|)
  {
    FiledConcat(entries, es, [answer]);
    FiledStamped(entries, es, run, from);
    FiledOne(entries + es, answer);
    ClashesIfAnswered(entries, es, run, answer, id);
    assert entries + es + [answer] == entries + (es + [answer]);
  }

  lemma {:induction false} ClashesIfAnswered(entries: seq<Entry>, es: seq<Entry>, run: string, answer: Entry, id: string)
    requires forall i :: 0 <= i < |es| ==> es[i].key.None?
    requires Answers(answer, run, id) && answer.seqNo.None?
    ensures Collides(entries + es, answer) <==> Answered(entries, run, id)
  {
    var all := entries + es;
    if Collides(all, answer) {
      var i :| 0 <= i < |all| && Clash(all[i], answer);
      assert all[i] in entries;
    }
    if Answered(entries, run, id) {
      var e :| e in entries && Answers(e, run, id);
      var i :| 0 <= i < |entries| && entries[i] == e;
      assert Clash(all[i], answer);
    }
  }

  // --- Opening and ending -----------------------------------------------------------------------

  function PromptEntry(spec: Spec, seqNo: nat): Entry {
    EntryFor(spec.runId, Envelope(Some(seqNo), UserPrompt, UserActor(spec), NoPayload), Some([TextBlock(spec.prompt)]))
  }

  function StartedEntry(spec: Spec, seqNo: nat): Entry {
    EntryFor(spec.runId, Envelope(Some(seqNo), RunStarted, UserActor(spec), NoPayload), None)
  }

  /** The first two entries of a run, after `at`. */
  function OpeningEntries(spec: Spec, at: nat): seq<Entry> {
    [PromptEntry(spec, at + 1), StartedEntry(spec, at + 2)]
  }

  lemma {:induction false} OpeningKeeps(spec: Spec, origin: State, inbox: seq<string>)
    requires Fresh(origin, spec.runId)
    ensures var l := Opening(spec, Idle(origin, inbox));
      var at := HighestSeq(origin.entries, spec.runId);
      && Sound(spec, origin, l) && Stands(spec, l, Record.Checkpoint)
      && l.norm.seqNo == at + 2
      && l.rec.entries == origin.entries + OpeningEntries(spec, at)
      && l.rec.usage == origin.usage
  {
    var at := HighestSeq(origin.entries, spec.runId);
    var l := Idle(origin, inbox).(norm := Norm(at, "turn", map[]));
    assert Replay(origin, []) == origin;
    var n2 := Norm(at + 2, "turn", map[]);
    var tx := Filing([PromptEntry(spec, at + 1), StartedEntry(spec, at + 2)]).(meta := Some(true), position := Some(Record.Checkpoint));
    assert PositionOf(origin, spec.runId) == None;
    FilePlain(spec, origin, l, n2, tx);
    OpeningIs(spec, l, n2, tx);
    DoQuiet(spec, origin, File(spec, l.(norm := n2), tx),
            Emit([Envelope(Some(at + 1), UserPrompt, UserActor(spec), NoPayload),
                  Envelope(Some(at + 2), RunStarted, UserActor(spec), NoPayload)]));
  }

  lemma {:induction false} OpeningIs(spec: Spec, l: Loop, n: Norm, tx: Tx)
    requires l == Idle(l.rec, l.inbox).(norm := Norm(HighestSeq(l.rec.entries, spec.runId), "turn", map[]))
    requires n == l.norm.(seqNo := l.norm.seqNo + 2)
    requires tx == Filing([PromptEntry(spec, l.norm.seqNo + 1), StartedEntry(spec, l.norm.seqNo + 2)])
                   .(meta := Some(true), position := Some(Record.Checkpoint))
    ensures Opening(spec, Idle(l.rec, l.inbox)) == Tell(File(spec, l.(norm := n), tx),
      [Envelope(Some(l.norm.seqNo + 1), UserPrompt, UserActor(spec), NoPayload),
       Envelope(Some(l.norm.seqNo + 2), RunStarted, UserActor(spec), NoPayload)])
  {
  }

  predicate Quiescent(spec: Spec, l: Loop) {
    match PositionOf(l.rec, spec.runId)
    case Some(Checkpoint) => true
    case Some(RequestPending(_, _, _, _)) => true
    case _ => false
  }

  lemma {:induction false} EndKeeps(spec: Spec, origin: State, l: Loop, etype: EventType, actor: Actor, outcome: Ending, reason: Option<string>, turns: nat)
    requires Sound(spec, origin, l) && Quiescent(spec, l) && !Ephemeral(etype) && etype != RequestHeader
    ensures var m := End(spec, l, etype, actor, outcome, reason, turns);
      && Sound(spec, origin, m) && Stands(spec, m, Terminal(outcome)) && m.ended.Some?
      && m.rec.entries == l.rec.entries + [EntryFor(spec.runId, Envelope(Some(l.norm.seqNo + 1), etype, actor, Spend(l.usage)), None)]
      && m.rec.usage == l.rec.usage
  {
    var (n, e) := Mint(l.norm, etype, actor, Spend(l.usage));
    var tx := Filing([EntryFor(spec.runId, e, None)])
              .(meta := Some(false), result := Some(RunResult(outcome, false, reason)), position := Some(Terminal(outcome)));
    FilePlain(spec, origin, l, n, tx);
    DoQuiet(spec, origin, File(spec, l.(norm := n), tx), Emit([e]));
  }

  // --- Asking ---------------------------------------------------------------------------------------

  lemma {:induction false} IntendKeeps(spec: Spec, origin: State, turn: Turn, l: Loop, request: Request)
    requires Sound(spec, origin, l) && Stands(spec, l, Record.Checkpoint)
    ensures var m := Intend(spec, turn, l, request);
      && Sound(spec, origin, m)
      && Stands(spec, m, RequestPending(RequestKey(spec.runId, turn.turnId, l.attempt),
                                        NextUsageId(l.rec.usage), turn.turnId, l.attempt))
      && m.rec.usage == l.rec.usage
      && m.lastSnapshot == Some(SnapshotOf(spec, turn, request))
      && m.rec.entries == l.rec.entries +
           (if l.lastSnapshot == m.lastSnapshot then []
            else [EntryFor(spec.runId,
                           Envelope(Some(l.norm.seqNo + 1), RequestHeader, System,
                                    Header(SnapshotOf(spec, turn, request),
                                           Some(RequestBuilder.MessagesDigest(spec.codec, request.messages)))), None)])
  {
    var snapshot := SnapshotOf(spec, turn, request);
    var position := RequestPending(RequestKey(spec.runId, turn.turnId, l.attempt),
                                   NextUsageId(l.rec.usage), turn.turnId, l.attempt);
    if l.lastSnapshot == Some(snapshot) {
      var tx := Filing([]).(position := Some(position));
      FilePlain(spec, origin, l, l.norm, tx);
      assert l.(norm := l.norm) == l;
    } else {
      var (n, header) := Mint(l.norm, RequestHeader, System,
                              Header(snapshot, Some(RequestBuilder.MessagesDigest(spec.codec, request.messages))));
      var tx := Filing([EntryFor(spec.runId, header, None)]).(position := Some(position));
      FilePlain(spec, origin, l, n, tx);
      DoQuiet(spec, origin, File(spec, l.(norm := n, lastSnapshot := Some(snapshot)), tx), Emit([header]));
    }
  }

  predicate NoHeaders(events: seq<Envelope>) {
    forall i :: 0 <= i < |events| ==> events[i].etype != RequestHeader
  }

  predicate AllLive(events: seq<Envelope>) {
    forall i :: 0 <= i < |events| ==> Ephemeral(events[i].etype)
  }

  predicate AllEmits(steps: seq<Step>) {
    forall i :: 0 <= i < |steps| ==> steps[i].Emit? && AllLive(steps[i].events)
  }

  /** What was heard is numbered without a gap, and only broadcasts on the way. */
  lemma {:induction false} HearNumbers(n: Norm, events: seq<ProviderEvent>)
    ensures var h := Hear(n, events);
      && Consecutive(h.durable, n.seqNo) && h.norm.seqNo == n.seqNo + |h.durable|
      && h.norm.turnId == n.turnId && AllEmits(h.live) && NoHeaders(h.durable)
    decreases |events|
  {
    if events != [] {
      var h, e := Hear(n, events[..|events| - 1]), events[|events| - 1];
      HearNumbers(n, events[..|events| - 1]);
      HearOneNumbers(h, e);
      HearOneLive(h, e);
      HearNext(n, h, HearOne(h, e));
    }
  }

  lemma {:induction false} HearNext(n: Norm, h: Heard, h': Heard)
    requires Consecutive(h.durable, n.seqNo) && NoHeaders(h.durable) && h.norm.seqNo == n.seqNo + |h.durable|
    requires h'.norm.seqNo - h.norm.seqNo == |h'.durable| - |h.durable| <= 1 && h.durable <= h'.durable
    requires |h'.durable| > |h.durable| ==>
      h'.durable[|h.durable|].seqNo == Some(h.norm.seqNo + 1) && h'.durable[|h.durable|].etype != RequestHeader
    ensures Consecutive(h'.durable, n.seqNo) && NoHeaders(h'.durable) && h'.norm.seqNo == n.seqNo + |h'.durable|
  {
  }

  lemma {:induction false} SortOut(out: seq<Envelope>)
    requires |out| <= 1
    ensures Durable(out) == if out != [] && !Ephemeral(out[0].etype) then out else []
    ensures Live(out) == if out != [] && Ephemeral(out[0].etype) then [Emit(out)] else []
  {
    if out != [] {
      assert out == [out[0]] && out[1..] == [];
      assert Durable(out[1..]) == [] && Live(out[1..]) == [];
    }
  }

  lemma {:induction false} HearOneNumbers(h: Heard, e: ProviderEvent)
    ensures var h' := HearOne(h, e);
      && h'.norm.seqNo - h.norm.seqNo == |h'.durable| - |h.durable| <= 1
      && h.durable <= h'.durable && h'.norm.turnId == h.norm.turnId
      && (|h'.durable| > |h.durable| ==>
            h'.durable[|h.durable|].seqNo == Some(h.norm.seqNo + 1) && h'.durable[|h.durable|].etype != RequestHeader)
  {
    NumbersAreConsecutive(h.norm, e);
    if !h.broke && !(e.BlockStop? && Unreadable(e.block)) {
      AbsorbNumbers(Notice(h, e), MapEvent(h.norm, e).0, MapEvent(h.norm, e).1);
    }
  }

  lemma {:induction false} AbsorbNumbers(h: Heard, n: Norm, out: seq<Envelope>)
    requires |out| <= 1 && n.turnId == h.norm.turnId
    requires n.seqNo == h.norm.seqNo + (if out != [] && !Ephemeral(out[0].etype) then 1 else 0)
    requires out != [] && !Ephemeral(out[0].etype) ==> out[0].seqNo == Some(n.seqNo) && out[0].etype != RequestHeader
    ensures var h' := Absorb(h, n, out);
      && h'.norm.seqNo - h.norm.seqNo == |h'.durable| - |h.durable| <= 1
      && h.durable <= h'.durable && h'.norm.turnId == h.norm.turnId
      && (|h'.durable| > |h.durable| ==>
            h'.durable[|h.durable|].seqNo == Some(h.norm.seqNo + 1) && h'.durable[|h.durable|].etype != RequestHeader)
  {
    SortOut(out);
  }

  lemma {:induction false} MoreLive(live: seq<Step>, events: seq<Envelope>)
    requires AllEmits(live) && AllLive(events)
    ensures AllEmits(live + [Emit(events)])
  {
  }

  lemma {:induction false} HearOneLive(h: Heard, e: ProviderEvent)
    requires AllEmits(h.live)
    ensures AllEmits(HearOne(h, e).live)
  {
    if !h.broke && !(e.BlockStop? && Unreadable(e.block)) {
      NumbersAreConsecutive(h.norm, e);
      var out := MapEvent(h.norm, e).1;
      SortOut(out);
      var seen := Notice(h, e);
      if e.MessageDelta? {
        MoreLive(h.live, [Mint(h.norm, ContextUsage, System, Spend(e.usage)).1]);
      }
      assert AllEmits(seen.live);
      if out != [] && Ephemeral(out[0].etype) {
        MoreLive(seen.live, out);
      } else {
        assert seen.live + [] == seen.live;
      }
    }
  }

  lemma {:induction false} EmitsKeep(spec: Spec, origin: State, l: Loop, live: seq<Step>, norm: Norm)
    requires Sound(spec, origin, l) && AllEmits(live) && norm.seqNo >= l.norm.seqNo
    ensures Sound(spec, origin, l.(norm := norm, journal := l.journal + live))
    decreases |live|
  {
    if live == [] {
      assert l.journal + live == l.journal;
    } else {
      var init, last := live[..|live| - 1], live[|live| - 1];
      EmitsKeep(spec, origin, l, init, norm);
      DoQuiet(spec, origin, l.(norm := norm, journal := l.journal + init), last);
      assert l.journal + live == (l.journal + init) + [last];
    }
  }

  // --- Dispatching ------------------------------------------------------------------------------------

  /** The log grew, and not by a snapshot. */
  predicate Extends(a: seq<Entry>, b: seq<Entry>) {
    a <= b && forall i :: |a| <= i < |b| ==> b[i].etype != RequestHeader
  }

  /** What the model is told of a call. */
  function Answer(spec: Spec, turn: Turn, call: Call): Outcome {
    World.Outcomes(spec, turn, call.index, call.name)
  }

  function AnswerOf(spec: Spec, turn: Turn, call: Call): Entry {
    AnswerEntry(spec.runId, call, Answer(spec, turn, call).text, !Answer(spec, turn, call).ok)
  }

  /** The call's answer reaches the surface, unless its id was answered before; nothing else does. */
  ghost predicate AddsAnswer(a: seq<Entry>, b: seq<Entry>, run: string, id: string, answer: Entry) {
    && Extends(a, b)
    && OnSurface(b) == (if Answered(a, run, id) then OnSurface(a) else OnSurface(a) + [answer])
    && Answered(b, run, id)
    && forall other :: other != id ==> (Answered(b, run, other) <==> Answered(a, run, other))
  }

  lemma {:induction false} AddedPlain(a: seq<Entry>, es: seq<Entry>, run: string)
    requires forall i :: 0 <= i < |es| ==> es[i].key.None? && !es[i].onSurface && es[i].etype != RequestHeader
    ensures Extends(a, a + es) && OnSurface(a + es) == OnSurface(a)
    ensures forall id :: Answered(a + es, run, id) <==> Answered(a, run, id)
  {
    OnSurfaceConcat(a, es);
    NoneOnSurface(es);
    AnsweredStays(a, es, run);
  }

  lemma {:induction false} AddedOne(a: seq<Entry>, run: string, id: string, answer: Entry)
    requires Answers(answer, run, id) && answer.onSurface && answer.etype != RequestHeader
    ensures Extends(a, a + [answer]) && OnSurface(a + [answer]) == OnSurface(a) + [answer]
    ensures Answered(a + [answer], run, id)
    ensures forall other :: other != id ==> (Answered(a + [answer], run, other) <==> Answered(a, run, other))
  {
    OnSurfaceConcat(a, [answer]);
    assert [answer][1..] == [] && OnSurface([answer]) == [answer];
    assert (a + [answer])[|a|] == answer;
    forall other ensures Answered(a, run, other) ==> Answered(a + [answer], run, other) {
      if Answered(a, run, other) {
        StillAnswered(a, a + [answer], run, other);
      }
    }
  }

  lemma {:induction false} AddedAnswer(a: seq<Entry>, es: seq<Entry>, run: string, id: string, answer: Entry)
    requires forall i :: 0 <= i < |es| ==> es[i].key.None? && !es[i].onSurface && es[i].etype != RequestHeader
    requires Answers(answer, run, id) && answer.onSurface && answer.etype != RequestHeader
    ensures AddsAnswer(a, if Answered(a, run, id) then a + es else a + (es + [answer]), run, id, answer)
  {
    AddedPlain(a, es, run);
    if !Answered(a, run, id) {
      AddedOne(a + es, run, id, answer);
      assert a + (es + [answer]) == a + es + [answer];
    }
  }

  lemma {:induction false} NoneOnSurface(es: seq<Entry>)
    requires forall i :: 0 <= i < |es| ==> !es[i].onSurface
    ensures OnSurface(es) == []
    decreases |es|
  {
    if es != [] {
      NoneOnSurface(es[1..]);
    }
  }

  lemma {:induction false} ProperAnswer(run: string, call: Call, text: string, isError: bool)
    requires call.key == ToolKey(call.toolUseId)
    ensures var e := AnswerEntry(run, call, text, isError);
      Proper(e, call.toolUseId) && Answers(e, run, call.toolUseId)
  {
  }

  lemma {:induction false} NoiseNumbers(n: Norm, id: string, noise: seq<Noise>)
    ensures var (m, out) := MintNoise(n, id, noise);
      && Consecutive(out, n.seqNo) && m.seqNo == n.seqNo + |out| && m == n.(seqNo := m.seqNo)
      && forall i :: 0 <= i < |out| ==> out[i].etype == TerminalOutput || out[i].etype == FileChanged
    decreases |noise|
  {
    if noise != [] {
      NoiseNumbers(n, id, noise[..|noise| - 1]);
    }
  }

  /** The call, whatever its status. */
  predicate IsCall(position: seq<Call>, at: nat, call: Call) {
    at < |position| && call == position[at].(status := call.status) && position[at].status != Completed
  }

  lemma {:induction false} AnswerIsTidy(spec: Spec, stepId: StepId, position: seq<Call>, at: nat, call: Call, events: seq<Envelope>, o: Outcome)
    requires Indexed(position) && IsCall(position, at, call)
    ensures Tidy(spec.runId, Some(Tools(stepId, position)), AnswerTx(spec, stepId, position, call, events, o))
  {
    var tx := AnswerTx(spec, stepId, position, call, events, o);
    ProperAnswer(spec.runId, call, o.text, !o.ok);
    assert Brings(tx.entries, spec.runId, position[at].toolUseId);
    assert AdvancesAt(spec.runId, position, WithCallStatus(position, at, Completed), tx.entries, at);
  }

  /** A call's last transaction, whichever way it went. */
  lemma {:induction false} AnswerFiles(spec: Spec, origin: State, l: Loop, m: Loop, stepId: StepId, position: seq<Call>, at: nat, call: Call, events: seq<Envelope>, o: Outcome)
    requires Sound(spec, origin, l) && Stands(spec, l, Tools(stepId, position)) && Indexed(position) && IsCall(position, at, call)
    requires Consecutive(events, l.norm.seqNo) && NoHeaders(events)
    requires m.rec == l.rec && m.journal == l.journal && m.norm.seqNo == l.norm.seqNo + |events|
    ensures var r := File(spec, m, AnswerTx(spec, stepId, position, call, events, o));
      && Sound(spec, origin, r) && Stands(spec, r, Tools(stepId, WithCallStatus(position, at, Completed)))
      && r.rec.usage == l.rec.usage
      && AddsAnswer(l.rec.entries, r.rec.entries, spec.runId, call.toolUseId, AnswerEntry(spec.runId, call, o.text, !o.ok))
  {
    var es, answer := Plain(spec.runId, events), AnswerEntry(spec.runId, call, o.text, !o.ok);
    AnswerIsTidy(spec, stepId, position, at, call, events, o);
    FileAnswer(spec, origin, l, m.norm, AnswerTx(spec, stepId, position, call, events, o), es, answer, call.toolUseId);
    AddedAnswer(l.rec.entries, es, spec.runId, call.toolUseId, answer);
  }

  lemma {:induction false} Answering(spec: Spec, origin: State, l: Loop, m: Loop, stepId: StepId, position: seq<Call>, at: nat, call: Call, events: seq<Envelope>, o: Outcome)
    requires Sound(spec, origin, l) && Stands(spec, l, Tools(stepId, position)) && Indexed(position) && IsCall(position, at, call)
    requires Consecutive(events, l.norm.seqNo) && NoHeaders(events)
    requires m.rec == l.rec && m.journal == l.journal && m.norm.seqNo == l.norm.seqNo + |events|
    ensures var r := Tell(File(spec, m, AnswerTx(spec, stepId, position, call, events, o)), events);
      && Sound(spec, origin, r) && Stands(spec, r, Tools(stepId, WithCallStatus(position, at, Completed)))
      && r.rec.usage == l.rec.usage && l.journal <= r.journal && r == m.(rec := r.rec, journal := r.journal)
      && AddsAnswer(l.rec.entries, r.rec.entries, spec.runId, call.toolUseId, AnswerEntry(spec.runId, call, o.text, !o.ok))
  {
    AnswerFiles(spec, origin, l, m, stepId, position, at, call, events, o);
    DoQuiet(spec, origin, File(spec, m, AnswerTx(spec, stepId, position, call, events, o)), Emit(events));
  }

  lemma {:induction false} RefuseCallKeeps(spec: Spec, origin: State, l: Loop, stepId: StepId, position: seq<Call>, at: nat, call: Call, reason: string)
    requires Sound(spec, origin, l) && Stands(spec, l, Tools(stepId, position)) && Indexed(position) && IsCall(position, at, call)
    ensures var m := RefuseCall(spec, l, stepId, position, call, reason);
      && Sound(spec, origin, m) && Stands(spec, m, Tools(stepId, WithCallStatus(position, at, Completed)))
      && AddsAnswer(l.rec.entries, m.rec.entries, spec.runId, call.toolUseId, AnswerEntry(spec.runId, call, reason, true))
      && Dispatched(l, m)
  {
    var (n, e) := Mint(l.norm, ToolRefused, System, Tool(call.toolUseId));
    Answering(spec, origin, l, l.(norm := n), stepId, position, at, call, [e], Outcome(false, reason));
  }

  lemma {:induction false} StartCallKeeps(spec: Spec, origin: State, l: Loop, stepId: StepId, position: seq<Call>, at: nat, input: Option<Value>, gate: Gate)
    requires Sound(spec, origin, l) && Stands(spec, l, Tools(stepId, position)) && Indexed(position)
    requires at < |position| && position[at].status == Planned
    ensures var m := StartCall(spec, l, stepId, position, position[at], input, gate);
      && Sound(spec, origin, m) && Stands(spec, m, Tools(stepId, WithCallStatus(position, at, EffectPending)))
      && m.rec.entries == l.rec.entries && m.rec.usage == l.rec.usage
      && m == l.(rec := m.rec, journal := m.journal) && l.journal <= m.journal
  {
    var call := position[at];
    ClearKeeps(spec, origin, l, stepId, position, at, OrNull(input));
    if spec.knows(call.name) {
      BeginKeeps(spec, origin, l, ClearTx(stepId, position, call, OrNull(input)), WithCallStatus(position, at, EffectPending), at,
                 OrNull(EffectiveInput(gate, input)));
    }
  }

  /** The call is cleared: its arguments and its mark. */
  function ClearTx(stepId: StepId, position: seq<Call>, call: Call, args: Value): Tx {
    Filing([]).(args := Some(Args(stepId, call.index, args)),
                position := Some(Tools(stepId, WithCallStatus(position, call.index, EffectPending))))
  }

  lemma {:induction false} ClearKeeps(spec: Spec, origin: State, l: Loop, stepId: StepId, position: seq<Call>, at: nat, args: Value)
    requires Sound(spec, origin, l) && Stands(spec, l, Tools(stepId, position)) && Indexed(position)
    requires at < |position| && position[at].status == Planned
    ensures var m := File(spec, l, ClearTx(stepId, position, position[at], args));
      && Sound(spec, origin, m) && Stands(spec, m, Tools(stepId, WithCallStatus(position, at, EffectPending)))
      && m.rec.entries == l.rec.entries && m.rec.usage == l.rec.usage
  {
    var tx := ClearTx(stepId, position, position[at], args);
    assert AdvancesAt(spec.runId, position, WithCallStatus(position, at, EffectPending), tx.entries, at);
    FilePlain(spec, origin, l, l.norm, tx);
    assert l.(norm := l.norm) == l;
  }

  lemma {:induction false} BeginKeeps(spec: Spec, origin: State, l: Loop, tx: Tx, pending: seq<Call>, at: nat, input: Value)
    requires at < |pending| && pending[at].status == EffectPending
    requires var m := File(spec, l, tx);
      && Sound(spec, origin, m) && tx.position.Some? && tx.position.value.Tools? && tx.position.value.calls == pending
      && Stands(spec, m, tx.position.value)
    requires JustCleared(spec.runId, origin, l.journal + [Step.Commit(Writes(spec.runId, tx))], at)
    ensures var m := Do(File(spec, l, tx), Began(pending[at].toolUseId, input));
      Sound(spec, origin, m) && m.rec == File(spec, l, tx).rec
  {
    DoQuiet(spec, origin, File(spec, l, tx), Began(pending[at].toolUseId, input));
  }

  /** What dispatching leaves of the loop's other fields. */
  predicate Dispatched(l: Loop, m: Loop) {
    && m.rec.usage == l.rec.usage && l.journal <= m.journal
    && m == l.(rec := m.rec, journal := m.journal, norm := m.norm, repeated := m.repeated, tried := m.tried)
  }

  lemma {:induction false} CallEventsNumbers(spec: Spec, n: Norm, call: Call, effect: Effect)
    ensures var (m, events) := CallEvents(spec, n, call, effect);
      Consecutive(events, n.seqNo) && m.seqNo == n.seqNo + |events| && NoHeaders(events)
  {
    NoiseNumbers(n, call.toolUseId, if spec.knows(call.name) then effect.noise else []);
  }

  lemma {:induction false} AnswerCallKeeps(spec: Spec, origin: State, l: Loop, stepId: StepId, position: seq<Call>, at: nat, call: Call, input: Option<Value>, effect: Effect)
    requires Sound(spec, origin, l) && Stands(spec, l, Tools(stepId, position)) && Indexed(position) && IsCall(position, at, call)
    ensures var m := AnswerCall(spec, l, stepId, position, call, input, effect);
      var told := Told(spec, call.name, effect);
      && Sound(spec, origin, m) && Stands(spec, m, Tools(stepId, WithCallStatus(position, at, Completed)))
      && AddsAnswer(l.rec.entries, m.rec.entries, spec.runId, call.toolUseId,
                    AnswerEntry(spec.runId, call, told.text, !told.ok))
      && Dispatched(l, m)
  {
    var told := Told(spec, call.name, effect);
    var (n, events) := CallEvents(spec, l.norm, call, effect);
    CallEventsNumbers(spec, l.norm, call, effect);
    var l1 := Noted(l, FailureKey(spec.codec, call.name, input), call.name, told).(norm := n);
    Answering(spec, origin, l, l1, stepId, position, at, call, events, told);
  }

  lemma {:induction false} DispatchOneKeeps(spec: Spec, origin: State, turn: Turn, l: Loop, stepId: StepId, position: seq<Call>, at: nat, calls: seq<ToolCall>)
    requires Sound(spec, origin, l) && Stands(spec, l, Tools(stepId, position)) && Indexed(position)
    requires at < |position| && position[at].status == Planned
    ensures var m := DispatchOne(spec, turn, l, stepId, position, position[at], calls);
      && Sound(spec, origin, m) && Stands(spec, m, Tools(stepId, WithCallStatus(position, at, Completed)))
      && AddsAnswer(l.rec.entries, m.rec.entries, spec.runId, position[at].toolUseId, AnswerOf(spec, turn, position[at]))
      && Dispatched(l, m)
  {
    var call := position[at];
    var effect := turn.effects(call.index);
    var input := InputOf(calls, call.toolUseId);
    if effect.gate.Refused? {
      RefuseCallKeeps(spec, origin, l, stepId, position, at, call, effect.gate.reason);
    } else {
      AllowedKeeps(spec, origin, l, stepId, position, at, call, input, effect);
    }
  }

  lemma {:induction false} AllowedKeeps(spec: Spec, origin: State, l: Loop, stepId: StepId, position: seq<Call>, at: nat, call: Call, input: Option<Value>, effect: Effect)
    requires Sound(spec, origin, l) && Stands(spec, l, Tools(stepId, position)) && Indexed(position)
    requires at < |position| && call == position[at] && call.status == Planned
    ensures var pending := WithCallStatus(position, call.index, EffectPending);
      var m := AnswerCall(spec, StartCall(spec, l, stepId, position, call, input, effect.gate), stepId, pending, call, input, effect);
      var told := Told(spec, call.name, effect);
      && Sound(spec, origin, m) && Stands(spec, m, Tools(stepId, WithCallStatus(position, at, Completed)))
      && AddsAnswer(l.rec.entries, m.rec.entries, spec.runId, call.toolUseId, AnswerEntry(spec.runId, call, told.text, !told.ok))
      && Dispatched(l, m)
  {
    StartCallKeeps(spec, origin, l, stepId, position, at, input, effect.gate);
    var pending := WithCallStatus(position, at, EffectPending);
    assert WithCallStatus(pending, at, Completed) == WithCallStatus(position, at, Completed);
    AnswerCallKeeps(spec, origin, StartCall(spec, l, stepId, position, call, input, effect.gate), stepId, pending, at, call, input, effect);
  }

  predicate AllDone(spec: Spec, l: Loop) {
    match PositionOf(l.rec, spec.runId)
    case Some(Tools(_, calls)) => AllIn(calls, Completed)
    case _ => false
  }

  lemma {:induction false} DispatchKeeps(spec: Spec, origin: State, turn: Turn, l: Loop, stepId: StepId, position: seq<Call>, calls: seq<ToolCall>, at: nat)
    requires Sound(spec, origin, l) && Stands(spec, l, Tools(stepId, position)) && Indexed(position) && at <= |position|
    requires AllIn(position[..at], Completed) && AllIn(position[at..], Planned)
    ensures var m := Dispatch(spec, turn, l, stepId, position, calls, at);
      Sound(spec, origin, m) && Dispatched(l, m) && Extends(l.rec.entries, m.rec.entries) && AllDone(spec, m)
    decreases |position| - at
  {
    if at == |position| {
      assert position[..at] == position;
    } else {
      NextCalls(position, at);
      DispatchOneKeeps(spec, origin, turn, l, stepId, position, at, calls);
      var l1 := DispatchOne(spec, turn, l, stepId, position, position[at], calls);
      DispatchKeeps(spec, origin, turn, l1, stepId, WithCallStatus(position, at, Completed), calls, at + 1);
    }
  }

  lemma {:induction false} NextCalls(position: seq<Call>, at: nat)
    requires at < |position| && Indexed(position)
    requires AllIn(position[..at], Completed) && AllIn(position[at..], Planned)
    ensures var next := WithCallStatus(position, at, Completed);
      && position[at].status == Planned && position[at..][0] == position[at]
      && next[at + 1..] == position[at..][1..]
      && AllIn(next[..at + 1], Completed) && AllIn(next[at + 1..], Planned)
  {
  }

  // --- Settling a turn ----------------------------------------------------------------------------------

  /** The entry that puts a turn's blocks on the surface, if there is one. */
  function CarrierEntries(run: string, h: Heard): seq<Entry> {
    match Carrier(h.durable)
    case None => []
    case Some(i) => [EntryFor(run, h.durable[i], Some(h.blocks))]
  }

  lemma {:induction false} CarriedOnSurface(run: string, events: seq<Envelope>, blocks: seq<Value>)
    ensures OnSurface(Carried(run, events, blocks)) ==
      match Carrier(events) case None => [] case Some(i) => [EntryFor(run, events[i], Some(blocks))]
  {
    var es := Carried(run, events, blocks);
    match Carrier(events)
    case None => NoneOnSurface(es);
    case Some(i) => OnlyOneOnSurface(es, i);
  }

  lemma {:induction false} OnlyOneOnSurface(es: seq<Entry>, i: nat)
    requires i < |es| && forall j :: 0 <= j < |es| ==> (es[j].onSurface <==> j == i)
    ensures OnSurface(es) == [es[i]]
  {
    assert es == es[..i] + [es[i]] + es[i + 1..];
    OnSurfaceConcat(es[..i] + [es[i]], es[i + 1..]);
    OnSurfaceConcat(es[..i], [es[i]]);
    NoneOnSurface(es[..i]);
    NoneOnSurface(es[i + 1..]);
    AllOnSurface([es[i]]);
  }

  /** A heard turn, standing where its request's intent left it: `from` is the last number taken before it. */
  ghost predicate HeardOut(spec: Spec, origin: State, l: Loop, h: Heard, from: nat, usageId: nat) {
    && l.rec == Replay(origin, l.journal) && Lawful(spec.runId, origin, l.journal)
    && Ahead(l.rec.entries, spec.runId, from) && Consecutive(h.durable, from)
    && l.norm.seqNo == from + |h.durable|
    && NoHeaders(h.durable)
    && PositionOf(l.rec, spec.runId).Some? && PositionOf(l.rec, spec.runId).value.RequestPending?
    && usageId == NextUsageId(l.rec.usage)
  }

  function Rows(spec: Spec, h: Heard, usageId: nat, boundary: nat): seq<UsageRow> {
    if h.reported then [UsageRow(usageId, spec.runId, boundary, h.usage)] else []
  }

  lemma {:induction false} RowIsNew(rows: seq<UsageRow>, usageId: nat)
    requires usageId == NextUsageId(rows)
    ensures forall i :: 0 <= i < |rows| ==> rows[i].id != usageId
  {
    forall i | 0 <= i < |rows| ensures rows[i].id != usageId {
      HighestIsHighest(rows, i);
    }
  }

  lemma {:induction false} HighestIsHighest(rows: seq<UsageRow>, i: nat)
    requires i < |rows|
    ensures rows[i].id <= HighestUsageId(rows)
    decreases |rows|
  {
    if i > 0 {
      HighestIsHighest(rows[1..], i - 1);
    }
  }

  /** The settlement: every event lands, one of them with the turn's blocks, and one usage row or none. */
  lemma {:induction false} SettleTxKeeps(spec: Spec, origin: State, l: Loop, h: Heard, from: nat, usageId: nat, boundary: nat, next: Position)
    requires HeardOut(spec, origin, l, h, from, usageId)
    requires next == Record.Checkpoint || (next.Tools? && Indexed(next.calls) && AllIn(next.calls, Planned))
    ensures var m := PutDown(spec, l, h, usageId, boundary, next);
      && Sound(spec, origin, m) && Stands(spec, m, next) && Extends(l.rec.entries, m.rec.entries)
      && OnSurface(m.rec.entries) == OnSurface(l.rec.entries) + CarrierEntries(spec.runId, h)
      && m.rec.usage == l.rec.usage + Rows(spec, h, usageId, boundary)
      && m == l.(rec := m.rec, journal := m.journal) && l.journal <= m.journal
  {
    var tx := SettleTx(spec, h, usageId, boundary, next);
    SettleFiles(spec, origin, l, h, from, usageId, boundary, next);
    DoQuiet(spec, origin, File(spec, l, tx), Emit(h.durable));
  }

  lemma {:induction false} SettleFiles(spec: Spec, origin: State, l: Loop, h: Heard, from: nat, usageId: nat, boundary: nat, next: Position)
    requires HeardOut(spec, origin, l, h, from, usageId)
    requires next == Record.Checkpoint || (next.Tools? && Indexed(next.calls) && AllIn(next.calls, Planned))
    ensures var m := File(spec, l, SettleTx(spec, h, usageId, boundary, next));
      && Sound(spec, origin, m) && Stands(spec, m, next) && Extends(l.rec.entries, m.rec.entries)
      && OnSurface(m.rec.entries) == OnSurface(l.rec.entries) + CarrierEntries(spec.runId, h)
      && m.rec.usage == l.rec.usage + Rows(spec, h, usageId, boundary)
  {
    var tx := SettleTx(spec, h, usageId, boundary, next);
    FilePlain(spec, origin, l.(norm := l.norm.(seqNo := from)), l.norm, tx);
    CarriedAdds(spec, l.rec.entries, h, tx.entries);
    SettleLands(spec, l.rec, h, usageId, boundary, next);
  }

  lemma {:induction false} SettleLands(spec: Spec, s: State, h: Heard, usageId: nat, boundary: nat, next: Position)
    requires usageId == NextUsageId(s.usage)
    ensures var r := Landed(s, spec.runId, SettleTx(spec, h, usageId, boundary, next));
      PositionOf(r, spec.runId) == Some(next) && r.usage == s.usage + Rows(spec, h, usageId, boundary)
  {
    RowIsNew(s.usage, usageId);
  }

  lemma {:induction false} CarriedAdds(spec: Spec, entries: seq<Entry>, h: Heard, es: seq<Entry>)
    requires es == Carried(spec.runId, h.durable, h.blocks) && NoHeaders(h.durable)
    ensures OnSurface(entries + es) == OnSurface(entries) + CarrierEntries(spec.runId, h) && Extends(entries, entries + es)
  {
    CarriedOnSurface(spec.runId, h.durable, h.blocks);
    OnSurfaceConcat(entries, es);
  }

  /** What a turn does to the loop, once its request was sent: numbers are kept, the log grows by no
      snapshot, the ledger by at most the one row given. */
  ghost predicate Proceeds(spec: Spec, origin: State, l: Loop, m: Loop, rows: seq<UsageRow>) {
    && Sound(spec, origin, m) && Extends(l.rec.entries, m.rec.entries) && l.journal <= m.journal
    && m.rec.usage == l.rec.usage + rows && m.lastSnapshot == l.lastSnapshot
    && Rests(spec, m)
  }

  /** Between turns the run stands at its checkpoint. Once ended it stands at that ending, and the last
      entry says what it has spent. */
  predicate Rests(spec: Spec, m: Loop) {
    if m.ended.Some? then
      && PositionOf(m.rec, spec.runId) == Some(Terminal(m.ended.value.outcome))
      && |m.rec.entries| > 0 && m.rec.entries[|m.rec.entries| - 1].payload == Spend(m.usage)
    else Stands(spec, m, Record.Checkpoint)
  }

  lemma {:induction false} EndProceeds(spec: Spec, origin: State, l: Loop, etype: EventType, actor: Actor, outcome: Ending, reason: Option<string>, turns: nat)
    requires Sound(spec, origin, l) && Quiescent(spec, l) && !Ephemeral(etype) && etype != RequestHeader
    ensures var m := End(spec, l, etype, actor, outcome, reason, turns);
      && Proceeds(spec, origin, l, m, []) && m.usage == l.usage
      && OnSurface(m.rec.entries) == OnSurface(l.rec.entries)
  {
    EndKeeps(spec, origin, l, etype, actor, outcome, reason, turns);
    var m := End(spec, l, etype, actor, outcome, reason, turns);
    AddedPlain(l.rec.entries, m.rec.entries[|l.rec.entries|..], spec.runId);
    assert m.rec.entries == l.rec.entries + m.rec.entries[|l.rec.entries|..];
    assert m.rec.usage == l.rec.usage + [];
  }

  lemma {:induction false} BrokenKeeps(spec: Spec, origin: State, turn: Turn, l: Loop)
    requires Sound(spec, origin, l) && Quiescent(spec, l)
    ensures var m := Broken(spec, turn, l);
      Proceeds(spec, origin, l, m, []) && m.ended.Some? && m.usage == l.usage
      && OnSurface(m.rec.entries) == OnSurface(l.rec.entries)
  {
    var (n, e) := Mint(l.norm, ProviderError, System, NoPayload);
    var l1 := l.(norm := n);
    assert Sound(spec, origin, l1);
    if turn.abortedDuring {
      EndProceeds(spec, origin, l1, RunInterrupted, UserActor(spec), Interrupted, None, 0);
    } else {
      DoQuiet(spec, origin, l1, Emit([e]));
      EndProceeds(spec, origin, Tell(l1, [e]), RunFailed, System, Failed, Some(turn.fault), 0);
    }
  }

  lemma {:induction false} PromptNumbers(spec: Spec, n: Norm, messages: seq<string>)
    ensures var (m, out) := MintPrompts(spec, n, messages);
      && Consecutive(out, n.seqNo) && |out| == |messages| && m.seqNo == n.seqNo + |out|
      && forall i :: 0 <= i < |out| ==> out[i].etype == UserPrompt && out[i].actor == UserActor(spec)
    decreases |messages|
  {
    if messages != [] {
      PromptNumbers(spec, n, messages[..|messages| - 1]);
    }
  }

  function PromptEntries(spec: Spec, l: Loop): seq<Entry> {
    OnePromptEach(spec, l.norm, l.inbox);
    Prompts(spec.runId, MintPrompts(spec, l.norm, l.inbox).1, l.inbox)
  }

  lemma {:induction false} AllOnSurface(es: seq<Entry>)
    requires forall i :: 0 <= i < |es| ==> es[i].onSurface
    ensures OnSurface(es) == es
    decreases |es|
  {
    if es != [] {
      AllOnSurface(es[1..]);
    }
  }

  lemma {:induction false} FollowUpKeeps(spec: Spec, origin: State, l: Loop)
    requires Sound(spec, origin, l) && Stands(spec, l, Record.Checkpoint) && l.ended.None?
    ensures var m := FollowUp(spec, l);
      && Proceeds(spec, origin, l, m, []) && m.usage == l.usage
      && m.ended.None? && m.inbox == [] && m.attempt == 0 && m.repeated == l.repeated
      && m.rec.entries == l.rec.entries + PromptEntries(spec, l)
      && OnSurface(m.rec.entries) == OnSurface(l.rec.entries) + PromptEntries(spec, l)
  {
    var (n, events) := MintPrompts(spec, l.norm, l.inbox);
    FollowUpFiles(spec, origin, l);
    var l1 := File(spec, l.(norm := n, inbox := []), Filing(PromptEntries(spec, l)).(position := Some(Record.Checkpoint)));
    DoQuiet(spec, origin, l1, Emit(events));
    assert l1.rec.usage + [] == l1.rec.usage;
  }

  lemma {:induction false} FollowUpFiles(spec: Spec, origin: State, l: Loop)
    requires Sound(spec, origin, l) && Stands(spec, l, Record.Checkpoint)
    ensures var (n, events) := MintPrompts(spec, l.norm, l.inbox);
      var m := File(spec, l.(norm := n, inbox := []), Filing(PromptEntries(spec, l)).(position := Some(Record.Checkpoint)));
      && Sound(spec, origin, m) && Stands(spec, m, Record.Checkpoint) && m.rec.usage == l.rec.usage
      && m.rec.entries == l.rec.entries + PromptEntries(spec, l) && Extends(l.rec.entries, m.rec.entries)
      && OnSurface(m.rec.entries) == OnSurface(l.rec.entries) + PromptEntries(spec, l)
  {
    var (n, events) := MintPrompts(spec, l.norm, l.inbox);
    PromptNumbers(spec, l.norm, l.inbox);
    var es := PromptEntries(spec, l);
    FilePlain(spec, origin, l, n, Filing(es).(position := Some(Record.Checkpoint)));
    OnSurfaceConcat(l.rec.entries, es);
    AllOnSurface(es);
  }

  lemma {:induction false} CloseKeeps(spec: Spec, origin: State, l: Loop)
    requires Sound(spec, origin, l) && AllDone(spec, l) && l.ended.None?
    ensures var m := Close(spec, l);
      && Proceeds(spec, origin, l, m, []) && m.usage == l.usage && OnSurface(m.rec.entries) == OnSurface(l.rec.entries)
      && (m.ended.Some? <==> Stuck(l.repeated)) && m.repeated == l.repeated && m.tried == l.tried
      && (m.ended.None? ==> m.rec.entries == l.rec.entries && m.inbox == l.inbox && m.attempt == 0)
  {
    var tx := Filing([]).(position := Some(Record.Checkpoint));
    FilePlain(spec, origin, l, l.norm, tx);
    assert l.(norm := l.norm) == l;
    var l1 := File(spec, l, tx);
    assert l1.rec.usage == l.rec.usage + [];
    if Stuck(l.repeated) {
      EndProceeds(spec, origin, l1, RunFailed, System, Failed, Some("api_error"), 0);
    }
  }

  lemma {:induction false} PlanKeeps(spec: Spec, origin: State, l: Loop, h: Heard, from: nat, usageId: nat, boundary: nat)
    requires HeardOut(spec, origin, l, h, from, usageId)
    ensures var m := PlanCallsFor(spec, l, h, usageId, boundary);
      var planned := PlanCalls(Proposed(spec, h.calls));
      && Sound(spec, origin, m) && Stands(spec, m, Tools(StepId(spec.runId, l.norm.seqNo), planned))
      && Indexed(planned) && AllIn(planned[..0], Completed) && AllIn(planned[0..], Planned)
      && Extends(l.rec.entries, m.rec.entries)
      && OnSurface(m.rec.entries) == OnSurface(l.rec.entries) + CarrierEntries(spec.runId, h)
      && m.rec.usage == l.rec.usage + Rows(spec, h, usageId, boundary)
      && m == l.(rec := m.rec, journal := m.journal) && l.journal <= m.journal
  {
    var planned := PlanCalls(Proposed(spec, h.calls));
    SettleTxKeeps(spec, origin, l, h, from, usageId, boundary, Tools(StepId(spec.runId, l.norm.seqNo), planned));
  }

  lemma {:induction false} UseToolsKeeps(spec: Spec, origin: State, turn: Turn, l: Loop, h: Heard, from: nat, usageId: nat, boundary: nat)
    requires HeardOut(spec, origin, l, h, from, usageId) && l.ended.None?
    ensures var m := UseTools(spec, turn, l, h, usageId, boundary);
      && Proceeds(spec, origin, l, m, Rows(spec, h, usageId, boundary)) && m.usage == l.usage
  {
    PlanKeeps(spec, origin, l, h, from, usageId, boundary);
    PlannedKeeps(spec, origin, turn, l, PlanCallsFor(spec, l, h, usageId, boundary), StepId(spec.runId, l.norm.seqNo),
                 PlanCalls(Proposed(spec, h.calls)), h.calls, Rows(spec, h, usageId, boundary));
  }

  lemma {:induction false} PlannedKeeps(spec: Spec, origin: State, turn: Turn, base: Loop, l: Loop, stepId: StepId, planned: seq<Call>,
                                        calls: seq<ToolCall>, rows: seq<UsageRow>)
    requires Sound(spec, origin, l) && Stands(spec, l, Tools(stepId, planned)) && Indexed(planned) && l.ended.None?
    requires AllIn(planned[..0], Completed) && AllIn(planned[0..], Planned)
    requires Extends(base.rec.entries, l.rec.entries) && l.rec.usage == base.rec.usage + rows
    requires l == base.(rec := l.rec, journal := l.journal) && base.journal <= l.journal
    ensures var m := Close(spec, DispatchAll(spec, turn, l, stepId, planned, calls));
      Proceeds(spec, origin, base, m, rows) && m.usage == base.usage
  {
    DispatchKeeps(spec, origin, turn, l, stepId, planned, calls, 0);
    ClosedKeeps(spec, origin, base, DispatchAll(spec, turn, l, stepId, planned, calls), rows);
  }

  lemma {:induction false} ClosedKeeps(spec: Spec, origin: State, base: Loop, l: Loop, rows: seq<UsageRow>)
    requires Sound(spec, origin, l) && AllDone(spec, l) && l.ended.None?
    requires Extends(base.rec.entries, l.rec.entries) && l.rec.usage == base.rec.usage + rows && base.journal <= l.journal
    requires l.lastSnapshot == base.lastSnapshot && l.usage == base.usage
    ensures Proceeds(spec, origin, base, Close(spec, l), rows) && Close(spec, l).usage == base.usage
  {
    CloseKeeps(spec, origin, l);
    assert l.rec.usage + [] == l.rec.usage;
  }

  lemma {:induction false} Three<T>(a: seq<T>, b: seq<T>, c: seq<T>)
    ensures a + b + c == a + (b + c)
  {
  }

  /** A settlement answers no call. */
  lemma {:induction false} SettlingAnswersNothing(spec: Spec, l: Loop, h: Heard, from: nat, usageId: nat, boundary: nat, next: Position)
    requires Ahead(l.rec.entries, spec.runId, from) && Consecutive(h.durable, from)
    ensures forall id :: Answered(PutDown(spec, l, h, usageId, boundary, next).rec.entries, spec.runId, id)
                         <==> Answered(l.rec.entries, spec.runId, id)
  {
    var tx := SettleTx(spec, h, usageId, boundary, next);
    ApplyTx(l.rec, spec.runId, tx);
    FiledStamped(l.rec.entries, tx.entries, spec.runId, from);
    AnsweredStays(l.rec.entries, tx.entries, spec.runId);
  }

  lemma {:induction false} AnsweredStays(a: seq<Entry>, es: seq<Entry>, run: string)
    requires forall i :: 0 <= i < |es| ==> es[i].key.None?
    ensures forall id :: Answered(a + es, run, id) <==> Answered(a, run, id)
  {
    forall id ensures Answered(a, run, id) ==> Answered(a + es, run, id) {
      if Answered(a, run, id) {
        StillAnswered(a, a + es, run, id);
      }
    }
  }
}
