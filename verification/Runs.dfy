/** Whole runs: the laws that hold of the record after any number of turns, however they went. */
module Runs {
  import opened Json
  import opened Contract
  import opened Record
  import opened Checkpoint
  import opened Journal
  import opened Normalize
  import opened RunLoop
  import opened Protocol
  import opened RunLaws
  import opened TurnLaws

  function Total(rows: seq<UsageRow>): Usage
    decreases |rows|
  {
    if rows == [] then ZERO_USAGE else AddUsage(Total(rows[..|rows| - 1]), rows[|rows| - 1].usage)
  }

  /** The row's boundary is where the log stood when a request was sent; and from there that request is rebuilt,
      exactly when what precedes the run's baseline changes no fold. */
  ghost predicate SentAt(spec: Spec, origin: State, l: Loop, row: UsageRow, k: nat) {
    && k < |l.journal| && l.journal[k].Sent? && row.boundary <= |l.rec.entries|
    && Replay(origin, l.journal[..k]).entries == l.rec.entries[..row.boundary]
    && RebuildsIfAlike(spec, l.rec.entries[..row.boundary], l.journal[k].request)
  }

  ghost predicate RowTells(spec: Spec, origin: State, l: Loop, row: UsageRow) {
    row.runId == spec.runId && exists k: nat :: SentAt(spec, origin, l, row, k)
  }

  ghost function Tells(spec: Spec, origin: State, l: Loop): UsageRow -> bool {
    row => RowTells(spec, origin, l, row)
  }

  predicate AllHold(p: UsageRow -> bool, from: nat, rows: seq<UsageRow>) {
    forall i :: from <= i < |rows| ==> p(rows[i])
  }

  ghost predicate MeteredBy(tells: UsageRow -> bool, before: seq<UsageRow>, rows: seq<UsageRow>, usage: Usage) {
    before <= rows && usage == Total(rows[|before|..]) && AllHold(tells, |before|, rows)
  }

  /** Every row of the run belongs to a request, and together they are what the loop has counted. */
  ghost predicate Metered(spec: Spec, origin: State, l: Loop) {
    MeteredBy(Tells(spec, origin, l), origin.usage, l.rec.usage, l.usage)
  }

  lemma {:induction false} RowStays(spec: Spec, origin: State, l: Loop, m: Loop, row: UsageRow)
    requires RowTells(spec, origin, l, row) && l.rec.entries <= m.rec.entries && l.journal <= m.journal
    ensures RowTells(spec, origin, m, row)
  {
    var k: nat :| SentAt(spec, origin, l, row, k);
    assert m.journal[..k] == l.journal[..k];
    assert m.rec.entries[..row.boundary] == l.rec.entries[..row.boundary];
    assert SentAt(spec, origin, m, row, k);
  }

  lemma {:induction false} MeteredStays(spec: Spec, origin: State, l: Loop, m: Loop)
    requires Metered(spec, origin, l) && l.rec.entries <= m.rec.entries && l.journal <= m.journal
    ensures MeteredBy(Tells(spec, origin, m), origin.usage, l.rec.usage, l.usage)
  {
    forall i | |origin.usage| <= i < |l.rec.usage| ensures Tells(spec, origin, m)(l.rec.usage[i]) {
      assert Tells(spec, origin, l)(l.rec.usage[i]);
      RowStays(spec, origin, l, m, l.rec.usage[i]);
    }
  }

  lemma {:induction false} MeteredByGrows(tells: UsageRow -> bool, before: seq<UsageRow>, rows: seq<UsageRow>, usage: Usage, more: seq<UsageRow>)
    requires MeteredBy(tells, before, rows, usage) && |more| <= 1 && (more != [] ==> tells(more[0]))
    ensures MeteredBy(tells, before, rows + more, if more == [] then usage else AddUsage(usage, more[0].usage))
  {
    TotalGrows(rows[|before|..], more);
    assert (rows + more)[|before|..] == rows[|before|..] + more;
  }

  lemma {:induction false} MeteredGrows(spec: Spec, origin: State, l: Loop, m: Loop, rows: seq<UsageRow>)
    requires Metered(spec, origin, l) && l.rec.entries <= m.rec.entries && l.journal <= m.journal
    requires m.rec.usage == l.rec.usage + rows && |rows| <= 1
    requires m.usage == (if rows == [] then l.usage else AddUsage(l.usage, rows[0].usage))
    requires rows != [] ==> Tells(spec, origin, m)(rows[0])
    ensures Metered(spec, origin, m)
  {
    MeteredStays(spec, origin, l, m);
    MeteredByGrows(Tells(spec, origin, m), origin.usage, l.rec.usage, l.usage, rows);
  }

  lemma {:induction false} TotalGrows(a: seq<UsageRow>, rows: seq<UsageRow>)
    requires |rows| <= 1
    ensures Total(a + rows) == if rows == [] then Total(a) else AddUsage(Total(a), rows[0].usage)
  {
    if rows == [] {
      assert a + rows == a;
    } else {
      assert (a + rows)[..|a|] == a;
    }
  }

  /** What is true of the loop between turns, and after the last. */
  ghost predicate Standing(spec: Spec, origin: State, l: Loop) {
    Sound(spec, origin, l) && HeaderKnown(spec, l) && Metered(spec, origin, l) && Rests(spec, l)
  }

  lemma {:induction false} ProceedsStands(spec: Spec, origin: State, l: Loop, m: Loop)
    requires Standing(spec, origin, l) && Proceeds(spec, origin, l, m, []) && m.usage == l.usage
    ensures Standing(spec, origin, m)
  {
    MeteredGrows(spec, origin, l, m, []);
    if l.lastSnapshot.Some? {
      HeaderStays(spec, l.rec.entries, m.rec.entries, l.lastSnapshot.value);
    }
  }

  lemma {:induction false} OpeningStands(spec: Spec, origin: State, inbox: seq<string>)
    requires Fresh(origin, spec.runId)
    ensures Standing(spec, origin, Opening(spec, Idle(origin, inbox)))
  {
    OpeningKeeps(spec, origin, inbox);
    var l := Opening(spec, Idle(origin, inbox));
    assert l.rec.usage[|origin.usage|..] == [];
  }

  lemma {:induction false} RefuseProceeds(spec: Spec, origin: State, l: Loop)
    requires Sound(spec, origin, l) && Stands(spec, l, Record.Checkpoint) && l.ended.None?
    ensures Proceeds(spec, origin, l, Refuse(spec, l), []) && Refuse(spec, l).usage == l.usage
  {
    var (n, e) := Mint(l.norm, ProviderError, System, NoPayload);
    var tx := Filing([EntryFor(spec.runId, e, None)]);
    SayKeeps(spec, origin, l, n, e, tx);
    var l1 := Tell(File(spec, l.(norm := n), tx), [e]);
    EndProceeds(spec, origin, l1, RunFailed, System, Failed, Some("refused"), 0);
    ProceedsTrans(spec, origin, l, l1, Fail(spec, l1, "refused"), []);
  }

  lemma {:induction false} SayKeeps(spec: Spec, origin: State, l: Loop, n: Norm, e: Envelope, tx: Tx)
    requires Sound(spec, origin, l) && Stands(spec, l, Record.Checkpoint)
    requires (n, e) == Mint(l.norm, ProviderError, System, NoPayload) && tx == Filing([EntryFor(spec.runId, e, None)])
    ensures var m := Tell(File(spec, l.(norm := n), tx), [e]);
      && Sound(spec, origin, m) && Stands(spec, m, Record.Checkpoint) && Extends(l.rec.entries, m.rec.entries)
      && m.rec.usage == l.rec.usage + [] && m == l.(norm := n, rec := m.rec, journal := m.journal) && l.journal <= m.journal
  {
    FilePlain(spec, origin, l, n, tx);
    DoQuiet(spec, origin, File(spec, l.(norm := n), tx), Emit([e]));
    assert l.rec.usage + [] == l.rec.usage;
  }

  lemma {:induction false} MeteredSame(spec: Spec, origin: State, l: Loop, m: Loop)
    requires Metered(spec, origin, l) && l.rec.entries <= m.rec.entries && l.journal <= m.journal
    requires m.rec.usage == l.rec.usage && m.usage == l.usage
    ensures Metered(spec, origin, m)
  {
    assert l.rec.usage + [] == l.rec.usage;
    MeteredGrows(spec, origin, l, m, []);
  }

  lemma {:induction false} IntendMeters(spec: Spec, origin: State, turn: Turn, l: Loop)
    requires Standing(spec, origin, l) && l.ended.None?
    ensures Metered(spec, origin, Intend(spec, turn, l, RequestFor(spec, l.rec)))
  {
    IntendKeeps(spec, origin, turn, l, RequestFor(spec, l.rec));
    MeteredSame(spec, origin, l, Intend(spec, turn, l, RequestFor(spec, l.rec)));
  }

  lemma {:induction false} IntendRebuilds(spec: Spec, origin: State, turn: Turn, l: Loop)
    requires Standing(spec, origin, l) && l.ended.None?
    ensures var request := RequestFor(spec, l.rec);
      var l1 := Intend(spec, turn, l, request);
      HeaderKnown(spec, l1) && RebuildsIfAlike(spec, l1.rec.entries, request)
  {
    var request := RequestFor(spec, l.rec);
    IntendKeeps(spec, origin, turn, l, request);
    IntendKnows(spec, origin, turn, l);
    RebuildAsked(spec, l.rec, Intend(spec, turn, l, request).rec.entries, SnapshotOf(spec, turn, request));
  }

  /** The request's intent is on the record, and nothing else has changed. */
  ghost predicate Pending(spec: Spec, origin: State, l: Loop, request: Request, usageId: nat) {
    && Sound(spec, origin, l) && HeaderKnown(spec, l) && Metered(spec, origin, l) && l.ended.None?
    && PositionOf(l.rec, spec.runId).Some? && PositionOf(l.rec, spec.runId).value.RequestPending?
    && usageId == NextUsageId(l.rec.usage)
    && RebuildsIfAlike(spec, l.rec.entries, request)
  }

  lemma {:induction false} IntendPends(spec: Spec, origin: State, turn: Turn, l: Loop)
    requires Standing(spec, origin, l) && l.ended.None?
    ensures var request := RequestFor(spec, l.rec);
      Pending(spec, origin, Intend(spec, turn, l, request), request, NextUsageId(l.rec.usage))
  {
    IntendKeeps(spec, origin, turn, l, RequestFor(spec, l.rec));
    IntendMeters(spec, origin, turn, l);
    IntendRebuilds(spec, origin, turn, l);
  }

  lemma {:induction false} AwaitStands(spec: Spec, origin: State, turn: Turn, l: Loop, request: Request, usageId: nat)
    requires Pending(spec, origin, l, request, usageId)
    ensures Standing(spec, origin, Await(spec, turn, l, request, usageId))
  {
    AwaitKeeps(spec, origin, turn, l, request, usageId);
    var rows := Recorded(spec, turn, Hear(l.norm, turn.stream), usageId, |l.rec.entries|);
    SendStands(spec, origin, l, Await(spec, turn, l, request, usageId), request, usageId, rows);
  }

  lemma {:induction false} SendStands(spec: Spec, origin: State, l: Loop, m: Loop, request: Request, usageId: nat, rows: seq<UsageRow>)
    requires Pending(spec, origin, l, request, usageId) && SendsAndProceeds(spec, origin, l, m, request, rows) && |rows| <= 1
    requires rows != [] ==> rows[0].runId == spec.runId && rows[0].boundary == |l.rec.entries|
    ensures Standing(spec, origin, m)
  {
    if rows != [] {
      assert m.journal[|l.journal|] == Sent(request) && m.journal[..|l.journal|] == l.journal;
      assert m.rec.entries[..|l.rec.entries|] == l.rec.entries;
      assert SentAt(spec, origin, m, rows[0], |l.journal|);
    }
    MeteredGrows(spec, origin, l, m, rows);
    if l.lastSnapshot.Some? {
      HeaderStays(spec, l.rec.entries, m.rec.entries, l.lastSnapshot.value);
    }
  }

  lemma {:induction false} TakeStands(spec: Spec, origin: State, turn: Turn, l: Loop)
    requires Standing(spec, origin, l) && l.ended.None?
    ensures Standing(spec, origin, Take(spec, turn, l))
  {
    if turn.abortedBefore {
      EndProceeds(spec, origin, l, RunInterrupted, UserActor(spec), Interrupted, None, 0);
      ProceedsStands(spec, origin, l, Interrupt(spec, l));
    } else {
      BeginStands(spec, origin, turn, l);
      AskStands(spec, origin, turn, BeginsTurn(turn, l));
    }
  }

  lemma {:induction false} BeginStands(spec: Spec, origin: State, turn: Turn, l: Loop)
    requires Standing(spec, origin, l)
    ensures Standing(spec, origin, BeginsTurn(turn, l))
  {
    MeteredStays(spec, origin, l, BeginsTurn(turn, l));
  }

  lemma {:induction false} AskStands(spec: Spec, origin: State, turn: Turn, l: Loop)
    requires Standing(spec, origin, l) && l.ended.None?
    ensures Standing(spec, origin, Ask(spec, turn, l))
  {
    if Refuses(spec, turn) {
      RefusedStands(spec, origin, l);
    } else {
      IntendPends(spec, origin, turn, l);
      AskedStands(spec, origin, turn, l, RequestFor(spec, l.rec));
    }
  }

  lemma {:induction false} RefusedStands(spec: Spec, origin: State, l: Loop)
    requires Standing(spec, origin, l) && l.ended.None?
    ensures Standing(spec, origin, Refuse(spec, l))
  {
    RefuseProceeds(spec, origin, l);
    ProceedsStands(spec, origin, l, Refuse(spec, l));
  }

  lemma {:induction false} AskedStands(spec: Spec, origin: State, turn: Turn, l: Loop, request: Request)
    requires Pending(spec, origin, Intend(spec, turn, l, request), request, NextUsageId(l.rec.usage))
    ensures Standing(spec, origin, SendOne(spec, turn, l, request))
  {
    AwaitStands(spec, origin, turn, Intend(spec, turn, l, request), request, NextUsageId(l.rec.usage));
  }

  lemma {:induction false} IterateStands(spec: Spec, origin: State, take: (nat, Loop) -> Loop, l: Loop, n: nat)
    requires Standing(spec, origin, l)
    requires forall i, b :: Standing(spec, origin, b) && b.ended.None? ==> Standing(spec, origin, take(i, b))
    ensures Standing(spec, origin, Iterate(take, l, n))
  {
    if n > 0 {
      IterateStands(spec, origin, take, l, n - 1);
    }
  }

  lemma {:induction false} TakingStands(spec: Spec, origin: State, world: nat -> Turn)
    ensures forall i, b :: Standing(spec, origin, b) && b.ended.None? ==> Standing(spec, origin, Taking(spec, world)(i, b))
  {
    forall i, b | Standing(spec, origin, b) && b.ended.None? ensures Standing(spec, origin, Taking(spec, world)(i, b)) {
      TakeStands(spec, origin, world(i), b);
    }
  }

  lemma {:induction false} TurnsStand(spec: Spec, origin: State, world: nat -> Turn, inbox: seq<string>, n: nat)
    requires Fresh(origin, spec.runId)
    ensures Standing(spec, origin, Turns(spec, world, Idle(origin, inbox), n))
  {
    OpeningStands(spec, origin, inbox);
    TakingStands(spec, origin, world);
    IterateStands(spec, origin, Taking(spec, world), Opening(spec, Idle(origin, inbox)), n);
  }

  /** A run stands after its last step too, and that step ended it. */
  lemma {:induction false} RunStands(spec: Spec, origin: State, world: nat -> Turn, inbox: seq<string>)
    requires Fresh(origin, spec.runId)
    ensures var m := Run(spec, world, Idle(origin, inbox));
      Standing(spec, origin, m) && m.ended.Some?
  {
    TurnsStand(spec, origin, world, inbox, MAX_TURNS);
    ExhaustStands(spec, origin, Turns(spec, world, Idle(origin, inbox), MAX_TURNS));
  }

  lemma {:induction false} ExhaustStands(spec: Spec, origin: State, l: Loop)
    requires Standing(spec, origin, l)
    ensures Standing(spec, origin, Exhaust(spec, l)) && Exhaust(spec, l).ended.Some?
  {
    if l.ended.None? {
      EndProceeds(spec, origin, l, RunFailed, System, Failed, Some("max_tokens"), 0);
      ProceedsStands(spec, origin, l, Fail(spec, l, "max_tokens"));
    }
  }
}
