/** The session record: an insert-only log of entries, a usage ledger, and the registers.
    One transaction is applied all-or-none, its writes in order. */
module Record {
  import opened Json
  import opened Contract

  /** What a settlement is filed under: a tool call's own id, or the identity of one
      request attempt (run, turn, attempt). Ordinary entries have none. */
  datatype SettlementKey =
    | ToolKey(toolUseId: string)
    | RequestKey(runId: string, turnId: string, attempt: nat)

  datatype Entry = Entry(
    runId: string,
    seqNo: Option<nat>,
    key: Option<SettlementKey>,
    etype: EventType,
    actor: Actor,
    payload: Payload,
    blocks: Option<seq<Value>>,
    onSurface: bool,
    emitted: bool)

  datatype ReplayPolicy = Safe | Never
  datatype CallStatus = Planned | EffectPending | Completed

  datatype Call = Call(
    index: nat,
    toolUseId: string,
    name: string,
    key: SettlementKey,
    replay: ReplayPolicy,
    status: CallStatus)

  /** `${runId}:${seq}` */
  datatype StepId = StepId(runId: string, at: nat)

  datatype Ending = Finished | Failed | Interrupted

  /** The durable program counter; every write replaces it whole. */
  datatype Position =
    | Checkpoint
    | RequestPending(key: SettlementKey, usageId: nat, turnId: string, attempt: nat)
    | Tools(stepId: StepId, calls: seq<Call>)
    | Compacting(preparationId: string)
    | Terminal(outcome: Ending)

  datatype UsageRow = UsageRow(id: nat, runId: string, boundary: nat, usage: Usage)

  datatype RunResult = RunResult(outcome: Ending, uncertain: bool, stopReason: Option<string>)

  datatype Write =
    | PutEntry(entry: Entry)
    | PutUsage(row: UsageRow)
    | SetPosition(runId: string, position: Position)
    | SetToolArgs(stepId: StepId, index: nat, args: Value)
    | SetMeta(runId: string)
    | DelMeta(runId: string)
    | SetResult(runId: string, result: RunResult)

  datatype State = State(
    entries: seq<Entry>,
    usage: seq<UsageRow>,
    positions: map<string, Position>,
    toolArgs: map<(StepId, nat), Value>,
    meta: set<string>,
    results: map<string, RunResult>)

  const EMPTY := State([], [], map[], map[], {}, map[])

  // --- Constraints ---------------------------------------------------------------

  /** The table's CHECK constraints. A violation aborts the whole transaction. */
  predicate WellFormed(e: Entry) {
    && (e.emitted || e.seqNo.None?)
    && (e.emitted ==> e.seqNo.Some?)
    && (e.onSurface ==> e.blocks.Some?)
  }

  /** UNIQUE (run_id, seq) and UNIQUE (run_id, settlement_key). */
  predicate Collides(entries: seq<Entry>, e: Entry) {
    exists i :: 0 <= i < |entries| && Clash(entries[i], e)
  }

  predicate Clash(a: Entry, b: Entry) {
    && a.runId == b.runId
    && ((a.seqNo.Some? && a.seqNo == b.seqNo) || (a.key.Some? && a.key == b.key))
  }

  predicate Acceptable(writes: seq<Write>) {
    forall w :: w in writes && w.PutEntry? ==> WellFormed(w.entry)
  }

  // --- Applying writes -----------------------------------------------------------

  function ApplyWrite(s: State, w: Write): State {
    match w
    case PutEntry(e) => if Collides(s.entries, e) then s else s.(entries := s.entries + [e])
    case PutUsage(row) =>
      if exists i :: 0 <= i < |s.usage| && s.usage[i].id == row.id then s
      else s.(usage := s.usage + [row])
    case SetPosition(run, p) => s.(positions := s.positions[run := p])
    case SetToolArgs(step, i, args) => s.(toolArgs := s.toolArgs[(step, i) := args])
    case SetMeta(run) => s.(meta := s.meta + {run})
    case DelMeta(run) => s.(meta := s.meta - {run})
    case SetResult(run, r) => s.(results := s.results[run := r])
  }

  function Apply(s: State, writes: seq<Write>): State
    decreases |writes|
  {
    if writes == [] then s else Apply(ApplyWrite(s, writes[0]), writes[1..])
  }

  /** The 1-based place an entry takes in the log; nothing else takes one, nor does an entry that is skipped. */
  function PlaceOf(s: State, w: Write): Option<nat> {
    if w.PutEntry? && !Collides(s.entries, w.entry) then Some(|s.entries| + 1) else None
  }

  function Placed(s: State, writes: seq<Write>): seq<Option<nat>>
    decreases |writes|
  {
    if writes == [] then [] else [PlaceOf(s, writes[0])] + Placed(ApplyWrite(s, writes[0]), writes[1..])
  }

  /** What a transaction that landed answers: the first place taken, every write's place, and which entries were skipped. */
  datatype Committed = Committed(first: nat, placed: seq<Option<nat>>, skipped: seq<nat>)

  function FirstOr(placed: seq<Option<nat>>, none: nat): nat {
    if placed == [] then none else if placed[0].Some? then placed[0].value else FirstOr(placed[1..], none)
  }

  ghost predicate ListsSkipped(writes: seq<Write>, placed: seq<Option<nat>>, skipped: seq<nat>) {
    && (forall k :: k in skipped <==> 0 <= k < |placed| && k < |writes| && writes[k].PutEntry? && placed[k].None?)
    && (forall i, j :: 0 <= i < j < |skipped| ==> skipped[i] < skipped[j])
  }

  function PositionOf(s: State, run: string): Option<Position> {
    if run in s.positions then Some(s.positions[run]) else None
  }

  /** `surfaceFrom(n)`: on-surface entries at or after the 1-based position `from`. */
  function SurfaceFrom(s: State, from: nat): seq<Entry> {
    OnSurface(if from <= 1 then s.entries
              else if from - 1 <= |s.entries| then s.entries[from - 1..] else [])
  }

  function OnSurface(entries: seq<Entry>): seq<Entry> {
    if entries == [] then []
    else if entries[0].onSurface then [entries[0]] + OnSurface(entries[1..])
    else OnSurface(entries[1..])
  }

  /** The highest number a run has on the record; a read, not an allocation. */
  function HighestSeq(entries: seq<Entry>, run: string): nat {
    MaxSeq(entries, run)
  }

  function MaxSeq(entries: seq<Entry>, run: string): nat {
    if entries == [] then 0
    else
      var rest := MaxSeq(entries[1..], run);
      if entries[0].runId == run && entries[0].seqNo.Some? && entries[0].seqNo.value > rest
      then entries[0].seqNo.value else rest
  }

  function NextUsageId(rows: seq<UsageRow>): nat {
    HighestUsageId(rows) + 1
  }

  function HighestUsageId(rows: seq<UsageRow>): nat {
    if rows == [] then 0
    else
      var rest := HighestUsageId(rows[1..]);
      if rows[0].id > rest then rows[0].id else rest
  }

  /** A run goes on from the highest number it has on the record, and from no other's; from nothing if it has none. */
  lemma {:induction false} HighestSeqIs(entries: seq<Entry>, run: string)
    ensures forall e :: e in entries && e.runId == run && e.seqNo.Some? ==> e.seqNo.value <= HighestSeq(entries, run)
    ensures HighestSeq(entries, run) > 0 ==>
      exists e :: e in entries && e.runId == run && e.seqNo == Some(HighestSeq(entries, run))
  {
    if entries != [] {
      HighestSeqIs(entries[1..], run);
      assert entries == [entries[0]] + entries[1..];
      if entries[0].runId == run && entries[0].seqNo.Some? {
        assert entries[0] in entries;
      }
    }
  }

  /** The id that is reserved for a row is the first that lies above all that are there. */
  lemma {:induction false} NextUsageIdIs(rows: seq<UsageRow>)
    ensures forall row :: row in rows ==> row.id < NextUsageId(rows)
    ensures NextUsageId(rows) > 1 ==> exists row :: row in rows && row.id + 1 == NextUsageId(rows)
  {
    if rows != [] {
      NextUsageIdIs(rows[1..]);
      assert rows == [rows[0]] + rows[1..];
    }
  }

  // --- The store -------------------------------------------------------------------

  class Store {
    var entries: seq<Entry>
    var usage: seq<UsageRow>
    var positions: map<string, Position>
    var toolArgs: map<(StepId, nat), Value>
    var meta: set<string>
    var results: map<string, RunResult>
    /** Where each lane's own history ends. It is no part of what a run reads back. */
    var leaves: map<string, nat>

    function Now(): State
      reads this
    {
      State(entries, usage, positions, toolArgs, meta, results)
    }

    constructor ()
      ensures Now() == EMPTY && leaves == map[]
    {
      entries, usage, positions, toolArgs, meta, results, leaves := [], [], map[], map[], {}, map[], map[];
    }

    /** The only write primitive: either every write lands, in order, or none does, and nothing is returned. The
        lane's leaf moves to the end of the log exactly when the log grew. */
    method Commit(writes: seq<Write>, lane: Option<string>) returns (r: Option<Committed>)
      modifies this
      ensures r.Some? <==> Acceptable(writes)
      ensures r.None? ==> Now() == old(Now())
      ensures r.Some? ==> Now() == Apply(old(Now()), writes) && r.value.placed == Placed(old(Now()), writes)
      ensures r.Some? ==> ListsSkipped(writes, r.value.placed, r.value.skipped)
      ensures r.Some? ==> r.value.first == FirstOr(r.value.placed, |entries|)
      ensures leaves == if r.Some? && lane.Some? && |entries| > |old(entries)| then old(leaves)[lane.value := |entries|] else old(leaves)
    {
      var ok := Check(writes);
      if !ok { return None; }
      var placed, skipped, highest := Land(writes);
      if lane.Some? && highest.Some? { leaves := leaves[lane.value := highest.value]; }
      r := Some(Committed(FirstOr(placed, |entries|), placed, skipped));
    }

    method Check(writes: seq<Write>) returns (ok: bool)
      ensures ok <==> Acceptable(writes)
    {
      ok := true;
      for i := 0 to |writes|
        invariant ok <==> Acceptable(writes[..i])
      {
        assert writes[..i + 1] == writes[..i] + [writes[i]];
        if writes[i].PutEntry? && !WellFormed(writes[i].entry) { ok := false; }
      }
      assert writes[..|writes|] == writes;
    }

    method Land(writes: seq<Write>) returns (placed: seq<Option<nat>>, skipped: seq<nat>, highest: Option<nat>)
      modifies this
      ensures Now() == Apply(old(Now()), writes) && leaves == old(leaves)
      ensures placed == Placed(old(Now()), writes) && ListsSkipped(writes, placed, skipped)
      ensures highest == if |entries| > |old(entries)| then Some(|entries|) else None
    {
      placed, skipped, highest := [], [], None;
      ghost var before := Now();
      for i := 0 to |writes|
        invariant leaves == old(leaves) && LandedTo(before, Now(), writes, placed, skipped, highest, i)
      {
        ghost var was := Now();
        var place := Take(writes[i]);
        NextLanded(before, was, writes, placed, skipped, highest, i);
        if writes[i].PutEntry? && place.None? { skipped := skipped + [i]; }
        if place.Some? && (highest.None? || place.value > highest.value) { highest := place; }
        placed := placed + [place];
      }
      AllLand(before, Now(), writes, placed);
    }

    method Take(w: Write) returns (place: Option<nat>)
      modifies this
      ensures leaves == old(leaves) && |entries| == |old(entries)| + (if place.Some? then 1 else 0)
      ensures place.Some? ==> place.value == |entries|
      ensures Now() == ApplyWrite(old(Now()), w) && place == PlaceOf(old(Now()), w)
    {
      place := None;
      match w {
        case PutEntry(e) =>
          if !Collides(entries, e) {
            entries := entries + [e];
            place := Some(|entries|);
          }
        case PutUsage(row) =>
          if !(exists k :: 0 <= k < |usage| && usage[k].id == row.id) { usage := usage + [row]; }
        case SetPosition(run, p) => positions := positions[run := p];
        case SetToolArgs(step, k, args) => toolArgs := toolArgs[(step, k) := args];
        case SetMeta(run) => meta := meta + {run};
        case DelMeta(run) => meta := meta - {run};
        case SetResult(run, r) => results := results[run := r];
      }
    }
  }

  // --- What a commit answers -----------------------------------------------------------

  lemma {:induction false} PlacedNext(s: State, writes: seq<Write>, i: nat, placed: seq<Option<nat>>)
    requires i < |writes|
    ensures var s1 := ApplyWrite(s, writes[i]);
      && Apply(s, writes[i..]) == Apply(s1, writes[i + 1..])
      && placed + Placed(s, writes[i..]) == placed + [PlaceOf(s, writes[i])] + Placed(s1, writes[i + 1..])
  {
    assert writes[i..][0] == writes[i] && writes[i..][1..] == writes[i + 1..];
  }

  /** After `i` of the writes: what the rest will make of it is what all were to make. */
  predicate LandsFrom(before: State, now: State, writes: seq<Write>, placed: seq<Option<nat>>, i: nat)
    requires i <= |writes|
  {
    Apply(now, writes[i..]) == Apply(before, writes) && placed + Placed(now, writes[i..]) == Placed(before, writes)
  }

  lemma {:induction false} StepLands(before: State, was: State, writes: seq<Write>, placed: seq<Option<nat>>, i: nat)
    requires i < |writes| && LandsFrom(before, was, writes, placed, i)
    ensures LandsFrom(before, ApplyWrite(was, writes[i]), writes, placed + [PlaceOf(was, writes[i])], i + 1)
  {
    PlacedNext(was, writes, i, placed);
  }

  lemma {:induction false} AllLand(before: State, now: State, writes: seq<Write>, placed: seq<Option<nat>>)
    requires LandsFrom(before, now, writes, placed, |writes|)
    ensures now == Apply(before, writes) && placed == Placed(before, writes)
  {
    assert writes[|writes|..] == [];
    assert placed + [] == placed;
  }

  lemma {:induction false} SkippedNext(writes: seq<Write>, placed: seq<Option<nat>>, skipped: seq<nat>, place: Option<nat>)
    requires |placed| < |writes| && ListsSkipped(writes, placed, skipped)
    ensures ListsSkipped(writes, placed + [place],
                         if writes[|placed|].PutEntry? && place.None? then skipped + [|placed|] else skipped)
  {
    var more := if writes[|placed|].PutEntry? && place.None? then skipped + [|placed|] else skipped;
    forall i | 0 <= i < |skipped| ensures skipped[i] < |placed| {
      assert skipped[i] in skipped;
    }
    forall k: nat ensures k in more <==> k < |placed| + 1 && writes[k].PutEntry? && (placed + [place])[k].None? {
      assert k in more <==> k in skipped || (k == |placed| && writes[k].PutEntry? && place.None?);
    }
  }

  /** What a transaction knows after `i` of its writes. */
  ghost predicate LandedTo(before: State, now: State, writes: seq<Write>, placed: seq<Option<nat>>, skipped: seq<nat>, highest: Option<nat>, i: nat) {
    && |placed| == i <= |writes| && ListsSkipped(writes, placed, skipped) && LandsFrom(before, now, writes, placed, i)
    && |before.entries| <= |now.entries| && highest == if |now.entries| > |before.entries| then Some(|now.entries|) else None
  }

  lemma {:induction false} NextLanded(before: State, was: State, writes: seq<Write>, placed: seq<Option<nat>>, skipped: seq<nat>, highest: Option<nat>, i: nat)
    requires i < |writes| && LandedTo(before, was, writes, placed, skipped, highest, i)
    ensures var place := PlaceOf(was, writes[i]);
      LandedTo(before, ApplyWrite(was, writes[i]), writes, placed + [place],
               if writes[i].PutEntry? && place.None? then skipped + [i] else skipped,
               if place.Some? && (highest.None? || place.value > highest.value) then place else highest, i + 1)
  {
    StepLands(before, was, writes, placed, i);
    SkippedNext(writes, placed, skipped, PlaceOf(was, writes[i]));
  }

  lemma {:induction false} LogGrows(s: State, writes: seq<Write>)
    ensures s.entries <= Apply(s, writes).entries && s.usage <= Apply(s, writes).usage
    decreases |writes|
  {
    if writes != [] {
      LogGrows(ApplyWrite(s, writes[0]), writes[1..]);
    }
  }

  /** A placed entry is at its place, behind everything that was there; a skipped one repeats a number or a key
      of one that is. */
  lemma {:induction false} PlacedSays(s: State, writes: seq<Write>, i: nat)
    requires i < |writes|
    ensures var placed, entries := Placed(s, writes), Apply(s, writes).entries;
      && |placed| == |writes|
      && (placed[i].Some? ==>
            && writes[i].PutEntry? && |s.entries| < placed[i].value <= |entries|
            && entries[placed[i].value - 1] == writes[i].entry)
      && (writes[i].PutEntry? && placed[i].None? ==> Collides(entries, writes[i].entry))
    decreases |writes|
  {
    var s1 := ApplyWrite(s, writes[0]);
    LogGrows(s1, writes[1..]);
    if |writes| > 1 {
      PlacedSays(s1, writes[1..], if i == 0 then 0 else i - 1);
    }
    if i == 0 && writes[0].PutEntry? && Collides(s.entries, writes[0].entry) {
      var entries := Apply(s, writes).entries;
      var k :| 0 <= k < |s.entries| && Clash(s.entries[k], writes[0].entry);
      assert entries[k] == s.entries[k];
    }
  }

  /** And places follow the order of the writes. */
  lemma {:induction false} PlacedInOrder(s: State, writes: seq<Write>, i: nat, j: nat)
    requires i < j < |writes|
    ensures var placed := Placed(s, writes);
      |placed| == |writes| && (placed[i].Some? && placed[j].Some? ==> placed[i].value < placed[j].value)
    decreases |writes|
  {
    var s1 := ApplyWrite(s, writes[0]);
    if i > 0 {
      PlacedInOrder(s1, writes[1..], i - 1, j - 1);
    } else {
      PlacedSays(s1, writes[1..], j - 1);
    }
  }
}
