/** A turn, and then a whole run: lawful at every step, metered exactly, and every request it sends
    can be rebuilt from the record. */
module TurnLaws {
  import opened Json
  import opened Contract
  import opened Record
  import opened Checkpoint
  import opened Journal
  import opened Normalize
  import opened StopReasons
  import opened RunLoop
  import opened Protocol
  import opened RunLaws
  import opened RequestBuilder
  import SurfaceLaws

  lemma {:induction false} ProceedsTrans(spec: Spec, origin: State, a: Loop, b: Loop, c: Loop, rows: seq<UsageRow>)
    requires Extends(a.rec.entries, b.rec.entries) && a.journal <= b.journal && a.lastSnapshot == b.lastSnapshot
    requires b.rec.usage == a.rec.usage + rows && Proceeds(spec, origin, b, c, [])
    ensures Proceeds(spec, origin, a, c, rows)
  {
  }

  lemma {:induction false} ConcludeKeeps(spec: Spec, origin: State, l: Loop, action: Action, reason: StopReason)
    requires Sound(spec, origin, l) && Stands(spec, l, Record.Checkpoint) && l.ended.None?
    ensures var m := Conclude(spec, l, action, reason);
      Proceeds(spec, origin, l, m, []) && m.usage == l.usage
  {
    assert l.rec.usage + [] == l.rec.usage;
    match action
    case Resume(_) =>
    case Compact =>
    case SettleFailed => EndProceeds(spec, origin, l, RunFailed, System, Failed, Some(ReasonName(reason)), 0);
    case _ => FinishKeeps(spec, origin, l, reason);
  }

  lemma {:induction false} FinishKeeps(spec: Spec, origin: State, l: Loop, reason: StopReason)
    requires Sound(spec, origin, l) && Stands(spec, l, Record.Checkpoint) && l.ended.None?
    ensures var m := if |l.inbox| > 0 then FollowUp(spec, l) else RunLoop.Finish(spec, l, reason);
      Proceeds(spec, origin, l, m, []) && m.usage == l.usage
  {
    if |l.inbox| > 0 {
      FollowUpKeeps(spec, origin, l);
    } else {
      EndProceeds(spec, origin, l, RunFinished, System, Finished, Some(ReasonName(reason)), l.turns);
    }
  }

  lemma {:induction false} PlainKeeps(spec: Spec, origin: State, l: Loop, h: Heard, from: nat, usageId: nat, boundary: nat, action: Action)
    requires HeardOut(spec, origin, l, h, from, usageId) && l.ended.None?
    ensures var m := Conclude(spec, PutDown(spec, l, h, usageId, boundary, Record.Checkpoint), action, ReasonOf(h));
      Proceeds(spec, origin, l, m, Rows(spec, h, usageId, boundary)) && m.usage == l.usage
  {
    SettleTxKeeps(spec, origin, l, h, from, usageId, boundary, Record.Checkpoint);
    var l1 := PutDown(spec, l, h, usageId, boundary, Record.Checkpoint);
    ConcludeKeeps(spec, origin, l1, action, ReasonOf(h));
    ProceedsTrans(spec, origin, l, l1, Conclude(spec, l1, action, ReasonOf(h)), Rows(spec, h, usageId, boundary));
  }

  lemma {:induction false} SettleKeeps(spec: Spec, origin: State, turn: Turn, l: Loop, h: Heard, from: nat, usageId: nat, boundary: nat)
    requires HeardOut(spec, origin, l, h, from, usageId) && l.ended.None?
    ensures var m := Settle(spec, turn, l, h, usageId, boundary);
      && Proceeds(spec, origin, l, m, Rows(spec, h, usageId, boundary))
      && m.usage == AddUsage(l.usage, h.usage)
  {
    var l0 := l.(usage := AddUsage(l.usage, h.usage));
    var action := Decide(ReasonOf(h), l.attempt);
    if action.DispatchTools? {
      UseToolsKeeps(spec, origin, turn, l0, h, from, usageId, boundary);
    } else {
      PlainKeeps(spec, origin, l0, h, from, usageId, boundary, action);
    }
  }

  lemma {:induction false} ListenKeeps(spec: Spec, origin: State, l: Loop, request: Request, h: Heard, events: seq<ProviderEvent>)
    requires Sound(spec, origin, l) && PositionOf(l.rec, spec.runId).Some? && PositionOf(l.rec, spec.runId).value.RequestPending?
    requires h == Hear(l.norm, events)
    ensures var m := Listen(l, request, h);
      && Sound(spec, origin, m) && m.rec == l.rec && l.journal + [Sent(request)] <= m.journal
      && HeardOut(spec, origin, m, h, l.norm.seqNo, NextUsageId(l.rec.usage))
      && m == l.(journal := m.journal, norm := h.norm)
  {
    DoQuiet(spec, origin, l, Sent(request));
    HearNumbers(l.norm, events);
    EmitsKeep(spec, origin, Do(l, Sent(request)), h.live, h.norm);
  }

  lemma {:induction false} Unreported(n: Norm, events: seq<ProviderEvent>)
    ensures !Hear(n, events).reported ==> Hear(n, events).usage == ZERO_USAGE
    decreases |events|
  {
    if events != [] {
      Unreported(n, events[..|events| - 1]);
    }
  }

  /** The usage a turn records: nothing when it broke, or when nothing was reported. */
  function Recorded(spec: Spec, turn: Turn, h: Heard, usageId: nat, boundary: nat): (r: seq<UsageRow>)
    ensures |r| <= 1
  {
    if h.broke || turn.broke then [] else Rows(spec, h, usageId, boundary)
  }

  function Adding(usage: Usage, rows: seq<UsageRow>): Usage {
    if rows == [] then usage else AddUsage(usage, rows[0].usage)
  }

  ghost predicate SendsAndProceeds(spec: Spec, origin: State, l: Loop, m: Loop, request: Request, rows: seq<UsageRow>) {
    && l.journal + [Sent(request)] <= m.journal && Proceeds(spec, origin, l, m, rows) && m.usage == Adding(l.usage, rows)
  }

  /** What a turn does once its intent is on the record. */
  lemma {:induction false} AwaitKeeps(spec: Spec, origin: State, turn: Turn, l: Loop, request: Request, usageId: nat)
    requires Sound(spec, origin, l) && l.ended.None? && usageId == NextUsageId(l.rec.usage)
    requires PositionOf(l.rec, spec.runId).Some? && PositionOf(l.rec, spec.runId).value.RequestPending?
    ensures SendsAndProceeds(spec, origin, l, Await(spec, turn, l, request, usageId), request,
                   Recorded(spec, turn, Hear(l.norm, turn.stream), usageId, |l.rec.entries|))
  {
    var h := Hear(l.norm, turn.stream);
    ListenKeeps(spec, origin, l, request, h, turn.stream);
    Unreported(l.norm, turn.stream);
    HeardKeeps(spec, origin, turn, l, Listen(l, request, h), request, h, usageId);
  }

  /** The turn has been heard: it broke, or it is settled. */
  function HeardThen(spec: Spec, turn: Turn, l: Loop, h: Heard, usageId: nat): Loop {
    if h.broke || turn.broke then Broken(spec, turn, l) else Settle(spec, turn, l, h, usageId, |l.rec.entries|)
  }

  lemma {:induction false} HeardKeeps(spec: Spec, origin: State, turn: Turn, l: Loop, l1: Loop, request: Request, h: Heard, usageId: nat)
    requires Sound(spec, origin, l1) && l1.rec == l.rec && l.journal + [Sent(request)] <= l1.journal
    requires HeardOut(spec, origin, l1, h, l.norm.seqNo, usageId) && l1.ended.None?
    requires l1.lastSnapshot == l.lastSnapshot && l1.usage == l.usage
    requires !h.reported ==> h.usage == ZERO_USAGE
    ensures SendsAndProceeds(spec, origin, l, HeardThen(spec, turn, l1, h, usageId), request, Recorded(spec, turn, h, usageId, |l.rec.entries|))
  {
    if h.broke || turn.broke {
      BrokeSends(spec, origin, turn, l, l1, request);
    } else {
      SettledSends(spec, origin, turn, l, l1, request, h, usageId);
    }
  }

  lemma {:induction false} BrokeSends(spec: Spec, origin: State, turn: Turn, l: Loop, l1: Loop, request: Request)
    requires Sound(spec, origin, l1) && l1.rec == l.rec && l.journal + [Sent(request)] <= l1.journal && Quiescent(spec, l1)
    requires l1.lastSnapshot == l.lastSnapshot && l1.usage == l.usage
    ensures SendsAndProceeds(spec, origin, l, Broken(spec, turn, l1), request, [])
  {
    BrokenKeeps(spec, origin, turn, l1);
    SendsFrom(spec, origin, l, l1, Broken(spec, turn, l1), request, []);
  }

  lemma {:induction false} SettledSends(spec: Spec, origin: State, turn: Turn, l: Loop, l1: Loop, request: Request, h: Heard, usageId: nat)
    requires l1.rec == l.rec && l.journal + [Sent(request)] <= l1.journal
    requires HeardOut(spec, origin, l1, h, l.norm.seqNo, usageId) && l1.ended.None?
    requires l1.lastSnapshot == l.lastSnapshot && l1.usage == l.usage
    requires !h.reported ==> h.usage == ZERO_USAGE
    ensures SendsAndProceeds(spec, origin, l, Settle(spec, turn, l1, h, usageId, |l.rec.entries|), request, Rows(spec, h, usageId, |l.rec.entries|))
  {
    SettleKeeps(spec, origin, turn, l1, h, l.norm.seqNo, usageId, |l.rec.entries|);
    RowAdds(spec, h, usageId, |l.rec.entries|, l1.usage);
    SendsFrom(spec, origin, l, l1, Settle(spec, turn, l1, h, usageId, |l.rec.entries|), request,
              Rows(spec, h, usageId, |l.rec.entries|));
  }

  lemma {:induction false} RowAdds(spec: Spec, h: Heard, usageId: nat, boundary: nat, usage: Usage)
    requires !h.reported ==> h.usage == ZERO_USAGE
    ensures Adding(usage, Rows(spec, h, usageId, boundary)) == AddUsage(usage, h.usage)
  {
  }

  lemma {:induction false} SendsFrom(spec: Spec, origin: State, l: Loop, l1: Loop, m: Loop, request: Request, rows: seq<UsageRow>)
    requires l1.rec == l.rec && l.journal + [Sent(request)] <= l1.journal && l1.lastSnapshot == l.lastSnapshot && l1.usage == l.usage
    requires Proceeds(spec, origin, l1, m, rows) && m.usage == Adding(l1.usage, rows)
    ensures SendsAndProceeds(spec, origin, l, m, request, rows)
  {
  }

  // --- Rebuilding what was sent --------------------------------------------------------------

  function Severed(spec: Spec, entries: seq<Entry>): seq<Message> {
    Surface.Fold(SurfaceFrom(EMPTY.(entries := entries), spec.surfaceFrom))
  }

  /** The latest snapshot on the log is this one; and while nothing followed it, its fingerprint is
      of the messages the log folds to. */
  ghost predicate HeaderIs(spec: Spec, entries: seq<Entry>, snapshot: Snapshot) {
    var at := LatestHeader(entries);
    && at.Some?
    && exists digest :: entries[at.value].payload == Header(snapshot, Some(digest))
        && (at.value == |entries| - 1 ==> digest == MessagesDigest(spec.codec, Severed(spec, entries)))
  }

  ghost predicate HeaderKnown(spec: Spec, l: Loop) {
    l.lastSnapshot.Some? ==> HeaderIs(spec, l.rec.entries, l.lastSnapshot.value)
  }

  lemma {:induction false} HeaderStays(spec: Spec, a: seq<Entry>, b: seq<Entry>, snapshot: Snapshot)
    requires Extends(a, b) && HeaderIs(spec, a, snapshot)
    ensures HeaderIs(spec, b, snapshot)
  {
    var i, j := LatestHeader(a), LatestHeader(b);
    assert b[i.value] == a[i.value];
    assert j == i;
    if |a| == |b| {
      assert a == b;
    }
  }

  /** An entry off the surface changes no fold. */
  lemma {:induction false} OffSurface(spec: Spec, a: seq<Entry>, e: Entry)
    requires !e.onSurface
    ensures OnSurface(a + [e]) == OnSurface(a) && Severed(spec, a + [e]) == Severed(spec, a)
  {
    NoneOnSurface([e]);
    OnSurfaceConcat(a, [e]);
    var k: int := spec.surfaceFrom as int - 1;
    var x, y := EMPTY.(entries := a), EMPTY.(entries := a + [e]);
    if 0 < k <= |a| {
      assert (a + [e])[k..] == a[k..] + [e];
      OnSurfaceConcat(a[k..], [e]);
      assert SurfaceFrom(y, spec.surfaceFrom) == SurfaceFrom(x, spec.surfaceFrom);
    } else if k == |a| + 1 {
      assert (a + [e])[k..] == [];
      assert SurfaceFrom(y, spec.surfaceFrom) == SurfaceFrom(x, spec.surfaceFrom);
    }
  }

  function Rebuild(spec: Spec, prefix: seq<Entry>): Rebuilt {
    Reconstruct(spec.codec, prefix, spec.systemPrompt, spec.tools, spec.caps, None)
  }

  lemma {:induction false} HeaderPut(spec: Spec, a: seq<Entry>, e: Entry, snapshot: Snapshot)
    requires e.etype == RequestHeader && !e.onSurface
    requires e.payload == Header(snapshot, Some(MessagesDigest(spec.codec, Severed(spec, a))))
    ensures HeaderIs(spec, a + [e], snapshot)
    ensures OnSurface(a + [e]) == OnSurface(a) && Severed(spec, a + [e]) == Severed(spec, a)
  {
    OffSurface(spec, a, e);
    assert (a + [e])[|a|] == e;
    assert LatestHeader(a + [e]) == Some(|a|);
  }

  lemma {:induction false} IntendKnows(spec: Spec, origin: State, turn: Turn, l: Loop)
    requires Sound(spec, origin, l) && Stands(spec, l, Record.Checkpoint) && HeaderKnown(spec, l)
    ensures var request := RequestFor(spec, l.rec);
      var prefix := Intend(spec, turn, l, request).rec.entries;
      && HeaderIs(spec, prefix, SnapshotOf(spec, turn, request))
      && OnSurface(prefix) == OnSurface(l.rec.entries) && Severed(spec, prefix) == Severed(spec, l.rec.entries)
  {
    var request := RequestFor(spec, l.rec);
    IntendKeeps(spec, origin, turn, l, request);
    var snapshot := SnapshotOf(spec, turn, request);
    assert request.messages == Severed(spec, l.rec.entries);
    PrefixKnows(spec, l, Intend(spec, turn, l, request).rec.entries, snapshot,
                EntryFor(spec.runId,
                         Envelope(Some(l.norm.seqNo + 1), RequestHeader, System,
                                  Header(snapshot, Some(MessagesDigest(spec.codec, request.messages)))), None));
  }

  lemma {:induction false} PrefixKnows(spec: Spec, l: Loop, prefix: seq<Entry>, snapshot: Snapshot, header: Entry)
    requires HeaderKnown(spec, l)
    requires prefix == l.rec.entries + (if l.lastSnapshot == Some(snapshot) then [] else [header])
    requires header.etype == RequestHeader && !header.onSurface
    requires header.payload == Header(snapshot, Some(MessagesDigest(spec.codec, Severed(spec, l.rec.entries))))
    ensures HeaderIs(spec, prefix, snapshot)
    ensures OnSurface(prefix) == OnSurface(l.rec.entries) && Severed(spec, prefix) == Severed(spec, l.rec.entries)
  {
    if l.lastSnapshot == Some(snapshot) {
      assert prefix == l.rec.entries;
    } else {
      HeaderPut(spec, l.rec.entries, header, snapshot);
    }
  }

  /** The snapshot of any request of this run. */
  predicate Describes(spec: Spec, snapshot: Snapshot) {
    && snapshot.model == spec.model && snapshot.effort == spec.effort
    && snapshot.systemPromptDigest == Djb2(spec.systemPrompt)
    && snapshot.toolSchemasDigest == ToolsDigest(spec.codec, spec.tools)
  }

  function Asking(spec: Spec, surface: seq<Entry>): Request {
    Build(spec.model, spec.caps, spec.systemPrompt, spec.tools, surface, spec.effort, None)
  }

  lemma {:induction false} RebuildIs(spec: Spec, prefix: seq<Entry>, snapshot: Snapshot)
    requires HeaderIs(spec, prefix, snapshot) && Describes(spec, snapshot)
    ensures Rebuild(spec, prefix).Ok? && Rebuild(spec, prefix).request == Asking(spec, OnSurface(prefix))
    ensures Rebuild(spec, prefix).messages == Mismatch <==>
      LatestHeader(prefix) == Some(|prefix| - 1)
      && MessagesDigest(spec.codec, Surface.Fold(OnSurface(prefix))) != MessagesDigest(spec.codec, Severed(spec, prefix))
  {
  }

  /** The request comes back just when the whole log folds to what was sent; and then the fingerprint agrees. */
  ghost predicate RebuildsIfAlike(spec: Spec, prefix: seq<Entry>, request: Request) {
    && Rebuild(spec, prefix).Ok?
    && (Rebuild(spec, prefix).request == request <==> Surface.Fold(OnSurface(prefix)) == Severed(spec, prefix))
    && (Rebuild(spec, prefix).request == request ==> Rebuild(spec, prefix).messages != Mismatch)
  }

  /** What a prefix that ends with a request's intent rebuilds to. */
  lemma {:induction false} RebuildAsked(spec: Spec, rec: State, prefix: seq<Entry>, snapshot: Snapshot)
    requires HeaderIs(spec, prefix, snapshot) && Describes(spec, snapshot)
    requires OnSurface(prefix) == OnSurface(rec.entries) && Severed(spec, prefix) == Severed(spec, rec.entries)
    ensures RebuildsIfAlike(spec, prefix, RequestFor(spec, rec))
    ensures Rebuild(spec, prefix).messages == Mismatch <==>
      LatestHeader(prefix) == Some(|prefix| - 1)
      && MessagesDigest(spec.codec, Surface.Fold(OnSurface(rec.entries))) != MessagesDigest(spec.codec, Severed(spec, rec.entries))
  {
    RebuildIs(spec, prefix, snapshot);
    SameWhenFoldsAgree(spec, rec);
  }

  lemma {:induction false} SameWhenFoldsAgree(spec: Spec, rec: State)
    ensures Asking(spec, OnSurface(rec.entries)) == RequestFor(spec, rec)
      <==> Surface.Fold(OnSurface(rec.entries)) == Severed(spec, rec.entries)
  {
  }

  // --- A later baseline ----------------------------------------------------------------------

  /** What of a log is on the surface in front of the run's baseline, and what is from there on. */
  function InFront(spec: Spec, entries: seq<Entry>): seq<Entry> {
    OnSurface(if spec.surfaceFrom <= 1 then []
              else if spec.surfaceFrom - 1 <= |entries| then entries[..spec.surfaceFrom - 1] else entries)
  }

  function Behind(spec: Spec, entries: seq<Entry>): seq<Entry> {
    SurfaceFrom(EMPTY.(entries := entries), spec.surfaceFrom)
  }

  lemma {:induction false} BaselineSplits(spec: Spec, entries: seq<Entry>)
    ensures OnSurface(entries) == InFront(spec, entries) + Behind(spec, entries)
  {
    var k: int := spec.surfaceFrom as int - 1;
    if 0 < k <= |entries| {
      assert entries == entries[..k] + entries[k..];
      OnSurfaceConcat(entries[..k], entries[k..]);
    }
  }

  /** What precedes the baseline neither speaks nor completes a call behind it. */
  ghost predicate SilentBaseline(spec: Spec, entries: seq<Entry>) {
    SurfaceLaws.SilentBefore(Surface.Flat(InFront(spec, entries)), Surface.Flat(Behind(spec, entries)))
  }

  lemma {:induction false} SilentExactly(spec: Spec, entries: seq<Entry>)
    ensures Surface.Fold(OnSurface(entries)) == Severed(spec, entries) <==> SilentBaseline(spec, entries)
    ensures spec.surfaceFrom <= 1 ==> SilentBaseline(spec, entries)
  {
    BaselineSplits(spec, entries);
    SurfaceLaws.FoldBehindExactly(InFront(spec, entries), Behind(spec, entries));
    if spec.surfaceFrom <= 1 {
      assert InFront(spec, entries) == [];
    }
  }

  /** A block in front of the baseline that belongs to no call is never silent, whatever comes behind. */
  lemma {:induction false} SpokenBefore(spec: Spec, entries: seq<Entry>, x: Surface.Said)
    requires x in Surface.Flat(InFront(spec, entries)) && Surface.BlockId(x.block).None?
    ensures !SilentBaseline(spec, entries)
  {
    SurfaceLaws.PlainBlockSpeaks(Surface.Flat(InFront(spec, entries)), Surface.Flat(Behind(spec, entries)), x);
  }
}
