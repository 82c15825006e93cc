/** The discipline of a mapped stream, and that what was broadcast is what is recorded. */
module StreamLaws {
  import opened Json
  import opened Contract
  import opened Normalize
  import opened ConverseStream

  /** Indexes opened and not yet stopped. */
  function OpenIn(events: seq<ProviderEvent>): set<int>
    decreases |events|
  {
    if events == [] then {}
    else
      var before := OpenIn(events[..|events| - 1]);
      match events[|events| - 1]
      case BlockStart(i, _) => before + {i}
      case BlockStop(i, _) => before - {i}
      case _ => before
  }

  function About(e: ProviderEvent): Option<int> {
    match e
    case TextDelta(i, _) => Some(i)
    case ThinkingDelta(i, _) => Some(i)
    case ToolInputDelta(i, _) => Some(i)
    case BlockStop(i, _) => Some(i)
    case _ => None
  }

  function Reasoned(text: string): Value {
    Obj(map["reasoningContent" := Obj(map["reasoningText" := Obj(map["text" := Str(text)])])])
  }

  function Encrypted(codec: Codec, bytes: string): Value {
    Obj(map["reasoningContent" := Obj(map["redactedContent" := Obj(map["__bytes_b64" := Str(codec.encode64(bytes))])])])
  }

  /** What a stopped block says, against the deltas that came before its stop. */
  ghost predicate BlockTells(codec: Codec, before: seq<ProviderEvent>, index: int, block: Value) {
    match KindIn(before, index)
    case Some(ToolUseKind) => Field(block, "input") == Some(ParseOrRaw(codec, DeltaJson(before, index)))
                              && HasType(block, "tool_use")
    case Some(ThinkingKind) =>
      block == Reasoned(DeltaText(before, index)) || exists bytes :: block == Encrypted(codec, bytes)
    case Some(TextKind) => block == Obj(map["text" := Str(DeltaText(before, index))])
    case _ => false
  }

  ghost predicate Disciplined(codec: Codec, events: seq<ProviderEvent>)
  {
    forall k :: 0 <= k < |events| ==> WellPlaced(codec, events, k)
  }

  ghost predicate WellPlaced(codec: Codec, events: seq<ProviderEvent>, k: nat)
    requires k < |events|
  {
    && (About(events[k]).Some? ==> About(events[k]).value in OpenIn(events[..k]))
    && (events[k].BlockStop? ==> BlockTells(codec, events[..k], events[k].index, events[k].block))
  }

  /** What the mapper's table means in terms of the events so far. */
  ghost predicate Tracks(m: Mapper, events: seq<ProviderEvent>) {
    && OpenIn(events) == m.open.Keys
    && forall i :: i in m.open ==> TracksBlock(m.open[i], events, i)
  }

  ghost predicate TracksBlock(b: OpenBlock, events: seq<ProviderEvent>, i: int) {
    && b.kind in {TextKind, ThinkingKind, ToolUseKind}
    && KindIn(events, i) == Some(b.kind)
    && b.text == DeltaText(events, i)
    && b.partialJson == DeltaJson(events, i)
  }

  lemma {:induction false} AppendOne(codec: Codec, events: seq<ProviderEvent>, e: ProviderEvent)
    requires Disciplined(codec, events)
    requires About(e).Some? ==> About(e).value in OpenIn(events)
    requires e.BlockStop? ==> BlockTells(codec, events, e.index, e.block)
    ensures Disciplined(codec, events + [e])
    ensures (events + [e])[..|events|] == events
  {
    var all := events + [e];
    forall k | 0 <= k < |all| ensures WellPlaced(codec, all, k) {
      if k < |events| {
        assert all[..k] == events[..k];
        assert WellPlaced(codec, events, k);
      } else {
        assert all[..k] == events;
      }
    }
  }

  /** One more event, and the table changed to match it in the one block it is about. */
  lemma {:induction false} TracksOne(codec: Codec, m: Mapper, m': Mapper, events: seq<ProviderEvent>, e: ProviderEvent)
    requires Disciplined(codec, events) && Tracks(m, events)
    requires About(e).Some? ==> About(e).value in m.open
    requires e.BlockStop? ==> BlockTells(codec, events, e.index, e.block)
    requires OpenIn(events + [e]) == m'.open.Keys
    requires forall i :: i in m'.open ==>
      if i in m.open && !Touches(e, i) then Same(m'.open[i], m.open[i]) else TracksBlock(m'.open[i], events + [e], i)
    ensures Disciplined(codec, events + [e]) && Tracks(m', events + [e])
  {
    AppendOne(codec, events, e);
    forall i | i in m'.open ensures TracksBlock(m'.open[i], events + [e], i) {
      if i in m.open && !Touches(e, i) {
        assert TracksBlock(m.open[i], events, i);
        Untouched(events, e, i);
      }
    }
  }

  predicate Touches(e: ProviderEvent, i: int) {
    (e.BlockStart? || e.TextDelta? || e.ThinkingDelta? || e.ToolInputDelta?) && e.index == i
  }

  predicate Same(a: OpenBlock, b: OpenBlock) {
    a.kind == b.kind && a.text == b.text && a.partialJson == b.partialJson
  }

  lemma {:induction false} Untouched(events: seq<ProviderEvent>, e: ProviderEvent, i: int)
    requires !Touches(e, i)
    ensures KindIn(events + [e], i) == KindIn(events, i)
    ensures DeltaText(events + [e], i) == DeltaText(events, i)
    ensures DeltaJson(events + [e], i) == DeltaJson(events, i)
  {
  }

  lemma {:induction false} TracksOpened(codec: Codec, m: Mapper, events: seq<ProviderEvent>, index: int, b: OpenBlock)
    requires Disciplined(codec, events) && Tracks(m, events)
    requires b.kind in {TextKind, ThinkingKind, ToolUseKind} && b.text == "" && b.partialJson == ""
    ensures var all := events + [BlockStart(index, b.kind)];
      Disciplined(codec, all) && Tracks(m.(open := m.open[index := b]), all)
  {
    var e := BlockStart(index, b.kind);
    assert (events + [e])[..|events|] == events;
    TracksOne(codec, m, m.(open := m.open[index := b]), events, e);
  }

  lemma {:induction false} TracksHeard(codec: Codec, m: Mapper, events: seq<ProviderEvent>, index: int, e: ProviderEvent)
    requires Disciplined(codec, events) && Tracks(m, events) && index in m.open
    requires (e.TextDelta? || e.ThinkingDelta?) && e.index == index
    ensures Disciplined(codec, events + [e])
    ensures Tracks(m.(open := m.open[index := m.open[index].(text := m.open[index].text + e.text)]), events + [e])
  {
    assert TracksBlock(m.open[index], events, index);
    assert (events + [e])[..|events|] == events;
    TracksOne(codec, m, m.(open := m.open[index := m.open[index].(text := m.open[index].text + e.text)]), events, e);
  }

  lemma {:induction false} TracksInput(codec: Codec, m: Mapper, events: seq<ProviderEvent>, index: int, json: string)
    requires Disciplined(codec, events) && Tracks(m, events) && index in m.open
    ensures var all := events + [ToolInputDelta(index, json)];
      && Disciplined(codec, all)
      && Tracks(m.(open := m.open[index := m.open[index].(partialJson := m.open[index].partialJson + json)]), all)
  {
    var e := ToolInputDelta(index, json);
    assert TracksBlock(m.open[index], events, index);
    assert (events + [e])[..|events|] == events;
    TracksOne(codec, m, m.(open := m.open[index := m.open[index].(partialJson := m.open[index].partialJson + json)]), events, e);
  }

  /** An event about no block. */
  lemma {:induction false} TracksQuiet(codec: Codec, m: Mapper, m': Mapper, events: seq<ProviderEvent>, e: ProviderEvent)
    requires Disciplined(codec, events) && Tracks(m, events) && m'.open == m.open
    requires About(e).None? && !e.BlockStart?
    ensures Disciplined(codec, events + [e]) && Tracks(m', events + [e])
  {
    assert (events + [e])[..|events|] == events;
    TracksOne(codec, m, m', events, e);
  }

  lemma {:induction false} TracksOpening(codec: Codec, m: Mapper, events: seq<ProviderEvent>, index: int, kind: BlockKind)
    requires Disciplined(codec, events) && Tracks(m, events) && kind in {TextKind, ThinkingKind}
    ensures var (o, start) := Opened(m, index, kind);
      Disciplined(codec, events + start) && Tracks(o, events + start) && index in o.open
  {
    if index in m.open {
      assert events + [] == events;
    } else {
      TracksOpened(codec, m, events, index, OpenBlock(kind, "", "", None, None, None));
    }
  }

  lemma {:induction false} TracksRedacted(m: Mapper, events: seq<ProviderEvent>, index: int, redacted: Option<string>)
    requires Tracks(m, events) && index in m.open
    ensures Tracks(m.(open := m.open[index := m.open[index].(redacted := redacted)]), events)
  {
  }

  lemma {:induction false} TracksDelta(codec: Codec, m: Mapper, events: seq<ProviderEvent>, index: int, d: Delta)
    requires Disciplined(codec, events) && Tracks(m, events)
    ensures var (m', more) := TakeDelta(m, index, d);
      Disciplined(codec, events + more) && Tracks(m', events + more)
  {
    if d.text.Some? {
      var (o, start) := Opened(m, index, TextKind);
      TracksOpening(codec, m, events, index, TextKind);
      TracksHeard(codec, o, events + start, index, TextDelta(index, d.text.value));
      Regroup(events, start, TextDelta(index, d.text.value));
    } else if d.toolInput.Some? {
      if index in m.open {
        TracksInput(codec, m, events, index, d.toolInput.value);
      } else {
        TracksQuiet(codec, m, m, events, Raw);
      }
    } else if d.reasoning.Some? {
      TracksReasoning(codec, m, events, index, d);
    } else {
      TracksQuiet(codec, m, m, events, Raw);
    }
  }

  lemma {:induction false} TracksReasoning(codec: Codec, m: Mapper, events: seq<ProviderEvent>, index: int, d: Delta)
    requires Disciplined(codec, events) && Tracks(m, events)
    requires d.text.None? && d.toolInput.None? && d.reasoning.Some?
    ensures var (m', more) := TakeDelta(m, index, d);
      Disciplined(codec, events + more) && Tracks(m', events + more)
  {
    var (o, start) := Opened(m, index, ThinkingKind);
    TracksOpening(codec, m, events, index, ThinkingKind);
    var r := d.reasoning.value;
    if r.text.Some? {
      var e := ThinkingDelta(index, r.text.value);
      TracksHeard(codec, o, events + start, index, e);
      Regroup(events, start, e);
    } else if r.redacted.Some? {
      var held := if o.open[index].redacted.Some? then o.open[index].redacted.value else "";
      TracksRedacted(o, events + start, index, Some(held + r.redacted.value));
    } else {
      TracksQuiet(codec, o, o, events + start, Raw);
      Regroup(events, start, Raw);
    }
  }

  lemma {:induction false} Regroup(a: seq<ProviderEvent>, b: seq<ProviderEvent>, e: ProviderEvent)
    ensures a + b + [e] == a + (b + [e])
  {
  }

  lemma {:induction false} TracksTake(codec: Codec, m: Mapper, events: seq<ProviderEvent>, event: WireEvent, model: string)
    requires Disciplined(codec, events) && Tracks(m, events)
    ensures var (m', more) := Take(codec, m, event, model);
      Disciplined(codec, events + more) && Tracks(m', events + more)
  {
    var (m', more) := Take(codec, m, event, model);
    match event
    case Start => TracksQuiet(codec, m, m', events, MessageStart(model));
    case BlockOpen(index, toolUse) =>
      if toolUse.Some? {
        TracksOpened(codec, m, events, index, m'.open[index]);
      } else {
        TracksQuiet(codec, m, m', events, Raw);
      }
    case BlockDelta(index, delta) =>
      if delta.Some? {
        TracksDelta(codec, m, events, index, delta.value);
      } else {
        TracksQuiet(codec, m, m', events, Raw);
      }
    case BlockClose(index) =>
      if index in m.open {
        var e := BlockStop(index, Verbatim(codec, m.open[index]));
        TracksClose(codec, m, events, index);
        assert (events + [e])[..|events|] == events;
        TracksOne(codec, m, m', events, e);
      } else {
        TracksQuiet(codec, m, m', events, Raw);
      }
    case Stop(_) => assert events + [] == events;
    case Metadata(input, output) =>
      var a := MessageDelta(m.stopReason, Usage(input, output, 0, 0));
      TracksQuiet(codec, m, m', events, a);
      TracksQuiet(codec, m', m', events + [a], MessageStop);
      assert events + [a] + [MessageStop] == events + [a, MessageStop];
    case Unknown => TracksQuiet(codec, m, m', events, Raw);
  }

  lemma {:induction false} TracksClose(codec: Codec, m: Mapper, events: seq<ProviderEvent>, index: int)
    requires Tracks(m, events) && index in m.open
    ensures BlockTells(codec, events, index, Verbatim(codec, m.open[index]))
  {
    var b := m.open[index];
    assert TracksBlock(b, events, index);
    if b.kind == ThinkingKind && b.redacted.Some? {
      assert Verbatim(codec, b) == Encrypted(codec, b.redacted.value);
    }
  }

  lemma {:induction false} MapperIsDisciplined(codec: Codec, stream: seq<WireEvent>, model: string)
    ensures var (m, out) := MapperAfter(codec, stream, model);
      Disciplined(codec, out) && Tracks(m, out)
    decreases |stream|
  {
    if stream != [] {
      MapperIsDisciplined(codec, stream[..|stream| - 1], model);
      var (m, out) := MapperAfter(codec, stream[..|stream| - 1], model);
      TracksTake(codec, m, out, stream[|stream| - 1], model);
    }
  }

  /** For every wire stream, well-formed or not: a delta or a stop only ever names an open block,
      and a stopped block says exactly the deltas since it was opened, or encrypted reasoning in their place. */
  lemma {:induction false} MappedIsDisciplined(codec: Codec, stream: seq<WireEvent>, model: string)
    ensures Disciplined(codec, Mapped(codec, stream, model))
  {
    MapperIsDisciplined(codec, stream, model);
    var (m, out) := MapperAfter(codec, stream, model);
    if m.sawStop {
      var a, b := MessageDelta(m.stopReason, ZERO_USAGE), MessageStop;
      AppendOne(codec, out, a);
      AppendOne(codec, out + [a], b);
      assert out + [a, b] == out + [a] + [b];
    } else {
      assert out + [] == out;
    }
  }

  // --- What a stopped block says, to the byte ------------------------------------------------------

  /** The encrypted reasoning that came for a block since it was last opened or closed. */
  function WireRedacted(stream: seq<WireEvent>, index: int): Option<string>
    decreases |stream|
  {
    if stream == [] then None
    else
      var before := WireRedacted(stream[..|stream| - 1], index);
      match stream[|stream| - 1]
      case BlockOpen(i, Some(_)) => if i == index then None else before
      case BlockClose(i) => if i == index then None else before
      case BlockDelta(i, Some(Delta(None, None, Some(Reasoning(None, Some(bytes)))))) =>
        if i != index then before else Some((if before.Some? then before.value else "") + bytes)
      case _ => before
  }

  lemma {:induction false} MapperHoldsRedacted(codec: Codec, stream: seq<WireEvent>, model: string, index: int)
    ensures var open := MapperAfter(codec, stream, model).0.open;
      WireRedacted(stream, index) == if index in open then open[index].redacted else None
    decreases |stream|
  {
    if stream != [] {
      MapperHoldsRedacted(codec, stream[..|stream| - 1], model, index);
    }
  }

  /** Text and tool input come from the deltas; thinking is the encrypted bytes when there are any, and else the deltas. */
  ghost predicate Says(codec: Codec, before: seq<ProviderEvent>, redacted: Option<string>, index: int, block: Value) {
    && BlockTells(codec, before, index, block)
    && (KindIn(before, index) == Some(ThinkingKind) ==>
          block == if redacted.Some? then Encrypted(codec, redacted.value) else Reasoned(DeltaText(before, index)))
  }

  lemma {:induction false} CloseSays(codec: Codec, stream: seq<WireEvent>, index: int, model: string)
    requires index in MapperAfter(codec, stream, model).0.open
    ensures var (m, out) := MapperAfter(codec, stream, model);
      Says(codec, out, WireRedacted(stream, index), index, Verbatim(codec, m.open[index]))
  {
    var (m, out) := MapperAfter(codec, stream, model);
    MapperIsDisciplined(codec, stream, model);
    MapperHoldsRedacted(codec, stream, model, index);
    TracksClose(codec, m, out, index);
    assert TracksBlock(m.open[index], out, index);
  }

  /** For every wire stream, every stopped block answers one close on the wire, and says exactly what came for it
      before that since it was opened. */
  lemma {:induction false} StoppedBlockSays(codec: Codec, stream: seq<WireEvent>, model: string, k: nat) returns (j: nat)
    requires k < |Mapped(codec, stream, model)| && Mapped(codec, stream, model)[k].BlockStop?
    ensures var e, before := Mapped(codec, stream, model)[k], Mapped(codec, stream, model)[..k];
      && j < |stream| && stream[j] == BlockClose(e.index)
      && before == MapperAfter(codec, stream[..j], model).1
      && Says(codec, before, WireRedacted(stream[..j], e.index), e.index, e.block)
  {
    var out := MapperAfter(codec, stream, model).1;
    assert Mapped(codec, stream, model)[..k] == out[..k];
    j := StopAnswersClose(codec, stream, model, k);
  }

  lemma {:induction false} StopAnswersClose(codec: Codec, stream: seq<WireEvent>, model: string, k: nat) returns (j: nat)
    requires k < |MapperAfter(codec, stream, model).1| && MapperAfter(codec, stream, model).1[k].BlockStop?
    ensures var out := MapperAfter(codec, stream, model).1;
      && j < |stream| && stream[j] == BlockClose(out[k].index)
      && out[..k] == MapperAfter(codec, stream[..j], model).1
      && Says(codec, out[..k], WireRedacted(stream[..j], out[k].index), out[k].index, out[k].block)
    decreases |stream|
  {
    var init, last := stream[..|stream| - 1], stream[|stream| - 1];
    var (m, before) := MapperAfter(codec, init, model);
    var out := MapperAfter(codec, stream, model).1;
    if k < |before| {
      j := StopAnswersClose(codec, init, model, k);
      assert stream[..j] == init[..j] && out[..k] == before[..k];
    } else {
      j := |init|;
      OneStop(codec, m, last, model, k - |before|);
      assert out[..k] == before;
      CloseSays(codec, init, last.index, model);
    }
  }

  lemma {:induction false} OneStop(codec: Codec, m: Mapper, event: WireEvent, model: string, k: nat)
    requires k < |Take(codec, m, event, model).1| && Take(codec, m, event, model).1[k].BlockStop?
    ensures k == 0 && event.BlockClose? && event.index in m.open
    ensures Take(codec, m, event, model).1 == [BlockStop(event.index, Verbatim(codec, m.open[event.index]))]
  {
  }

  // --- What is broadcast is what is recorded ------------------------------------------------------

  /** The normalizer knows a block by the kind it was opened with. */
  lemma {:induction false} FedKind(n: Norm, events: seq<ProviderEvent>, index: int)
    ensures KindIn(events, index).Some? ==>
      var fed := Feed(n, events);
      index in fed.blocks && fed.blocks[index].kind == KindIn(events, index).value
    decreases |events|
  {
    if events != [] {
      FedKind(n, events[..|events| - 1], index);
    }
  }

  lemma {:induction false} FedTurn(n: Norm, events: seq<ProviderEvent>)
    ensures Feed(n, events).turnId == n.turnId
    decreases |events|
  {
    if events != [] {
      FedTurn(n, events[..|events| - 1]);
      NumbersAreConsecutive(Feed(n, events[..|events| - 1]), events[|events| - 1]);
    }
  }

  predicate Broadcasts(n: Norm, e: ProviderEvent) {
    && (e.TextDelta? ==> MapEvent(n, e).1 == [Envelope(None, AiTextDelta, Claude, BlockText(BlockKey(n.turnId, e.index), e.text))])
    && (e.ThinkingDelta? ==> MapEvent(n, e).1 == [Envelope(None, AiThinkingDelta, Claude, BlockText(BlockKey(n.turnId, e.index), e.text))])
  }

  /** The text a finished block is recorded with. */
  function Recorded(n: Norm, e: ProviderEvent): Option<Payload>
    requires e.BlockStop?
  {
    var out := MapEvent(n, e).1;
    if out != [] && (out[0].etype == AiText || out[0].etype == AiThinking) then Some(out[0].payload) else None
  }

  /** For every wire stream and every block of text or thinking it finishes: what is recorded under the
      block's key is exactly the deltas of that block since it was opened, each of which was broadcast as
      it came, under the same key. */
  lemma {:induction false} RecordedIsBroadcast(codec: Codec, stream: seq<WireEvent>, model: string, n: Norm, k: nat)
    requires n.blocks == map[] && k < |Mapped(codec, stream, model)|
    ensures var events := Mapped(codec, stream, model);
      var before := Feed(n, events[..k]);
      && Broadcasts(before, events[k]) && before.turnId == n.turnId
      && (events[k].BlockStop? && KindIn(events[..k], events[k].index) in {Some(TextKind), Some(ThinkingKind)} ==>
            Recorded(before, events[k]) == Some(BlockText(BlockKey(n.turnId, events[k].index), DeltaText(events[..k], events[k].index))))
  {
    var events := Mapped(codec, stream, model);
    MappedIsDisciplined(codec, stream, model);
    assert WellPlaced(codec, events, k);
    FedTurn(n, events[..k]);
    if events[k].BlockStop? && KindIn(events[..k], events[k].index) in {Some(TextKind), Some(ThinkingKind)} {
      var e := events[k];
      FedKind(n, events[..k], e.index);
      AccumulatorHoldsDeltas(n, events[..k], e.index);
      FinishedTells(codec, Feed(n, events[..k]), events[..k], e.index, e.block);
    }
  }

  lemma {:induction false} FinishedTells(codec: Codec, n: Norm, before: seq<ProviderEvent>, index: int, block: Value)
    requires BlockTells(codec, before, index, block) && index in n.blocks
    requires KindIn(before, index) == Some(n.blocks[index].kind) && n.blocks[index].kind in {TextKind, ThinkingKind}
    requires n.blocks[index].text == DeltaText(before, index)
    ensures Recorded(n, BlockStop(index, block)) == Some(BlockText(BlockKey(n.turnId, index), DeltaText(before, index)))
  {
  }
}
