/** What the loop hears of a stream is what the stream says, in whatever turn and under whatever numbers. */
module Hearing {
  import opened Json
  import opened Contract
  import opened Normalize
  import opened RunLoop
  import opened World
  import opened RunLaws

  // --- The numbers do not matter ----------------------------------------------------------------

  ghost predicate Alike(a: Heard, b: Heard) {
    && a.norm.blocks == b.norm.blocks && a.blocks == b.blocks && a.calls == b.calls && a.usage == b.usage
    && a.reported == b.reported && a.stopReason == b.stopReason && a.broke == b.broke
    && SameFace(a.durable, b.durable)
  }

  predicate SameFace(a: seq<Envelope>, b: seq<Envelope>) {
    |a| == |b| && forall i :: 0 <= i < |a| ==> a[i].etype == b[i].etype && a[i].actor == b[i].actor
  }

  lemma {:induction false} MapAlike(n: Norm, m: Norm, e: ProviderEvent)
    requires n.blocks == m.blocks
    ensures MapEvent(n, e).0.blocks == MapEvent(m, e).0.blocks && SameFace(MapEvent(n, e).1, MapEvent(m, e).1)
    ensures |MapEvent(n, e).1| <= 1
  {
  }

  lemma {:induction false} FaceConcat(a: seq<Envelope>, b: seq<Envelope>, x: seq<Envelope>, y: seq<Envelope>)
    requires SameFace(a, b) && SameFace(x, y)
    ensures SameFace(a + x, b + y)
  {
  }

  lemma {:induction false} HearOneAlike(a: Heard, b: Heard, e: ProviderEvent)
    requires Alike(a, b)
    ensures Alike(HearOne(a, e), HearOne(b, e))
  {
    MapAlike(a.norm, b.norm, e);
    var x, y := MapEvent(a.norm, e).1, MapEvent(b.norm, e).1;
    SortOut(x);
    SortOut(y);
    FaceConcat(a.durable, b.durable, Durable(x), Durable(y));
  }

  lemma {:induction false} HearAlike(n: Norm, m: Norm, events: seq<ProviderEvent>)
    requires n.blocks == m.blocks
    ensures Alike(Hear(n, events), Hear(m, events))
    decreases |events|
  {
    if events != [] {
      HearAlike(n, m, events[..|events| - 1]);
      HearOneAlike(Hear(n, events[..|events| - 1]), Hear(m, events[..|events| - 1]), events[|events| - 1]);
    }
  }

  lemma {:induction false} FirstAlike(a: seq<Envelope>, b: seq<Envelope>, claude: bool)
    requires SameFace(a, b)
    ensures FirstOf(a, claude) == FirstOf(b, claude)
  {
    var x, y := FirstOf(a, claude), FirstOf(b, claude);
    if x.Some? {
      assert Fits(b[x.value], claude);
    }
    if y.Some? {
      assert Fits(a[y.value], claude);
    }
  }

  // --- When a turn's blocks have a speaker --------------------------------------------------------

  predicate AnyFits(durable: seq<Envelope>, claude: bool) {
    exists i :: 0 <= i < |durable| && Fits(durable[i], claude)
  }

  lemma {:induction false} FirstIffAny(durable: seq<Envelope>, claude: bool)
    ensures FirstOf(durable, claude).Some? <==> AnyFits(durable, claude)
  {
  }

  lemma {:induction false} AnnouncedGrows(init: seq<ProviderEvent>, e: ProviderEvent, own: bool)
    ensures AnyAnnounced(init + [e], own) <==> AnyAnnounced(init, own) || Announced(init + [e], |init|, own)
  {
    var all := init + [e];
    forall k: nat | k < |init| ensures Announced(all, k, own) <==> Announced(init, k, own) {
      assert all[..k] == init[..k];
    }
    if AnyAnnounced(init, own) {
      var k: nat :| k < |init| && Announced(init, k, own);
      assert Announced(all, k, own);
    }
    if AnyAnnounced(all, own) && !Announced(all, |init|, own) {
      var k: nat :| k < |all| && Announced(all, k, own);
      assert Announced(init, k, own);
    }
  }

  lemma {:induction false} FitsGrow(durable: seq<Envelope>, more: seq<Envelope>, claude: bool)
    requires |more| <= 1
    ensures AnyFits(durable + more, claude) <==> AnyFits(durable, claude) || (more != [] && Fits(more[0], claude))
  {
    var all := durable + more;
    assert forall i :: 0 <= i < |durable| ==> all[i] == durable[i];
    if more != [] {
      assert all[|durable|] == more[0];
    }
  }

  /** What one event contributes that could carry blocks. */
  lemma {:induction false} OneCarrier(n: Norm, e: ProviderEvent)
    ensures var out := Durable(MapEvent(n, e).1);
      && |out| <= 1
      && (out != [] && Fits(out[0], true) <==>
            e.BlockStop? && Announce(n, e.index, e.block).Some? && Announce(n, e.index, e.block).value.1 == Claude)
      && (out != [] && Fits(out[0], false) <==>
            e.BlockStop? && Announce(n, e.index, e.block).Some? && Announce(n, e.index, e.block).value.1 == System)
  {
    NumbersAreConsecutive(n, e);
    SortOut(MapEvent(n, e).1);
  }

  /** The kind a block is heard as is the kind it was streamed as. */
  lemma {:induction false} HeardKind(events: seq<ProviderEvent>, index: int)
    requires !Voice(events).broke
    ensures var blocks := Voice(events).norm.blocks;
      && (index in blocks <==> KindOf(events, index).Some?)
      && (index in blocks ==> Some(blocks[index].kind) == KindOf(events, index))
    decreases |events|
  {
    if events != [] {
      HeardKind(events[..|events| - 1], index);
    }
  }

  lemma {:induction false} NamedKind(block: Value)
    ensures InferKind(Shape(block)) == KindNamed(block)
  {
  }

  /** A block is announced just when all that is read of it can be. */
  lemma {:induction false} AnnouncedIfLegible(n: Norm, index: int, block: Value, kind: Option<BlockKind>)
    requires kind == if index in n.blocks then Some(n.blocks[index].kind) else KindNamed(block)
    ensures Announce(n, index, block).Some? <==> kind.Some? && Legible(kind.value, block)
    ensures Announce(n, index, block).Some? ==> Announce(n, index, block).value.1 == if kind.value.CompactionKind? then System else Claude
  {
    NamedKind(block);
  }

  lemma {:induction false} LastAnnounced(init: seq<ProviderEvent>, e: ProviderEvent, own: bool)
    requires !Voice(init).broke
    ensures Announced(init + [e], |init|, own) <==>
      && e.BlockStop?
      && var a := Announce(Voice(init).norm, e.index, e.block);
         a.Some? && a.value.1 == if own then Claude else System
  {
    assert (init + [e])[..|init|] == init;
    if e.BlockStop? {
      HeardKind(init, e.index);
      AnnouncedIfLegible(Voice(init).norm, e.index, e.block,
                         if KindOf(init, e.index).Some? then KindOf(init, e.index) else KindNamed(e.block));
    }
  }

  lemma {:induction false} CarriersAreAnnounced(events: seq<ProviderEvent>)
    requires !Voice(events).broke
    ensures AnyFits(Voice(events).durable, true) <==> AnyAnnounced(events, true)
    ensures AnyFits(Voice(events).durable, false) <==> AnyAnnounced(events, false)
    decreases |events|
  {
    if events != [] {
      var init, e := events[..|events| - 1], events[|events| - 1];
      assert events == init + [e];
      CarriersAreAnnounced(init);
      CarrierNext(Voice(init), init, e);
    }
  }

  lemma {:induction false} CarrierNext(h: Heard, init: seq<ProviderEvent>, e: ProviderEvent)
    requires h == Voice(init) && !HearOne(h, e).broke
    requires AnyFits(h.durable, true) <==> AnyAnnounced(init, true)
    requires AnyFits(h.durable, false) <==> AnyAnnounced(init, false)
    ensures AnyFits(HearOne(h, e).durable, true) <==> AnyAnnounced(init + [e], true)
    ensures AnyFits(HearOne(h, e).durable, false) <==> AnyAnnounced(init + [e], false)
  {
    OneCarrier(h.norm, e);
    var more := Durable(MapEvent(h.norm, e).1);
    FitsGrow(h.durable, more, true);
    FitsGrow(h.durable, more, false);
    AnnouncedGrows(init, e, true);
    AnnouncedGrows(init, e, false);
    LastAnnounced(init, e, true);
    LastAnnounced(init, e, false);
  }

  /** Who the blocks heard are said by: nobody, if no event can carry them. */
  function CarriedBy(h: Heard): Option<Role> {
    match Carrier(h.durable)
    case None => None
    case Some(i) => Some(if h.durable[i].actor == Claude then AssistantRole else UserRole)
  }

  /** A turn's blocks reach the surface exactly when reading some finished block did not throw; and they
      are the assistant's unless every such block was a compaction. */
  lemma {:induction false} SpeakerExactly(events: seq<ProviderEvent>)
    requires !Torn(events)
    ensures CarriedBy(Voice(events)) == Speaker(events)
  {
    VoiceBlocks(events);
    CarriersAreAnnounced(events);
    FirstIffAny(Voice(events).durable, true);
    FirstIffAny(Voice(events).durable, false);
  }

  // --- What is heard of a stream --------------------------------------------------------------------

  /** What was heard is what the stream says. */
  ghost predicate Says(h: Heard, events: seq<ProviderEvent>) {
    && h.blocks == Stopped(events) && h.calls == CallsIn(Stopped(events)) && CarriedBy(h) == Speaker(events)
    && ReasonOf(h) == LastReason(events) && (h.reported <==> LastUsage(events).Some?)
    && h.usage == if LastUsage(events).Some? then LastUsage(events).value else ZERO_USAGE
  }

  lemma {:induction false} SpeakAlike(a: Heard, b: Heard)
    requires Alike(a, b)
    ensures CarriedBy(a) == CarriedBy(b)
  {
    FirstAlike(a.durable, b.durable, true);
    FirstAlike(a.durable, b.durable, false);
  }

  /** Whatever number and turn it is heard in, it breaks off where the stream does and otherwise says what that says. */
  lemma {:induction false} HearsStream(n: Norm, events: seq<ProviderEvent>)
    requires n.blocks == map[]
    ensures Hear(n, events).broke <==> Torn(events)
    ensures !Torn(events) ==> Says(Hear(n, events), events)
  {
    HearAlike(n, Norm(0, "", map[]), events);
    VoiceBlocks(events);
    if !Torn(events) {
      VoiceCalls(events);
      VoiceReason(events);
      SpeakerExactly(events);
      SpeakAlike(Hear(n, events), Voice(events));
    }
  }
}
