/** What is told while a turn streams, and what is kept for when it settles, is what its stream announces. */
module Overheard {
  import opened Json
  import opened Contract
  import opened Journal
  import opened Normalize
  import opened RunLoop
  import opened World
  import opened Hearing
  import opened RunLaws
  import opened Script

  // --- What is held of a block -----------------------------------------------------------------------

  lemma {:induction false} HeardIsFed(n: Norm, events: seq<ProviderEvent>)
    requires !Hear(n, events).broke
    ensures Hear(n, events).norm.blocks == Feed(n, events).blocks && Hear(n, events).norm.turnId == n.turnId
    decreases |events|
  {
    if events != [] {
      var init, e := events[..|events| - 1], events[|events| - 1];
      HeardIsFed(n, init);
      MapAlike(Hear(n, init).norm, Feed(n, init), e);
      NumbersAreConsecutive(Hear(n, init).norm, e);
    }
  }

  /** Kind and text of what is held are those of the stream. */
  ghost predicate Holds(n: Norm, events: seq<ProviderEvent>, index: int) {
    && (index in n.blocks <==> KindOf(events, index).Some?)
    && (index in n.blocks ==> Some(n.blocks[index].kind) == KindOf(events, index) && n.blocks[index].text == DeltaText(events, index))
    && (index !in n.blocks ==> DeltaText(events, index) == "")
  }

  lemma {:induction false} HoldsStream(n: Norm, events: seq<ProviderEvent>, index: int)
    requires n.blocks == map[] && !Hear(n, events).broke
    ensures Holds(Hear(n, events).norm, events, index)
  {
    HearAlike(n, Norm(0, "", map[]), events);
    HeardKind(events, index);
    HeardIsFed(n, events);
    AccumulatorHoldsDeltas(n, events, index);
  }

  // --- One event ----------------------------------------------------------------------------------------

  lemma {:induction false} BlockAnnounced(n: Norm, before: seq<ProviderEvent>, index: int, block: Value)
    requires Holds(n, before, index)
    ensures var a := Announce(n, index, block);
      BlockFace(n.turnId, before, index, block)
      == if a.Some? then FaceOf(a.value.0, a.value.1, a.value.2) else Face(AiRaw, System, NoPayload)
    ensures Announce(n, index, block).Some? ==> !Ephemeral(Announce(n, index, block).value.0)
  {
    NamedKind(block);
  }

  /** What an event is kept as. */
  function Kept(turnId: string, before: seq<ProviderEvent>, e: ProviderEvent): seq<Face> {
    match e
    case BlockStop(index, block) => [BlockFace(turnId, before, index, block)]
    case Raw => [Face(AiRaw, System, NoPayload)]
    case _ => []
  }

  lemma {:induction false} StopMaps(n: Norm, before: seq<ProviderEvent>, index: int, block: Value)
    requires Holds(n, before, index)
    ensures var out := MapEvent(n, BlockStop(index, block)).1;
      |out| == 1 && !Ephemeral(out[0].etype) && Faces(out) == [BlockFace(n.turnId, before, index, block)]
  {
    BlockAnnounced(n, before, index, block);
  }

  lemma {:induction false} OtherMaps(n: Norm, e: ProviderEvent)
    requires !e.BlockStop?
    ensures var out := MapEvent(n, e).1;
      && |out| <= 1
      && (if out != [] && !Ephemeral(out[0].etype) then Faces(out) == Kept(n.turnId, [], e) && Streamed(n.turnId, e) == []
          else Kept(n.turnId, [], e) == [] && Faces(out) == if e.MessageDelta? then [] else Streamed(n.turnId, e))
  {
  }

  /** What one event more adds to what is kept, and to what is told. */
  ghost predicate HeardMore(h: Heard, h': Heard, kept: seq<Face>, live: seq<Face>) {
    && Faces(h'.durable) == Faces(h.durable) + kept
    && Lines(h'.live) == Lines(h.live) + if live == [] then [] else [Script.Tells(live)]
  }

  lemma {:induction false} FacesConcat(a: seq<Envelope>, b: seq<Envelope>)
    ensures Faces(a + b) == Faces(a) + Faces(b)
  {
  }

  lemma {:induction false} LiveLine(live: seq<Step>, events: seq<Envelope>)
    ensures Lines(live + [Emit(events)]) == Lines(live) + [Script.Tells(Faces(events))]
  {
  }

  lemma {:induction false} StopHeard(h: Heard, before: seq<ProviderEvent>, index: int, block: Value)
    requires !h.broke && !Unreadable(block) && Holds(h.norm, before, index)
    ensures HeardMore(h, HearOne(h, BlockStop(index, block)), [BlockFace(h.norm.turnId, before, index, block)], [])
  {
    var e := BlockStop(index, block);
    var out := MapEvent(h.norm, e).1;
    StopMaps(h.norm, before, index, block);
    SortOut(out);
    FacesConcat(h.durable, out);
    assert h.live + [] == h.live;
  }

  lemma {:induction false} OtherHeard(h: Heard, e: ProviderEvent)
    requires !h.broke && !e.BlockStop?
    ensures HeardMore(h, HearOne(h, e), Kept(h.norm.turnId, [], e), Streamed(h.norm.turnId, e))
  {
    var out := MapEvent(h.norm, e).1;
    OtherMaps(h.norm, e);
    SortOut(out);
    FacesConcat(h.durable, Durable(out));
    assert Faces([]) == [] && Faces(h.durable) + [] == Faces(h.durable);
    var seen := Notice(h, e);
    if e.MessageDelta? {
      var told := [Mint(h.norm, ContextUsage, System, Spend(e.usage)).1];
      LiveLine(h.live, told);
      assert Faces(told) == Streamed(h.norm.turnId, e);
    }
    if Streamed(h.norm.turnId, e) != [] && !e.MessageDelta? {
      LiveLine(seen.live, out);
    }
    assert seen.live + [] == seen.live;
  }

  // --- A stream -------------------------------------------------------------------------------------------

  lemma {:induction false} NextHeard(n: Norm, init: seq<ProviderEvent>, e: ProviderEvent)
    requires n.blocks == map[] && !Hear(n, init).broke && !HearOne(Hear(n, init), e).broke
    ensures HeardMore(Hear(n, init), HearOne(Hear(n, init), e), Kept(n.turnId, init, e), Streamed(n.turnId, e))
  {
    var h := Hear(n, init);
    HeardIsFed(n, init);
    match e
    case BlockStop(index, block) =>
      HoldsStream(n, init, index);
      StopHeard(h, init, index, block);
    case _ => OtherHeard(h, e);
  }

  lemma {:induction false} NextLines(turnId: string, init: seq<ProviderEvent>, e: ProviderEvent)
    ensures Announcements(turnId, init + [e]) == Announcements(turnId, init) + Kept(turnId, init, e)
    ensures LiveLines(turnId, init + [e])
      == LiveLines(turnId, init) + if Streamed(turnId, e) == [] then [] else [Script.Tells(Streamed(turnId, e))]
  {
    assert (init + [e])[..|init|] == init;
  }

  lemma {:induction false} WholeHeard(n: Norm, events: seq<ProviderEvent>)
    requires n.blocks == map[] && !Torn(events)
    ensures !Hear(n, events).broke
    ensures Faces(Hear(n, events).durable) == Announcements(n.turnId, events)
    ensures Lines(Hear(n, events).live) == LiveLines(n.turnId, events)
    decreases |events|
  {
    HearsStream(n, events);
    if events == [] {
      assert Lines([]) == [];
    } else {
      var init, e := events[..|events| - 1], events[|events| - 1];
      assert events == init + [e];
      WholeHeard(n, init);
      NextHeard(n, init, e);
      NextLines(n.turnId, init, e);
    }
  }

  /** Once it breaks nothing more is told. */
  lemma {:induction false} TornHeard(n: Norm, events: seq<ProviderEvent>)
    requires n.blocks == map[]
    ensures !Torn(Legibly(events)) && Hear(n, events).live == Hear(n, Legibly(events)).live
    decreases |events|
  {
    HearsStream(n, events);
    if Torn(events) {
      var init, e := events[..|events| - 1], events[|events| - 1];
      HearsStream(n, init);
      TornHeard(n, init);
    }
  }

  /** What is told while a stream is heard is what as much of it as can be read says as it comes; and what is kept, of one
      that can be read to its end, is what its blocks are announced as. */
  lemma {:induction false} HearsScript(n: Norm, events: seq<ProviderEvent>)
    requires n.blocks == map[]
    ensures Lines(Hear(n, events).live) == LiveLines(n.turnId, Legibly(events))
    ensures !Torn(events) ==> Faces(Hear(n, events).durable) == Announcements(n.turnId, events)
  {
    TornHeard(n, events);
    WholeHeard(n, Legibly(events));
  }
}
