/** Live deltas: coalesced while they wait, sent one POST at a time, never retried. */
module Ephemeral {
  import opened Json

  const QUEUE_LIMIT := 2000

  datatype Kind = TextDelta | ThinkingDelta | Other(name: string)

  /** A live event; only the two delta kinds accumulate on the client, the rest replace. */
  datatype Live = Live(sessionId: string, runId: string, kind: Kind, block: Option<string>, text: Option<string>, rest: int)

  /** What a client accumulates text under. */
  datatype Stream = Stream(sessionId: string, runId: string, kind: Kind, block: Option<string>)

  function StreamOf(e: Live): Stream {
    Stream(e.sessionId, e.runId, e.kind, e.block)
  }

  predicate Coalescing(k: Kind) {
    k.TextDelta? || k.ThinkingDelta?
  }

  predicate Mergeable(tail: Live, next: Live) {
    Coalescing(next.kind) && StreamOf(tail) == StreamOf(next)
  }

  function TextOf(e: Live): string {
    if e.text.Some? then e.text.value else ""
  }

  /** The newer event, with both texts. */
  function Merge(tail: Live, next: Live): Live {
    next.(text := Some(TextOf(tail) + TextOf(next)))
  }

  /** Into the last entry or behind it; nowhere else, so nothing moves across what was queued between. */
  function Add(queue: seq<Live>, e: Live): seq<Live> {
    if queue != [] && Mergeable(queue[|queue| - 1], e)
    then queue[|queue| - 1 := Merge(queue[|queue| - 1], e)]
    else queue + [e]
  }

  predicate Overflows(queue: seq<Live>, e: Live) {
    !(queue != [] && Mergeable(queue[|queue| - 1], e)) && |queue| >= QUEUE_LIMIT
  }

  // --- The system ---------------------------------------------------------------------------------

  datatype System = System(queue: seq<Live>, flight: Option<seq<Live>>, delivered: seq<Live>, raw: seq<Live>, lossless: bool)

  const EMPTY := System([], None, [], [], true)

  datatype Action = Enqueue(e: Live) | Pump | Arrive | Fail

  function Next(s: System, a: Action): System {
    match a
    case Enqueue(e) =>
      s.(raw := s.raw + [e], lossless := s.lossless && !Overflows(s.queue, e),
         queue := if Overflows(s.queue, e) then s.queue[1..] + [e] else Add(s.queue, e))
    case Pump => if s.flight.None? && s.queue != [] then s.(queue := [], flight := Some(s.queue)) else s
    case Arrive => if s.flight.Some? then s.(flight := None, delivered := s.delivered + s.flight.value) else s
    case Fail => if s.flight.Some? then s.(flight := None, lossless := false) else s
  }

  function Run(actions: seq<Action>): System
    decreases |actions|
  {
    if actions == [] then EMPTY else Next(Run(actions[..|actions| - 1]), actions[|actions| - 1])
  }

  // --- The queue ------------------------------------------------------------------------------------

  /** The object whose calls are the system's actions; its history is kept beside it. */
  class EphemeralQueue {
    var queue: seq<Live>
    /** The batch whose POST is outstanding. */
    var flight: Option<seq<Live>>
    ghost var actions: seq<Action>

    ghost predicate Valid()
      reads this
    {
      queue == Run(actions).queue && flight == Run(actions).flight
    }

    constructor ()
      ensures Valid() && actions == []
    {
      queue, flight, actions := [], None, [];
    }

    method Enqueue(e: Live)
      requires Valid()
      modifies this`queue, this`actions
      ensures Valid() && actions == old(actions) + [Action.Enqueue(e)]
      ensures queue == if Overflows(old(queue), e) then old(queue)[1..] + [e] else Add(old(queue), e)
    {
      actions := actions + [Action.Enqueue(e)];
      if |queue| > 0 && Mergeable(queue[|queue| - 1], e) {
        queue := queue[|queue| - 1 := Merge(queue[|queue| - 1], e)];
        return;
      }
      if |queue| >= QUEUE_LIMIT { queue := queue[1..]; }
      queue := queue + [e];
    }

    /** The timer, or a caller, starts the pump; one that runs already is left to it. */
    method StartPump() returns (batch: Option<seq<Live>>)
      requires Valid()
      modifies this
      ensures Valid() && actions == old(actions) + [Pump]
      ensures batch == if old(flight).None? && old(queue) != [] then Some(old(queue)) else None
      ensures batch.Some? ==> queue == [] && flight == batch
      ensures batch.None? ==> queue == old(queue) && flight == old(flight)
    {
      actions := actions + [Pump];
      if flight.Some? || |queue| == 0 { return None; }
      batch := Some(queue);
      queue, flight := [], batch;
    }

    /** Answered, or failed, or given up on: it is not sent again, and what waits by now is the next batch. */
    method Returned(arrived: bool) returns (batch: Option<seq<Live>>)
      requires Valid() && flight.Some?
      modifies this
      ensures Valid() && actions == old(actions) + [if arrived then Arrive else Fail] + [Pump]
      ensures batch == flight == if old(queue) == [] then None else Some(old(queue))
      ensures queue == []
    {
      actions := actions + [if arrived then Arrive else Fail];
      flight := None;
      batch := StartPump();
    }
  }

  function Flying(s: System): seq<Live> {
    if s.flight.Some? then s.flight.value else []
  }

  // --- What coalescing keeps -------------------------------------------------------------------------

  /** The one fully coalesced form of a sequence of events. */
  function Coalesced(events: seq<Live>): seq<Live>
    decreases |events|
  {
    if events == [] then [] else Add(Coalesced(events[..|events| - 1]), events[|events| - 1])
  }

  lemma {:induction false} CoalescedNext(events: seq<Live>, e: Live)
    ensures Coalesced(events + [e]) == Add(Coalesced(events), e)
  {
  }

  /** Adding two mergeable events one after the other is adding their merger. */
  lemma {:induction false} AddTwice(queue: seq<Live>, a: Live, b: Live)
    requires Mergeable(a, b)
    ensures Add(Add(queue, a), b) == Add(queue, Merge(a, b))
  {
    if queue != [] && Mergeable(queue[|queue| - 1], a) {
      var tail := queue[|queue| - 1];
      assert TextOf(tail) + TextOf(a) + TextOf(b) == TextOf(tail) + (TextOf(a) + TextOf(b));
    }
  }

  /** What was sent in pieces coalesces as the whole would have. */
  lemma {:induction false} AddCoalesces(sent: seq<Live>, queue: seq<Live>, e: Live)
    ensures Coalesced(sent + Add(queue, e)) == Add(Coalesced(sent + queue), e)
  {
    if queue != [] && Mergeable(queue[|queue| - 1], e) {
      var head, tail := queue[..|queue| - 1], queue[|queue| - 1];
      assert sent + queue == (sent + head) + [tail];
      assert sent + Add(queue, e) == (sent + head) + [Merge(tail, e)];
      CoalescedNext(sent + head, tail);
      CoalescedNext(sent + head, Merge(tail, e));
      AddTwice(Coalesced(sent + head), tail, e);
    } else {
      assert sent + Add(queue, e) == (sent + queue) + [e];
      CoalescedNext(sent + queue, e);
    }
  }

  /** Everything on its way to the client, in order. */
  function Outgoing(s: System): seq<Live> {
    s.delivered + Flying(s) + s.queue
  }

  lemma {:induction false} MovingKeeps(s: System, a: Action)
    requires a.Pump? || a.Arrive?
    ensures Outgoing(Next(s, a)) == Outgoing(s) && Next(s, a).raw == s.raw
  {
  }

  lemma {:induction false} EnqueueKeeps(s: System, e: Live)
    requires !Overflows(s.queue, e) && Coalesced(Outgoing(s)) == Coalesced(s.raw)
    ensures var t := Next(s, Enqueue(e)); Coalesced(Outgoing(t)) == Coalesced(t.raw)
  {
    AddCoalesces(s.delivered + Flying(s), s.queue, e);
    CoalescedNext(s.raw, e);
  }

  /** Over every interleaving without an overflow or a failed POST: what was delivered, what is on its way
      and what waits, in that order, coalesces to exactly what the raw deltas coalesce to. */
  lemma {:induction false} QueueRefinesStream(actions: seq<Action>)
    requires Run(actions).lossless
    ensures Coalesced(Outgoing(Run(actions))) == Coalesced(Run(actions).raw)
    decreases |actions|
  {
    if actions != [] {
      var s, a := Run(actions[..|actions| - 1]), actions[|actions| - 1];
      QueueRefinesStream(actions[..|actions| - 1]);
      match a
      case Enqueue(e) => EnqueueKeeps(s, e);
      case Pump => MovingKeeps(s, a);
      case Arrive => MovingKeeps(s, a);
      case Fail =>
    }
  }

  // --- What a client makes of it ---------------------------------------------------------------------

  /** The text a client has accumulated for a stream. */
  function Heard(events: seq<Live>, stream: Stream): string
    decreases |events|
  {
    if events == [] then ""
    else
      var before := Heard(events[..|events| - 1], stream);
      var e := events[|events| - 1];
      if StreamOf(e) == stream then before + TextOf(e) else before
  }

  /** The whole readings, one by one. */
  function Readings(events: seq<Live>): seq<Live>
    decreases |events|
  {
    if events == [] then []
    else
      var before := Readings(events[..|events| - 1]);
      if Coalescing(events[|events| - 1].kind) then before else before + [events[|events| - 1]]
  }

  /** Which stream spoke, each time another one did. */
  function Speakers(events: seq<Live>): seq<Stream>
    decreases |events|
  {
    if events == [] then []
    else
      var before := Speakers(events[..|events| - 1]);
      var e := events[|events| - 1];
      if before != [] && before[|before| - 1] == StreamOf(e) && Coalescing(e.kind) then before else before + [StreamOf(e)]
  }

  lemma {:induction false} AddHears(queue: seq<Live>, e: Live, stream: Stream)
    ensures Heard(Add(queue, e), stream) == Heard(queue + [e], stream)
    ensures Readings(Add(queue, e)) == Readings(queue + [e])
    ensures Speakers(Add(queue, e)) == Speakers(queue + [e])
  {
  }

  lemma {:induction false} HeardNext(a: seq<Live>, b: seq<Live>, e: Live, stream: Stream)
    requires Heard(a, stream) == Heard(b, stream) && Readings(a) == Readings(b) && Speakers(a) == Speakers(b)
    ensures Heard(a + [e], stream) == Heard(b + [e], stream)
    ensures Readings(a + [e]) == Readings(b + [e]) && Speakers(a + [e]) == Speakers(b + [e])
  {
  }

  /** Coalescing is invisible: the same text under every stream, the same readings, the same turns. */
  lemma {:induction false} CoalescedHears(events: seq<Live>, stream: Stream)
    ensures Heard(Coalesced(events), stream) == Heard(events, stream)
    ensures Readings(Coalesced(events)) == Readings(events)
    ensures Speakers(Coalesced(events)) == Speakers(events)
    decreases |events|
  {
    if events != [] {
      var init, e := events[..|events| - 1], events[|events| - 1];
      CoalescedHears(init, stream);
      AddHears(Coalesced(init), e, stream);
      HeardNext(Coalesced(init), init, e, stream);
      assert events == init + [e];
    }
  }

  /** Once everything was delivered, a client holds under every stream the text of the raw deltas, has had
      every reading that is not a delta, unmerged, and heard the streams speak in the order they did. */
  lemma {:induction false} ClientHearsRaw(actions: seq<Action>, stream: Stream)
    requires Run(actions).lossless && Run(actions).queue == [] && Run(actions).flight == None
    ensures var s := Run(actions);
      && Heard(s.delivered, stream) == Heard(s.raw, stream)
      && Readings(s.delivered) == Readings(s.raw)
      && Speakers(s.delivered) == Speakers(s.raw)
  {
    var s := Run(actions);
    QueueRefinesStream(actions);
    assert s.delivered + [] + [] == s.delivered;
    CoalescedHears(s.delivered, stream);
    CoalescedHears(s.raw, stream);
  }

  // --- What is dropped -------------------------------------------------------------------------------

  lemma {:induction false} AddBehind(queue: seq<Live>, e: Live)
    requires |queue| > 1
    ensures Add(queue, e)[1..] == Add(queue[1..], e)
  {
  }

  lemma {:induction false} DropStands(events: seq<Live>, e: Live, n: nat)
    requires n <= |events| && |Coalesced(events)| > 1 && Coalesced(events[n..]) == Coalesced(events)[1..]
    ensures Coalesced((events + [e])[n..]) == Coalesced(events + [e])[1..]
  {
    assert (events + [e])[n..] == events[n..] + [e];
    CoalescedNext(events[n..], e);
    CoalescedNext(events, e);
    AddBehind(Coalesced(events), e);
  }

  lemma {:induction false} AddedAlone(queue: seq<Live>, e: Live)
    requires |queue| <= 1 && |Add(queue, e)| > 1
    ensures queue != [] && Add(queue, e)[1..] == [e] == Coalesced([e])
  {
    assert [e][..0] == [];
    assert Coalesced([]) == [];
  }

  /** Without what its oldest entry was made of, what is queued is the same but for that entry. */
  lemma {:induction false} DropOldest(events: seq<Live>) returns (n: nat)
    requires |Coalesced(events)| > 1
    ensures 0 < n <= |events| && Coalesced(events[n..]) == Coalesced(events)[1..]
    decreases |events|
  {
    var init, e := events[..|events| - 1], events[|events| - 1];
    var queue := Coalesced(init);
    assert events == init + [e];
    if |queue| > 1 {
      n := DropOldest(init);
      DropStands(init, e, n);
    } else {
      AddedAlone(queue, e);
      n := |init|;
      assert events[n..] == [e];
    }
  }

  /** In every run whatever the queue is what the newest events coalesce to, never more than two thousand entries of it; and
      an event makes it no shorter. So what is dropped over the limit is the oldest, and no more of it than must be. */
  lemma {:induction false} QueueIsNewest(actions: seq<Action>) returns (n: nat)
    ensures var s := Run(actions);
      n <= |s.raw| && s.queue == Coalesced(s.raw[n..]) && |s.queue| <= 2000
    ensures forall e :: |Run(actions + [Enqueue(e)]).queue| >= |Run(actions).queue|
    decreases |actions|
  {
    if actions == [] {
      n := 0;
    } else {
      var init, a := actions[..|actions| - 1], actions[|actions| - 1];
      var s, t := Run(init), Run(actions);
      n := QueueIsNewest(init);
      match a
      case Enqueue(e) => n := EnqueueIsNewest(s, e, n);
      case Pump =>
        if s.flight.None? && s.queue != [] {
          n := |t.raw|;
        }
      case _ =>
    }
    NoShorter(actions);
  }

  lemma {:induction false} EnqueueIsNewest(s: System, e: Live, n: nat) returns (n': nat)
    requires n <= |s.raw| && s.queue == Coalesced(s.raw[n..]) && |s.queue| <= 2000
    ensures var t := Next(s, Enqueue(e));
      n' <= |t.raw| && t.queue == Coalesced(t.raw[n'..]) && |t.queue| <= 2000
  {
    var t := Next(s, Enqueue(e));
    n' := n;
    assert t.raw[n..] == s.raw[n..] + [e];
    CoalescedNext(s.raw[n..], e);
    if Overflows(s.queue, e) {
      var m := DropOldest(s.raw[n..]);
      n' := n + m;
      assert s.raw[n..][m..] == s.raw[n'..];
      assert t.raw[n'..] == s.raw[n'..] + [e];
      CoalescedNext(s.raw[n'..], e);
    }
  }

  lemma {:induction false} NoShorter(actions: seq<Action>)
    ensures forall e :: |Run(actions + [Enqueue(e)]).queue| >= |Run(actions).queue|
  {
    forall e ensures |Run(actions + [Enqueue(e)]).queue| >= |Run(actions).queue| {
      assert (actions + [Enqueue(e)])[..|actions|] == actions;
    }
  }

  /** What stands for merged events says of itself what the last of them said. */
  lemma {:induction false} LastSpeaks(events: seq<Live>)
    requires events != []
    ensures Coalesced(events) != []
    ensures var c, e := Coalesced(events)[|Coalesced(events)| - 1], events[|events| - 1];
      c.sessionId == e.sessionId && c.runId == e.runId && c.kind == e.kind && c.block == e.block && c.rest == e.rest
  {
  }
}
