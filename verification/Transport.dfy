/** Durable delivery: a ring buffer, flushed by one POST at a time, to a receiver that keeps one copy
    of each (run, seq). Everything that happens while a POST is outstanding is interleaved freely. */
module Transport {
  import opened Json

  datatype Event = Event(runId: string, seqNo: nat, body: string)

  /** How a POST came back. A lost one may or may not have been stored. */
  datatype Outcome = Status(code: nat) | NetworkError

  datatype Delivery = Acked | Buffered | Fatal

  predicate Accepted(o: Outcome) {
    o.Status? && 200 <= o.code < 300
  }

  predicate Transient(o: Outcome) {
    o.NetworkError? || o.code >= 500
  }

  // --- What the transport keeps ------------------------------------------------------------

  /** Room is made by evicting the oldest. */
  function Push(buffer: seq<Event>, e: Event, limit: nat): seq<Event> {
    (if |buffer| >= limit && |buffer| > 0 then buffer[1..] else buffer) + [e]
  }

  function PushAll(buffer: seq<Event>, events: seq<Event>, limit: nat): seq<Event>
    decreases |events|
  {
    if events == [] then buffer
    else Push(PushAll(buffer, events[..|events| - 1], limit), events[|events| - 1], limit)
  }

  /** `splice(0, n)` */
  function Drop(buffer: seq<Event>, n: nat): seq<Event> {
    if n <= |buffer| then buffer[n..] else []
  }

  // --- The receiver -----------------------------------------------------------------------------

  predicate SameKey(a: Event, b: Event) {
    a.runId == b.runId && a.seqNo == b.seqNo
  }

  predicate Known(log: seq<Event>, e: Event) {
    exists i :: 0 <= i < |log| && SameKey(log[i], e)
  }

  /** UNIQUE (ai_run_id, seq): a duplicate is skipped. */
  function Ingest(log: seq<Event>, e: Event): seq<Event> {
    if Known(log, e) then log else log + [e]
  }

  /** First occurrences only. */
  function Dedup(events: seq<Event>): seq<Event>
    decreases |events|
  {
    if events == [] then [] else Ingest(Dedup(events[..|events| - 1]), events[|events| - 1])
  }

  // --- The system -----------------------------------------------------------------------------------

  /** A request on its way: where in what was enqueued it starts, and how much of it the receiver has
      read. It goes on being read, or not, however the sender was answered. */
  datatype Post = Post(batch: seq<Event>, from: nat, read: nat)

  datatype System = System(
    limit: nat,
    buffer: seq<Event>,
    fatal: bool,
    flight: Option<nat>,
    posts: seq<Post>,
    log: seq<Event>,
    enqueued: seq<Event>,
    acked: nat,
    evicted: nat,
    joined: seq<Event>,
    pushed: nat,
    honest: bool)

  function Start(limit: nat): System {
    System(limit, [], false, None, [], [], [], 0, 0, [], 0, true)
  }

  datatype Action =
    | Enqueue(event: Event)
    | Begin
    | Read(post: nat)
    | Finish(outcome: Outcome)

  predicate Evicts(s: System) {
    |s.buffer| >= s.limit && |s.buffer| > 0
  }

  /** An action that cannot happen now changes nothing. A success is honest when all of the batch was read. */
  function Next(s: System, a: Action): System {
    match a
    case Enqueue(e) =>
      s.(buffer := Push(s.buffer, e, s.limit), enqueued := s.enqueued + [e],
         evicted := s.evicted + (if Evicts(s) then 1 else 0),
         joined := s.joined + [e], pushed := s.pushed + (if Evicts(s) then 1 else 0))
    case Begin =>
      if s.flight.Some? || s.fatal || s.buffer == [] then s
      else s.(flight := Some(|s.posts|), posts := s.posts + [Post(s.buffer, s.acked, 0)], joined := [], pushed := 0)
    case Read(i) =>
      if i < |s.posts| && s.posts[i].read < |s.posts[i].batch|
      then s.(posts := s.posts[i := s.posts[i].(read := s.posts[i].read + 1)],
              log := Ingest(s.log, s.posts[i].batch[s.posts[i].read]))
      else s
    case Finish(o) =>
      if s.flight.None? || s.flight.value >= |s.posts| then s
      else
        var p := s.posts[s.flight.value];
        if Accepted(o) then
          s.(flight := None, buffer := Drop(s.buffer, |p.batch|), acked := s.acked + |p.batch|,
             honest := s.honest && p.read >= |p.batch|)
        else if Transient(o) then s.(flight := None)
        else s.(flight := None, fatal := true)
  }

  function Run(s: System, actions: seq<Action>): System
    decreases |actions|
  {
    if actions == [] then s else Next(Run(s, actions[..|actions| - 1]), actions[|actions| - 1])
  }

  function Enqueues(events: seq<Event>): (r: seq<Action>)
    ensures |r| == |events| && forall i :: 0 <= i < |r| ==> r[i] == Enqueue(events[i])
  {
    seq(|events|, i requires 0 <= i < |events| => Enqueue(events[i]))
  }

  /** One call to enqueue is so many actions of the system. */
  lemma {:induction false} EnqueueIsActions(s: System, events: seq<Event>)
    ensures var t := Run(s, Enqueues(events));
      && t.buffer == PushAll(s.buffer, events, s.limit) && t.enqueued == s.enqueued + events
      && t.limit == s.limit && t.fatal == s.fatal && t.flight == s.flight && t.posts == s.posts
    decreases |events|
  {
    if events != [] {
      var init := events[..|events| - 1];
      assert Enqueues(events)[..|events| - 1] == Enqueues(init);
      EnqueueIsActions(s, init);
      assert events == init + [events[|events| - 1]];
    }
  }

  // --- The transport --------------------------------------------------------------------------------

  lemma {:induction false} RunNext(s: System, actions: seq<Action>, a: Action)
    ensures Run(s, actions + [a]) == Next(Run(s, actions), a)
  {
  }

  lemma {:induction false} RunConcat(s: System, a: seq<Action>, b: seq<Action>)
    ensures Run(s, a + b) == Run(Run(s, a), b)
    decreases |b|
  {
    if b == [] {
      assert a + b == a;
    } else {
      assert (a + b)[..|a + b| - 1] == a + b[..|b| - 1];
      RunConcat(s, a, b[..|b| - 1]);
    }
  }

  function Begins(n: nat): (r: seq<Action>)
    ensures |r| == n
  {
    seq(n, i => Begin)
  }

  /** What a transport holds of the system it is part of. */
  predicate Shows(s: System, limit: nat, buffer: seq<Event>, fatal: bool, flight: Option<seq<Event>>) {
    && s.limit == limit && s.buffer == buffer && s.fatal == fatal
    && (flight.Some? <==> s.flight.Some?)
    && (flight.Some? ==> s.flight.value < |s.posts| && s.posts[s.flight.value].batch == flight.value)
  }

  lemma {:induction false} ReadShows(s: System, post: nat, limit: nat, buffer: seq<Event>, fatal: bool, flight: Option<seq<Event>>)
    requires Shows(s, limit, buffer, fatal, flight)
    ensures Shows(Next(s, Read(post)), limit, buffer, fatal, flight)
  {
  }

  /** The object whose calls are the system's actions. Its history is kept beside it, so that what holds of every
      run of the system holds of every transport. */
  class Transport {
    const limit: nat
    var buffer: seq<Event>
    var fatal: bool
    /** The batch of the flush whose response is awaited, and how many flushes are chained behind it. */
    var flight: Option<seq<Event>>
    var waiting: nat
    ghost var actions: seq<Action>

    ghost function Now(): System
      reads this
    {
      Run(Start(limit), actions)
    }

    ghost predicate Matches()
      reads this
    {
      Shows(Now(), limit, buffer, fatal, flight)
    }

    ghost predicate Valid()
      reads this
    {
      Matches() && (waiting > 0 ==> flight.Some?)
    }

    constructor (limit: nat)
      ensures Valid() && this.limit == limit && actions == [] && flight == None
    {
      this.limit := limit;
      buffer, fatal, flight, waiting, actions := [], false, None, 0, [];
    }

    method Enqueue(events: seq<Event>)
      requires Valid()
      modifies this`buffer, this`actions
      ensures Valid() && actions == old(actions) + Enqueues(events)
      ensures buffer == PushAll(old(buffer), events, limit)
    {
      ghost var before := Now();
      PushEach(events);
      EnqueueIsActions(before, events);
      RunConcat(Start(limit), actions, Enqueues(events));
      actions := actions + Enqueues(events);
    }

    method PushEach(events: seq<Event>)
      modifies this`buffer
      ensures buffer == PushAll(old(buffer), events, limit)
    {
      assert events[..0] == [];
      for i := 0 to |events|
        invariant buffer == PushAll(old(buffer), events[..i], limit)
      {
        assert events[..i + 1][..i] == events[..i];
        if |buffer| >= limit && |buffer| > 0 { buffer := buffer[1..]; }
        buffer := buffer + [events[i]];
      }
      assert events[..|events|] == events;
    }

    /** The receiver reads one more event of some post, whichever and whenever. */
    ghost method Receive(post: nat)
      requires Valid()
      modifies this`actions
      ensures Valid() && actions == old(actions) + [Read(post)]
    {
      RunNext(Start(limit), actions, Read(post));
      ReadShows(Now(), post, limit, buffer, fatal, flight);
      actions := actions + [Read(post)];
    }

    /** A flush runs once every one before it has come back. */
    method Flush()
      requires Valid()
      modifies this`flight, this`waiting, this`actions
      ensures Valid()
      ensures actions == if old(flight).Some? then old(actions) else old(actions) + [Begin]
      ensures waiting == if old(flight).Some? then old(waiting) + 1 else 0
      ensures flight == if old(flight).Some? then old(flight) else if fatal || buffer == [] then None else Some(buffer)
    {
      if flight.Some? {
        waiting := waiting + 1;
      } else {
        FlushOnce();
      }
    }

    /** Everything buffered is sent; with nothing to send, or once fatal, the flush is over at once. */
    method FlushOnce()
      requires Matches() && flight.None?
      modifies this`flight, this`actions
      ensures Matches() && actions == old(actions) + [Begin]
      ensures flight == if fatal || buffer == [] then None else Some(buffer)
    {
      RunNext(Start(limit), actions, Begin);
      actions := actions + [Begin];
      if fatal || |buffer| == 0 { return; }
      flight := Some(buffer);
    }

    /** The response is acted on, and the flushes that waited run, up to the first that sends something. */
    method EndFlush(o: Outcome) returns (d: Delivery)
      requires Valid() && flight.Some?
      modifies this
      ensures Valid() && waiting <= old(waiting)
      ensures actions == old(actions) + [Finish(o)] + Begins(old(waiting) - waiting)
      ensures buffer == if Accepted(o) then Drop(old(buffer), |old(flight).value|) else old(buffer)
      ensures fatal == (old(fatal) || !(Accepted(o) || Transient(o)))
      ensures d == if Accepted(o) then Acked else if Transient(o) then Buffered else Fatal
      ensures flight == if old(waiting) == 0 || fatal || buffer == [] then None else Some(buffer)
      ensures flight.Some? ==> waiting == old(waiting) - 1
    {
      d := Settle(o);
      ghost var settled, acked, broke := actions, buffer, fatal;
      assert settled + Begins(0) == settled;
      while waiting > 0 && flight.None?
        invariant Matches() && waiting <= old(waiting)
        invariant actions == settled + Begins(old(waiting) - waiting)
        invariant flight == if waiting == old(waiting) || fatal || buffer == [] then None else Some(buffer)
        invariant flight.Some? ==> waiting == old(waiting) - 1
        invariant buffer == acked && fatal == broke
        decreases waiting
      {
        waiting := waiting - 1;
        FlushOnce();
        assert Begins(old(waiting) - waiting) == Begins(old(waiting) - waiting - 1) + [Begin];
      }
    }

    method Settle(o: Outcome) returns (d: Delivery)
      requires Matches() && flight.Some?
      modifies this`buffer, this`fatal, this`flight, this`actions
      ensures Matches() && flight == None && actions == old(actions) + [Finish(o)]
      ensures buffer == if Accepted(o) then Drop(old(buffer), |old(flight).value|) else old(buffer)
      ensures fatal == (old(fatal) || !(Accepted(o) || Transient(o)))
      ensures d == if Accepted(o) then Acked else if Transient(o) then Buffered else Fatal
    {
      RunNext(Start(limit), actions, Finish(o));
      actions := actions + [Finish(o)];
      var batch := flight.value;
      flight := None;
      if Accepted(o) {
        buffer := if |batch| <= |buffer| then buffer[|batch|..] else [];
        return Acked;
      }
      if Transient(o) { return Buffered; }
      fatal := true;
      d := Fatal;
    }
  }

  // --- Delivery, while nothing is evicted --------------------------------------------------------------

  /** The post carries a stretch of the enqueued sequence that starts no later than the log ends. */
  ghost predicate Carries(s: System, p: Post, stored: nat) {
    && p.from <= s.acked && p.from + |p.batch| <= |s.enqueued|
    && p.batch == s.enqueued[p.from..p.from + |p.batch|]
    && p.read <= |p.batch| && p.from + p.read <= stored
  }

  ghost predicate Delivers(s: System, stored: nat) {
    && s.acked <= stored <= |s.enqueued|
    && s.log == Dedup(s.enqueued[..stored])
    && s.buffer == s.enqueued[s.acked..]
    && (forall i :: 0 <= i < |s.posts| ==> Carries(s, s.posts[i], stored))
    && (s.flight.Some? ==> s.flight.value < |s.posts| && s.posts[s.flight.value].from == s.acked)
  }

  lemma {:induction false} DedupNext(events: seq<Event>, i: nat)
    requires i < |events|
    ensures Dedup(events[..i + 1]) == Ingest(Dedup(events[..i]), events[i])
  {
    assert events[..i + 1][..i] == events[..i];
  }

  lemma {:induction false} DedupKnows(events: seq<Event>, i: nat)
    requires i < |events|
    ensures Known(Dedup(events), events[i])
    decreases |events|
  {
    var init, last := events[..|events| - 1], events[|events| - 1];
    var log := Dedup(init);
    if i < |init| {
      DedupKnows(init, i);
      var k :| 0 <= k < |log| && SameKey(log[k], init[i]);
      assert Dedup(events)[k] == log[k];
    } else if !Known(log, last) {
      assert Dedup(events)[|log|] == last;
    }
  }

  lemma {:induction false} LogReads(enqueued: seq<Event>, stored: nat, at: nat)
    requires at <= stored <= |enqueued| && at < |enqueued|
    ensures Ingest(Dedup(enqueued[..stored]), enqueued[at])
      == Dedup(enqueued[..if at < stored then stored else stored + 1])
  {
    if at < stored {
      DedupKnows(enqueued[..stored], at);
    } else {
      DedupNext(enqueued, stored);
    }
  }

  /** Reading one more event of any post, however late, keeps the log a deduplicated prefix. */
  lemma {:induction false} ReadKeeps(s: System, i: nat, stored: nat) returns (stored': nat)
    requires Delivers(s, stored) && i < |s.posts| && s.posts[i].read < |s.posts[i].batch|
    ensures Delivers(Next(s, Read(i)), stored')
  {
    var p := s.posts[i];
    var at := p.from + p.read;
    assert Carries(s, p, stored);
    assert p.batch[p.read] == s.enqueued[at];
    stored' := if at < stored then stored else stored + 1;
    LogReads(s.enqueued, stored, at);
    PostsStay(s, i, stored, stored');
  }

  lemma {:induction false} PostsStay(s: System, i: nat, stored: nat, stored': nat)
    requires i < |s.posts| && s.posts[i].read < |s.posts[i].batch|
    requires forall k :: 0 <= k < |s.posts| ==> Carries(s, s.posts[k], stored)
    requires stored <= stored' && s.posts[i].from + s.posts[i].read + 1 <= stored'
    ensures var t := Next(s, Read(i)); forall k :: 0 <= k < |t.posts| ==> Carries(t, t.posts[k], stored')
  {
    var t := Next(s, Read(i));
    forall k | 0 <= k < |t.posts| ensures Carries(t, t.posts[k], stored') {
      assert Carries(s, s.posts[k], stored);
    }
  }

  lemma {:induction false} EnqueueKeeps(s: System, e: Event, stored: nat)
    requires Delivers(s, stored) && !Evicts(s)
    ensures Delivers(Next(s, Enqueue(e)), stored)
  {
    var t := Next(s, Enqueue(e));
    assert t.enqueued[..stored] == s.enqueued[..stored];
    forall k | 0 <= k < |t.posts| ensures Carries(t, t.posts[k], stored) {
      assert Carries(s, s.posts[k], stored);
    }
  }

  lemma {:induction false} FinishKeeps(s: System, o: Outcome, stored: nat)
    requires Delivers(s, stored) && Next(s, Finish(o)).honest
    ensures Delivers(Next(s, Finish(o)), stored)
  {
    var t := Next(s, Finish(o));
    if s.flight.Some? {
      assert Carries(s, s.posts[s.flight.value], stored);
    }
    forall k | 0 <= k < |t.posts| ensures Carries(t, t.posts[k], stored) {
      assert Carries(s, s.posts[k], stored);
    }
  }

  lemma {:induction false} BeginKeeps(s: System, stored: nat)
    requires Delivers(s, stored)
    ensures Delivers(Next(s, Begin), stored)
  {
    var t := Next(s, Begin);
    forall k | 0 <= k < |t.posts| ensures Carries(t, t.posts[k], stored) {
      if k < |s.posts| {
        assert Carries(s, s.posts[k], stored);
      }
    }
  }

  lemma {:induction false} NextKeeps(s: System, a: Action, stored: nat) returns (stored': nat)
    requires Delivers(s, stored) && (a.Enqueue? ==> !Evicts(s)) && Next(s, a).honest
    ensures Delivers(Next(s, a), stored')
  {
    stored' := stored;
    match a
    case Enqueue(e) => EnqueueKeeps(s, e, stored);
    case Begin => BeginKeeps(s, stored);
    case Read(i) =>
      if i < |s.posts| && s.posts[i].read < |s.posts[i].batch| {
        stored' := ReadKeeps(s, i, stored);
      }
    case Finish(o) => FinishKeeps(s, o, stored);
  }

  lemma {:induction false} EvictedGrows(s: System, a: Action)
    ensures Next(s, a).evicted == s.evicted + (if a.Enqueue? && Evicts(s) then 1 else 0)
    ensures Next(s, a).honest ==> s.honest
  {
  }

  /** Over every interleaving of enqueues, flushes, readings and responses in which nothing was evicted and every
      success was honest: what was enqueued is what was acked and then the buffer, nothing acked is missing from the
      log, and the log is a deduplicated prefix of what was enqueued, in that order, whatever was stored twice, stored
      late, or stored and reported lost. */
  lemma {:induction false} Delivered(limit: nat, actions: seq<Action>) returns (stored: nat)
    requires Run(Start(limit), actions).evicted == 0 && Run(Start(limit), actions).honest
    ensures var s := Run(Start(limit), actions);
      && Delivers(s, stored)
      && s.acked <= stored <= |s.enqueued|
      && s.enqueued == s.enqueued[..s.acked] + s.buffer
      && s.log == Dedup(s.enqueued[..stored])
    decreases |actions|
  {
    if actions == [] {
      stored := 0;
    } else {
      var init, a := actions[..|actions| - 1], actions[|actions| - 1];
      EvictedGrows(Run(Start(limit), init), a);
      stored := Delivered(limit, init);
      stored := NextKeeps(Run(Start(limit), init), a, stored);
    }
  }

  /** While nothing is evicted what is sent is the front of the buffer. */
  ghost predicate Conserves(s: System) {
    && s.acked <= |s.enqueued| && s.buffer == s.enqueued[s.acked..]
    && (s.flight.Some? ==> s.flight.value < |s.posts| && s.posts[s.flight.value].batch <= s.buffer)
  }

  lemma {:induction false} NextConserves(s: System, a: Action)
    requires Conserves(s) && (a.Enqueue? ==> !Evicts(s))
    ensures Conserves(Next(s, a))
  {
  }

  /** Honest or not, what was enqueued is what was acked and then the buffer, in every run in which nothing was evicted. */
  lemma {:induction false} Conserved(limit: nat, actions: seq<Action>)
    requires Run(Start(limit), actions).evicted == 0
    ensures var s := Run(Start(limit), actions);
      Conserves(s) && s.enqueued == s.enqueued[..s.acked] + s.buffer
    decreases |actions|
  {
    if actions != [] {
      var init, a := actions[..|actions| - 1], actions[|actions| - 1];
      EvictedGrows(Run(Start(limit), init), a);
      Conserved(limit, init);
      NextConserves(Run(Start(limit), init), a);
    }
  }

  /** A success is taken at its word: what it clears and the receiver had not read is nowhere. */
  lemma {:induction false} EarlySuccessLoses(limit: nat, e: Event)
    ensures var s := Run(Start(limit), [Enqueue(e), Begin, Finish(Status(200))]);
      s.acked == 1 && s.buffer == [] && s.log == [] && s.evicted == 0 && !s.honest
  {
    var s0 := Start(limit);
    var s1 := Next(s0, Enqueue(e));
    var s2 := Next(s1, Begin);
    assert s1.buffer == [e] && s2.posts == [Post([e], 0, 0)];
    RunConcat(s0, [Enqueue(e), Begin], [Finish(Status(200))]);
    RunConcat(s0, [Enqueue(e)], [Begin]);
    assert [Enqueue(e), Begin] + [Finish(Status(200))] == [Enqueue(e), Begin, Finish(Status(200))];
    assert [Enqueue(e)] + [Begin] == [Enqueue(e), Begin];
    RunNext(s0, [], Enqueue(e));
    RunNext(s1, [], Begin);
    RunNext(s2, [], Finish(Status(200)));
    assert [] + [Enqueue(e)] == [Enqueue(e)] && [] + [Begin] == [Begin] && [] + [Finish(Status(200))] == [Finish(Status(200))];
  }

  // --- And when something is ---------------------------------------------------------------------------

  /** While a flush waits, the buffer is its batch and what joined since, less what was pushed out. */
  ghost predicate Tracked(s: System) {
    s.flight.Some? ==>
      && s.flight.value < |s.posts|
      && var batch := s.posts[s.flight.value].batch;
         && s.pushed <= |batch + s.joined| && s.buffer == (batch + s.joined)[s.pushed..]
  }

  lemma {:induction false} NextTracks(s: System, a: Action)
    requires Tracked(s)
    ensures Tracked(Next(s, a))
  {
    var t := Next(s, a);
    if a.Enqueue? && s.flight.Some? {
      var batch := s.posts[s.flight.value].batch;
      assert batch + t.joined == (batch + s.joined) + [a.event];
      assert Evicts(s) ==> s.buffer[1..] == (batch + s.joined)[s.pushed + 1..];
    }
  }

  lemma {:induction false} RunTracks(limit: nat, actions: seq<Action>)
    ensures Tracked(Run(Start(limit), actions))
    decreases |actions|
  {
    if actions != [] {
      RunTracks(limit, actions[..|actions| - 1]);
      NextTracks(Run(Start(limit), actions[..|actions| - 1]), actions[|actions| - 1]);
    }
  }

  /** What an ack takes from the buffer. */
  function Cleared(s: System): seq<Event>
    requires s.flight.Some? && s.flight.value < |s.posts|
  {
    var n := |s.posts[s.flight.value].batch|;
    if n <= |s.buffer| then s.buffer[..n] else s.buffer
  }

  /** An ack clears the batch less what was pushed out of it while the flush waited, and with it, for each
      event pushed out, one that joined since and was never sent. */
  lemma {:induction false} AckClears(limit: nat, actions: seq<Action>)
    requires Run(Start(limit), actions).flight.Some?
    ensures var s := Run(Start(limit), actions);
      && s.flight.value < |s.posts|
      && var batch := s.posts[s.flight.value].batch;
         var lost := if s.pushed <= |s.joined| then s.pushed else |s.joined|;
         && s.pushed <= |batch| + |s.joined|
         && Cleared(s) == (if s.pushed <= |batch| then batch[s.pushed..] + s.joined[..lost]
                           else s.joined[s.pushed - |batch|..lost])
  {
    RunTracks(limit, actions);
    var s := Run(Start(limit), actions);
    FrontOfRest(s.posts[s.flight.value].batch, s.joined, s.pushed, s.buffer);
  }

  lemma {:induction false} FrontOfRest(batch: seq<Event>, joined: seq<Event>, pushed: nat, buffer: seq<Event>)
    requires pushed <= |batch + joined| && buffer == (batch + joined)[pushed..]
    ensures var lost := if pushed <= |joined| then pushed else |joined|;
      (if |batch| <= |buffer| then buffer[..|batch|] else buffer)
      == (if pushed <= |batch| then batch[pushed..] + joined[..lost] else joined[pushed - |batch|..lost])
  {
  }

  /** So an ack clears exactly what it acknowledges just when nothing was pushed out meanwhile. */
  lemma {:induction false} AckIsExact(limit: nat, actions: seq<Action>)
    requires Run(Start(limit), actions).flight.Some?
    requires var s := Run(Start(limit), actions);
      s.flight.value < |s.posts| && s.posts[s.flight.value].batch != []
    requires var s := Run(Start(limit), actions);
      forall i, j :: 0 <= i < j < |s.posts[s.flight.value].batch + s.joined| ==>
        (s.posts[s.flight.value].batch + s.joined)[i] != (s.posts[s.flight.value].batch + s.joined)[j]
    ensures var s := Run(Start(limit), actions);
      Cleared(s) == s.posts[s.flight.value].batch <==> s.pushed == 0
  {
    RunTracks(limit, actions);
    var s := Run(Start(limit), actions);
    var all := s.posts[s.flight.value].batch + s.joined;
    if s.pushed == 0 {
      assert Cleared(s) == s.posts[s.flight.value].batch;
    } else if s.buffer != [] {
      assert Cleared(s)[0] == all[s.pushed] && all[0] == s.posts[s.flight.value].batch[0];
    }
  }

  /** With room for one: the second event pushes the first out while its flush waits, and the first's ack
      clears it. It was enqueued last, was not pushed out, was never sent, and is gone. */
  lemma {:induction false} EvictionInFlightLoses(a: Event, b: Event)
    ensures var s := Run(Start(1), [Enqueue(a), Begin, Enqueue(b), Read(0), Finish(Status(200))]);
      s.buffer == [] && s.log == [a] && s.evicted == 1 && s.enqueued == [a, b]
  {
    var s0 := Start(1);
    var s1 := Next(s0, Enqueue(a));
    var s2 := Next(s1, Begin);
    var s3 := Next(s2, Enqueue(b));
    var s4 := Next(s3, Read(0));
    RunFive(s0, Enqueue(a), Begin, Enqueue(b), Read(0), Finish(Status(200)));
    assert s1.buffer == [a] && s2.posts == [Post([a], 0, 0)];
    assert s3.buffer == [b];
  }

  lemma {:induction false} RunFive(s: System, a: Action, b: Action, c: Action, d: Action, e: Action)
    ensures Run(s, [a, b, c, d, e]) == Next(Next(Next(Next(Next(s, a), b), c), d), e)
  {
    assert [a, b, c, d, e][..4] == [a, b, c, d];
    assert [a, b, c, d][..3] == [a, b, c];
    assert [a, b, c][..2] == [a, b];
    assert [a, b][..1] == [a];
    assert [a][..0] == [] && Run(s, []) == s;
    assert Run(s, [a]) == Next(s, a);
    assert Run(s, [a, b]) == Next(Next(s, a), b);
    assert Run(s, [a, b, c]) == Next(Next(Next(s, a), b), c);
    assert Run(s, [a, b, c, d]) == Next(Next(Next(Next(s, a), b), c), d);
  }

  // --- How a flush ends ----------------------------------------------------------------------------------

  /** At this action a response arrives that a flush awaits. */
  predicate Answers(limit: nat, actions: seq<Action>, k: nat, o: Outcome)
    requires k < |actions|
  {
    actions[k] == Finish(o) && Run(Start(limit), actions[..k]).flight.Some?
  }

  predicate Misconfigured(o: Outcome) {
    o.Status? && !(200 <= o.code < 300) && o.code < 500
  }

  lemma {:induction false} FlightIsPost(limit: nat, actions: seq<Action>)
    ensures var s := Run(Start(limit), actions);
      && (s.flight.Some? ==> s.flight.value < |s.posts| && !s.fatal && s.posts[s.flight.value].batch != [])
    decreases |actions|
  {
    if actions != [] {
      FlightIsPost(limit, actions[..|actions| - 1]);
    }
  }

  /** The transport gives up exactly when a flush is answered with a status that is neither a success nor the server's
      fault; and from then on nothing is sent, acked or taken from the buffer but to make room. */
  lemma {:induction false} FatalExactly(limit: nat, actions: seq<Action>)
    ensures Run(Start(limit), actions).fatal
      <==> exists k, o :: 0 <= k < |actions| && Answers(limit, actions, k, o) && Misconfigured(o)
    decreases |actions|
  {
    if actions != [] {
      var init, a := actions[..|actions| - 1], actions[|actions| - 1];
      FatalExactly(limit, init);
      FlightIsPost(limit, init);
      forall k, o | 0 <= k < |init| ensures Answers(limit, actions, k, o) <==> Answers(limit, init, k, o) {
        assert actions[..k] == init[..k];
      }
      if a.Finish? && Run(Start(limit), init).flight.Some? {
        assert Answers(limit, actions, |init|, a.outcome);
      }
    }
  }

  lemma {:induction false} FatalStops(limit: nat, actions: seq<Action>, k: nat)
    requires k <= |actions| && Run(Start(limit), actions[..k]).fatal
    ensures var s, t := Run(Start(limit), actions[..k]), Run(Start(limit), actions);
      t.fatal && t.flight.None? && |t.posts| == |s.posts| && t.acked == s.acked
      && |t.buffer| + (t.evicted - s.evicted) == |s.buffer| + (|t.enqueued| - |s.enqueued|)
    decreases |actions|
  {
    if k == |actions| {
      assert actions[..k] == actions;
      FlightIsPost(limit, actions);
    } else {
      var init := actions[..|actions| - 1];
      assert init[..k] == actions[..k];
      FatalStops(limit, init, k);
    }
  }

  /** How much was acked: every batch whose own flush was answered with a success, and nothing else. */
  function AckedBy(limit: nat, actions: seq<Action>): nat
    decreases |actions|
  {
    if actions == [] then 0
    else
      var init, s := actions[..|actions| - 1], Run(Start(limit), actions[..|actions| - 1]);
      AckedBy(limit, init)
      + match actions[|actions| - 1]
        case Finish(Status(code)) =>
          if 200 <= code < 300 && s.flight.Some? && s.flight.value < |s.posts| then |s.posts[s.flight.value].batch| else 0
        case _ => 0
  }

  lemma {:induction false} AckedExactly(limit: nat, actions: seq<Action>)
    ensures Run(Start(limit), actions).acked == AckedBy(limit, actions)
    decreases |actions|
  {
    if actions != [] {
      AckedExactly(limit, actions[..|actions| - 1]);
    }
  }
}
