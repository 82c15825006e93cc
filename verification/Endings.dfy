/** How a run ends: decided by what its turns' streams say, who aborted or refused it, and what waits. */
module Endings {
  import opened Json
  import opened Contract
  import opened Record
  import opened Protocol
  import opened RunLoop
  import opened World
  import opened Story
  import RunLaws

  // --- What a turn's world decides ------------------------------------------------------------

  /** The turn's request goes out. */
  predicate Goes(spec: Spec, turn: Turn) {
    !turn.abortedBefore && !turn.refused && (spec.tools == [] || spec.caps.toolUse)
  }

  /** Its stream does not come to its end. */
  predicate Breaks(turn: Turn) {
    turn.broke || Torn(turn.stream)
  }

  predicate Aborts(spec: Spec, turn: Turn) {
    turn.abortedBefore || (Goes(spec, turn) && Breaks(turn) && turn.abortedDuring)
  }

  predicate Settles(spec: Spec, turn: Turn) {
    Goes(spec, turn) && !Breaks(turn)
  }

  /** How many turns in a row paused just before this one. */
  function Pauses(world: nat -> Turn, k: nat): nat {
    if k == 0 || LastReason(world(k - 1).stream) != PauseTurn then 0 else Pauses(world, k - 1) + 1
  }

  /** What waits when this turn begins: all that came since a turn last came to its end. */
  function Waiting(world: nat -> Turn, inbox: seq<string>, k: nat): seq<string> {
    if k == 0 then inbox
    else if LastReason(world(k - 1).stream) == EndTurn then []
    else Waiting(world, inbox, k - 1) + world(k - 1).arrived
  }

  function TriedFrom(spec: Spec, turn: Turn, at: nat): seq<Tried>
    decreases |Calls(turn)| - at
  {
    if at >= |Calls(turn)| then [] else NextTried(spec, turn, Calls(turn), at) + TriedFrom(spec, turn, at + 1)
  }

  /** The calls of the first turns that were let through, in order, and how they went. */
  function Attempts(spec: Spec, world: nat -> Turn, k: nat): seq<Tried> {
    if k == 0 then []
    else Attempts(spec, world, k - 1) + if LastReason(world(k - 1).stream) == ToolUse then TriedFrom(spec, world(k - 1), 0) else []
  }

  predicate Finishes(spec: Spec, world: nat -> Turn, inbox: seq<string>, k: nat) {
    && Settles(spec, world(k)) && LastReason(world(k).stream) == EndTurn
    && Waiting(world, inbox, k) + world(k).arrived == []
  }

  /** It is refused; or its stream breaks; or what it says cannot be gone on from: an answer that was cut off or declined, a
      sixth pause in a row, the third failure in a row of one call with one input. */
  predicate Fails(spec: Spec, world: nat -> Turn, k: nat) {
    var turn := world(k);
    && !Aborts(spec, turn)
    && (!Goes(spec, turn) || Breaks(turn)
        || match LastReason(turn.stream)
           case EndTurn => false
           case ToolUse => Stubborn(Attempts(spec, world, k + 1))
           case MaxTokens => true
           case PauseTurn => Pauses(world, k) >= 5
           case Refusal => true
           case ContextWindowExceeded => false)
  }

  function FailsFor(spec: Spec, turn: Turn): string {
    if !Goes(spec, turn) then "refused"
    else if Breaks(turn) then turn.fault
    else match LastReason(turn.stream)
      case ToolUse => "api_error"
      case PauseTurn => "pause_turn"
      case Refusal => "refusal"
      case _ => "max_tokens"
  }

  predicate Stops(spec: Spec, world: nat -> Turn, inbox: seq<string>, k: nat) {
    Aborts(spec, world(k)) || Finishes(spec, world, inbox, k) || Fails(spec, world, k)
  }

  predicate GoesOn(spec: Spec, world: nat -> Turn, inbox: seq<string>, n: nat) {
    forall k: nat :: k < n ==> !Stops(spec, world, inbox, k)
  }

  /** How the run ends with this turn. */
  function EndAt(spec: Spec, world: nat -> Turn, inbox: seq<string>, k: nat): Ended {
    if Aborts(spec, world(k)) then Ended(Interrupted, None, 0)
    else if Finishes(spec, world, inbox, k) then Ended(Finished, Some("end_turn"), k + 1)
    else Ended(Failed, Some(FailsFor(spec, world(k))), 0)
  }

  // --- The tale says the same -------------------------------------------------------------------

  lemma {:induction false} EachTried(spec: Spec, turn: Turn, calls: seq<ToolCall>, t: Teller, at: nat)
    requires calls == Calls(turn)
    ensures TellEach(spec, turn, calls, t, at).tried == t.tried + TriedFrom(spec, turn, at)
    decreases |calls| - at
  {
    if at < |calls| {
      EachTried(spec, turn, calls, TellCall(spec, turn, calls, t, at), at + 1);
      RunLaws.Three(t.tried, NextTried(spec, turn, calls, at), TriedFrom(spec, turn, at + 1));
    } else {
      assert t.tried + [] == t.tried;
    }
  }

  lemma {:induction false} EachLeaves(spec: Spec, turn: Turn, calls: seq<ToolCall>, t: Teller, at: nat)
    ensures var x := TellEach(spec, turn, calls, t, at);
      x.over == t.over && x.attempt == t.attempt && x.inbox == t.inbox && x.turns == t.turns
    decreases |calls| - at
  {
    if at < |calls| {
      EachLeaves(spec, turn, calls, TellCall(spec, turn, calls, t, at), at + 1);
    }
  }

  /** After so many turns that all went on. */
  predicate Knowing(spec: Spec, world: nat -> Turn, inbox: seq<string>, n: nat, t: Teller) {
    && t.over.None? && t.turns == n && t.attempt == Pauses(world, n)
    && t.inbox == Waiting(world, inbox, n) && t.tried == Attempts(spec, world, n)
  }

  /** What is known once a turn is over, of one that knew all before it. */
  ghost predicate Decided(spec: Spec, world: nat -> Turn, inbox: seq<string>, n: nat, x: Teller) {
    if Stops(spec, world, inbox, n) then x.over == Some(EndAt(spec, world, inbox, n)) else Knowing(spec, world, inbox, n + 1, x)
  }

  /** All is known of the turns before, and this one has begun. */
  predicate Begun(world: nat -> Turn, spec: Spec, inbox: seq<string>, n: nat, t: Teller) {
    && t.over.None? && t.turns == n + 1 && t.attempt == Pauses(world, n)
    && t.inbox == Waiting(world, inbox, n) + world(n).arrived && t.tried == Attempts(spec, world, n)
  }

  lemma {:induction false} ToolsDecide(spec: Spec, world: nat -> Turn, inbox: seq<string>, n: nat, t: Teller)
    requires Settles(spec, world(n)) && Begun(world, spec, inbox, n, t) && LastReason(world(n).stream) == ToolUse
    ensures Decided(spec, world, inbox, n, TellClose(TellEach(spec, world(n), Calls(world(n)), TellBlocks(world(n), t), 0)))
  {
    EachTried(spec, world(n), Calls(world(n)), TellBlocks(world(n), t), 0);
    EachLeaves(spec, world(n), Calls(world(n)), TellBlocks(world(n), t), 0);
    assert Attempts(spec, world, n + 1) == t.tried + TriedFrom(spec, world(n), 0);
    assert Pauses(world, n + 1) == 0;
    assert Waiting(world, inbox, n + 1) == t.inbox;
  }

  lemma {:induction false} PlainDecides(spec: Spec, world: nat -> Turn, inbox: seq<string>, n: nat, t: Teller)
    requires Settles(spec, world(n)) && Begun(world, spec, inbox, n, t) && LastReason(world(n).stream) != ToolUse
    ensures Decided(spec, world, inbox, n, TellEnding(TellBlocks(world(n), t), LastReason(world(n).stream)))
  {
    assert Attempts(spec, world, n + 1) == t.tried + [] == t.tried;
    assert LastReason(world(n).stream) == PauseTurn ==> Pauses(world, n + 1) == t.attempt + 1;
    assert LastReason(world(n).stream) != PauseTurn ==> Pauses(world, n + 1) == 0;
    assert LastReason(world(n).stream) != EndTurn ==> Waiting(world, inbox, n + 1) == t.inbox;
  }

  lemma {:induction false} TurnDecides(spec: Spec, world: nat -> Turn, inbox: seq<string>, n: nat, t: Teller)
    requires Knowing(spec, world, inbox, n, t)
    ensures Decided(spec, world, inbox, n, TellTurn(spec, world(n), t))
  {
    var turn := world(n);
    TurnTold(spec, turn, t);
    if !turn.abortedBefore {
      var x := t.(inbox := t.inbox + turn.arrived, turns := t.turns + 1);
      assert Begun(world, spec, inbox, n, x);
      AskedDecides(spec, world, inbox, n, x);
    }
  }

  lemma {:induction false} AskedDecides(spec: Spec, world: nat -> Turn, inbox: seq<string>, n: nat, t: Teller)
    requires Begun(world, spec, inbox, n, t) && !world(n).abortedBefore
    ensures Decided(spec, world, inbox, n, TellAsked(spec, world(n), t))
  {
    if Settles(spec, world(n)) {
      SettledIs(spec, world(n), t);
      if LastReason(world(n).stream) == ToolUse {
        ToolsDecide(spec, world, inbox, n, t);
      } else {
        PlainDecides(spec, world, inbox, n, t);
      }
    } else {
      UnsettledIs(spec, world(n), t);
    }
  }

  lemma {:induction false} SettledIs(spec: Spec, turn: Turn, t: Teller)
    requires Settles(spec, turn)
    ensures TellAsked(spec, turn, t) ==
      if LastReason(turn.stream) == ToolUse then TellClose(TellEach(spec, turn, Calls(turn), TellBlocks(turn, t), 0))
      else TellEnding(TellBlocks(turn, t), LastReason(turn.stream))
  {
  }

  lemma {:induction false} UnsettledIs(spec: Spec, turn: Turn, t: Teller)
    requires !Settles(spec, turn) && !turn.abortedBefore
    ensures TellAsked(spec, turn, t) ==
      if !Goes(spec, turn) then Over(t, Failed, Some("refused"))
      else if turn.abortedDuring then Over(t, Interrupted, None) else Over(t, Failed, Some(turn.fault))
  {
  }

  /** The first number under `n` at which this holds, if there is one. */
  function First(stops: nat -> bool, n: nat): (k: nat)
    ensures k <= n && (forall i: nat :: i < k ==> !stops(i)) && (k < n ==> stops(k))
  {
    if n == 0 then 0
    else
      var k := First(stops, n - 1);
      if k < n - 1 || stops(n - 1) then k else n
  }

  /** The first of the first `n` turns that stops the run, if one does. */
  function FirstStop(spec: Spec, world: nat -> Turn, inbox: seq<string>, n: nat): (k: nat) {
    First((k: nat) => Stops(spec, world, inbox, k), n)
  }

  ghost predicate ToldUntil(spec: Spec, world: nat -> Turn, inbox: seq<string>, n: nat, k: nat, t: Teller) {
    if k < n then t.over == Some(EndAt(spec, world, inbox, k)) else Knowing(spec, world, inbox, n, t)
  }

  lemma {:induction false} DecidedNext(spec: Spec, world: nat -> Turn, inbox: seq<string>, n: nat, k: nat, t: Teller, x: Teller)
    requires k <= n && ToldUntil(spec, world, inbox, n, k, t)
    requires x == if t.over.Some? then t else TellTurn(spec, world(n), t)
    ensures ToldUntil(spec, world, inbox, n + 1, if k < n || Stops(spec, world, inbox, n) then k else n + 1, x)
  {
    if k == n {
      TurnDecides(spec, world, inbox, n, t);
    }
  }

  lemma {:induction false} FirstNext(spec: Spec, world: nat -> Turn, inbox: seq<string>, n: nat)
    ensures var k := FirstStop(spec, world, inbox, n);
      && k <= n
      && FirstStop(spec, world, inbox, n + 1) == if k < n || Stops(spec, world, inbox, n) then k else n + 1
  {
  }

  lemma {:induction false} FirstIsFirst(spec: Spec, world: nat -> Turn, inbox: seq<string>, n: nat)
    ensures var k := FirstStop(spec, world, inbox, n);
      k <= n && GoesOn(spec, world, inbox, k) && (k < n ==> Stops(spec, world, inbox, k))
  {
    var stops := (k: nat) => Stops(spec, world, inbox, k);
    var k := First(stops, n);
    forall i: nat | i < k ensures !Stops(spec, world, inbox, i) {
      assert !stops(i);
    }
  }

  lemma {:induction false} TaleDecided(spec: Spec, world: nat -> Turn, inbox: seq<string>, n: nat)
    ensures ToldUntil(spec, world, inbox, n, FirstStop(spec, world, inbox, n), Tale(spec, world, inbox, n))
  {
    if n > 0 {
      TaleDecided(spec, world, inbox, n - 1);
      TaleNext(spec, world, inbox, n);
      FirstNext(spec, world, inbox, n - 1);
      DecidedNext(spec, world, inbox, n - 1, FirstStop(spec, world, inbox, n - 1), Tale(spec, world, inbox, n - 1), Tale(spec, world, inbox, n));
    }
  }

  lemma {:induction false} TaleNext(spec: Spec, world: nat -> Turn, inbox: seq<string>, n: nat)
    requires n > 0
    ensures var before := Tale(spec, world, inbox, n - 1);
      Tale(spec, world, inbox, n) == if before.over.Some? then before else TellTurn(spec, world(n - 1), before)
  {
  }

  /** Every run from a fresh record ends with the first of its turns that stops it, or failed after a hundred that do not.
      It is finished exactly when that turn was neither aborted, refused nor broken, its stream last said that the model was
      done or said nothing of it, and nothing waits; interrupted exactly when it was aborted; and failed otherwise, for the
      reason that applies. What the run answers, its register, its position, the last event on the record and the last event
      told all agree with that. */
  lemma {:induction false} RunEnds(spec: Spec, origin: State, world: nat -> Turn, inbox: seq<string>) returns (last: nat)
    requires Fresh(origin, spec.runId)
    ensures last <= 100 && GoesOn(spec, world, inbox, last) && (last < 100 ==> Stops(spec, world, inbox, last))
    ensures var m := Run(spec, world, Idle(origin, inbox));
      && m.ended.Some? && Closed(spec, m, m.ended.value)
      && (m.ended.value.outcome == Finished <==> last < 100 && Finishes(spec, world, inbox, last))
      && (m.ended.value.outcome == Interrupted <==> last < 100 && Aborts(spec, world(last)))
      && (m.ended.value.outcome == Failed <==> last == 100 || Fails(spec, world, last))
      && m.ended.value.stopReason == (match m.ended.value.outcome
           case Finished => Some("end_turn")
           case Interrupted => None
           case Failed => Some(if last == 100 then "max_tokens" else FailsFor(spec, world(last))))
      && m.ended.value.turns == if m.ended.value.outcome.Finished? then last + 1 else 0
  {
    last := FirstStop(spec, world, inbox, 100);
    FirstIsFirst(spec, world, inbox, 100);
    TaleDecided(spec, world, inbox, 100);
    RunSays(spec, origin, world, inbox);
  }
}
