/** A whole pass over a tools phase, step by step and in its order, written out. */
module PassScript {
  import opened Json
  import opened Record
  import opened Checkpoint
  import opened Journal
  import opened Recovery
  import opened Settlements

  /** Interrupted calls that must not run again, then calls that had not started, then those that may run again. */
  function Rank(c: Call): nat {
    if c.status == EffectPending && c.replay == Never then 0 else if c.status == Planned then 1 else 2
  }

  /** And each of these as they were planned. */
  predicate Ordered(order: seq<Call>) {
    forall i, j :: 0 <= i < j < |order| ==>
      Rank(order[i]) < Rank(order[j]) || (Rank(order[i]) == Rank(order[j]) && order[i].index < order[j].index)
  }

  /** Everything without an outcome, once, in that order. */
  ghost predicate InTurn(calls: seq<Call>, order: seq<Call>) {
    Ordered(order) && forall c :: c in order <==> c in calls && c.status != Completed
  }

  /** Each call is begun if it may be run and there is a way to, with the arguments on the record; and then its answer is
      filed with the marker that it is done. */
  function Script(s: State, run: string, step: StepId, now: seq<Call>, order: seq<Call>, deps: Deps): seq<Step>
    requires forall c :: c in order ==> c.index < |now|
    decreases |order|
  {
    if order == [] then []
    else
      var c := order[0];
      var next := now[c.index := now[c.index].(status := Completed)];
      (if deps.reexecute.Some? && Rank(c) > 0
       then [Began(c.toolUseId, if (step, c.index) in s.toolArgs then s.toolArgs[(step, c.index)] else Null)] else [])
      + [Commit([PutEntry(Settlement(s, run, step, c, deps)), SetPosition(run, Tools(step, next))])]
      + Script(s, run, step, next, order[1..], deps)
  }

  /** What is owed is what `OwedBy` lists, one list after the other. */
  function Listed(calls: seq<Call>): seq<Call> {
    Select(calls, Stranded) + Select(calls, Unstarted) + Select(calls, Repeatable)
  }

  lemma {:induction false} ListedInTurn(calls: seq<Call>)
    requires Indexed(calls)
    ensures InTurn(calls, Listed(calls))
  {
    SelectsInOrder(calls, Stranded);
    SelectsInOrder(calls, Unstarted);
    SelectsInOrder(calls, Repeatable);
    var a, b, c := Select(calls, Stranded), Select(calls, Unstarted), Select(calls, Repeatable);
    RankedBy(calls, Stranded, 0);
    RankedBy(calls, Unstarted, 1);
    RankedBy(calls, Repeatable, 2);
    Behind(a, b);
    Behind(a + b, c);
  }

  lemma {:induction false} RankedBy(calls: seq<Call>, b: Bucket, rank: nat)
    requires InOrder(Select(calls, b)) && forall c :: Falls(c, b) ==> Rank(c) == rank
    ensures Ordered(Select(calls, b)) && forall c :: c in Select(calls, b) ==> Rank(c) == rank
  {
  }

  lemma {:induction false} Behind(a: seq<Call>, b: seq<Call>)
    requires Ordered(a) && Ordered(b) && forall x, y :: x in a && y in b ==> Rank(x) < Rank(y)
    ensures Ordered(a + b)
  {
  }

  /** This is owed, and whether it is run is as its rank says. */
  predicate Owes(now: seq<Call>, o: Owed) {
    o.call.index < |now| && (o.run <==> Rank(o.call) > 0) && o.call.key == ToolKey(o.call.toolUseId)
  }

  lemma {:induction false} SettlesAsScripted(s: State, run: string, step: StepId, now: seq<Call>, owed: seq<Owed>, order: seq<Call>, deps: Deps)
    requires Indexed(now) && |order| == |owed| && forall i :: 0 <= i < |owed| ==> Owes(now, owed[i]) && order[i] == owed[i].call
    requires forall c :: c in order ==> c.index < |now|
    ensures SettleAll(s, run, step, now, owed, deps) == Script(s, run, step, now, order, deps)
    decreases |owed|
  {
    if owed != [] {
      var next := WithCallStatus(now, owed[0].call.index, Completed);
      SettlesAsScripted(s, run, step, next, owed[1..], order[1..], deps);
    }
  }

  lemma {:induction false} OwedIsListed(calls: seq<Call>)
    requires Indexed(calls)
    ensures |OwedBy(calls)| == |Listed(calls)|
    ensures forall i :: 0 <= i < |OwedBy(calls)| ==> Owes(calls, OwedBy(calls)[i]) && Listed(calls)[i] == OwedBy(calls)[i].call
  {
    forall i | 0 <= i < |OwedBy(calls)| ensures Owes(calls, OwedBy(calls)[i]) && Listed(calls)[i] == OwedBy(calls)[i].call {
      assert Listed(calls)[i] == OwedBy(calls)[i].call;
      assert Listed(calls)[i] in Listed(calls);
    }
  }

  /** From any tools phase a pass settles everything without an outcome, once each, and in this order; and then it is back at
      the checkpoint. Nothing else is done. */
  lemma {:induction false} PassIsScripted(s: State, run: string, step: StepId, calls: seq<Call>, deps: Deps) returns (order: seq<Call>)
    requires PositionOf(s, run) == Some(Tools(step, calls)) && Indexed(calls)
    ensures InTurn(calls, order) && forall c :: c in order ==> c.index < |calls|
    ensures Steps(s, run, deps) == Script(s, run, step, calls, order, deps) + [Commit([SetPosition(run, Record.Checkpoint)])]
  {
    order := Listed(calls);
    ListedInTurn(calls);
    OwedIsListed(calls);
    SettlesAsScripted(s, run, step, calls, OwedBy(calls), order, deps);
  }

  /** In any other phase: a request in flight is settled as not known, a compaction is begun over from the checkpoint, and
      nothing else is done; nor is anything done for a run that has ended, or that has no position. */
  lemma {:induction false} OtherPhases(s: State, run: string, deps: Deps)
    requires PositionOf(s, run).Some? ==> !PositionOf(s, run).value.Tools?
    ensures Steps(s, run, deps) ==
      match PositionOf(s, run)
      case Some(RequestPending(key, _, _, _)) =>
        [Commit([PutEntry(Unknown(run, key)), SetPosition(run, Terminal(Interrupted))])]
      case Some(Compacting(_)) => [Commit([SetPosition(run, Record.Checkpoint)])]
      case _ => []
  {
  }

  /** That order is the only one. */
  lemma {:induction false} OnlyOneTurn(calls: seq<Call>, a: seq<Call>, b: seq<Call>)
    requires InTurn(calls, a) && InTurn(calls, b)
    ensures a == b
  {
    SameTurn(a, b);
  }

  lemma {:induction false} SameTurn(a: seq<Call>, b: seq<Call>)
    requires Ordered(a) && Ordered(b) && forall c :: c in a <==> c in b
    ensures a == b
    decreases |a|
  {
    assert a != [] ==> a[0] in a;
    assert b != [] ==> b[0] in b;
    if a != [] && b != [] {
      assert a[0] in b && b[0] in a;
      assert a[0] == b[0];
      forall c ensures c in a[1..] <==> c in b[1..] {
        assert c in a[1..] <==> c in a && c != a[0];
        assert c in b[1..] <==> c in b && c != b[0];
      }
      SameTurn(a[1..], b[1..]);
    }
  }
}
