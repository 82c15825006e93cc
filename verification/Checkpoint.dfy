/** The position register: planning a turn's tool calls, advancing one of them, and
    deciding from the register alone what a restarted run owes. */
module Checkpoint {
  import opened Json
  import opened Contract
  import opened Record

  datatype Proposal = Proposal(toolUseId: string, name: string, replay: ReplayPolicy)

  /** A call's id is also the key it settles under. */
  function PlanCalls(calls: seq<Proposal>): (r: seq<Call>)
    ensures |r| == |calls| && Indexed(r)
    ensures forall i :: 0 <= i < |r| ==>
      r[i] == Call(i, calls[i].toolUseId, calls[i].name, ToolKey(calls[i].toolUseId), calls[i].replay, Planned)
  {
    seq(|calls|, i requires 0 <= i < |calls| =>
      Call(i, calls[i].toolUseId, calls[i].name, ToolKey(calls[i].toolUseId), calls[i].replay, Planned))
  }

  /** Calls sit at their own index and settle under their own id. */
  predicate Indexed(calls: seq<Call>) {
    forall i :: 0 <= i < |calls| ==> calls[i].index == i && calls[i].key == ToolKey(calls[i].toolUseId)
  }

  function WithCallStatus(calls: seq<Call>, index: nat, status: CallStatus): (r: seq<Call>)
    ensures |r| == |calls|
    ensures Indexed(calls) ==> Indexed(r)
    ensures Indexed(calls) && index < |calls| ==> r == calls[index := calls[index].(status := status)]
  {
    seq(|calls|, i requires 0 <= i < |calls| =>
      if calls[i].index == index then calls[i].(status := status) else calls[i])
  }

  datatype Plan =
    | Resume
    | SettleUncertain(key: SettlementKey, usageId: nat)
    | FinishTools(stepId: StepId, calls: seq<Call>,
                  synthesize: seq<Call>, reexecute: seq<Call>, execute: seq<Call>)
    | Recompact(preparationId: string)
    | NothingOwed(outcome: Ending)
    | ReportFailed

  /** What a restart does about a call that has no outcome yet. */
  datatype Bucket = Stranded | Unstarted | Repeatable

  predicate Falls(c: Call, b: Bucket) {
    match b
    case Stranded => c.status == EffectPending && c.replay == Never
    case Unstarted => c.status == Planned
    case Repeatable => c.status == EffectPending && c.replay == Safe
  }

  function Select(calls: seq<Call>, b: Bucket): (r: seq<Call>)
    ensures forall c :: c in r <==> c in calls && Falls(c, b)
  {
    if calls == [] then []
    else if Falls(calls[0], b) then [calls[0]] + Select(calls[1..], b)
    else Select(calls[1..], b)
  }

  predicate InOrder(calls: seq<Call>) {
    forall i, j :: 0 <= i < j < |calls| ==> calls[i].index < calls[j].index
  }

  /** Each list holds the calls that fall in it, each once, in the order they were planned: which fixes it. */
  lemma {:induction false} SelectsInOrder(calls: seq<Call>, b: Bucket)
    requires InOrder(calls)
    ensures InOrder(Select(calls, b)) && forall c :: c in Select(calls, b) <==> c in calls && Falls(c, b)
    decreases |calls|
  {
    if calls != [] {
      SelectsInOrder(calls[1..], b);
      var rest := Select(calls[1..], b);
      forall c | c in rest ensures calls[0].index < c.index {
        assert c in calls[1..];
      }
    }
  }

  /** Two lists of the same calls in the same order are the same list. */
  lemma {:induction false} OnlyOneSelection(a: seq<Call>, b: seq<Call>)
    requires InOrder(a) && InOrder(b) && forall c :: c in a <==> c in b
    ensures a == b
    decreases |a|
  {
    assert a != [] ==> a[0] in a;
    assert b != [] ==> b[0] in b;
    if a != [] && b != [] {
      assert a[0] in b && b[0] in a;
      assert a[0] == b[0];
      forall c ensures c in a[1..] <==> c in b[1..] {
        assert c in a[1..] <==> c in a && c != a[0];
        assert c in b[1..] <==> c in b && c != b[0];
      }
      OnlyOneSelection(a[1..], b[1..]);
    }
  }

  function PlanRecovery(position: Option<Position>): Plan {
    match position
    case None => ReportFailed
    case Some(Checkpoint) => Resume
    case Some(RequestPending(key, usageId, _, _)) => SettleUncertain(key, usageId)
    case Some(Tools(step, calls)) =>
      FinishTools(step, calls, Select(calls, Stranded), Select(calls, Repeatable),
                  Select(calls, Unstarted))
    case Some(Compacting(p)) => Recompact(p)
    case Some(Terminal(outcome)) => NothingOwed(outcome)
  }
}
