/** What a harness process does, in order, as far as a crash can tell its parts apart:
    transactions on the record, requests sent, tool effects begun, events broadcast.
    A crash leaves a prefix; only the transactions in it survive. */
module Journal {
  import opened Json
  import opened Contract
  import opened Record

  datatype Step =
    | Commit(writes: seq<Write>)
    | Sent(request: Request)
    | Began(toolUseId: string, input: Value)
    | Emit(events: seq<Envelope>)

  function After(s: State, step: Step): State {
    if step.Commit? then Apply(s, step.writes) else s
  }

  /** The record once the steps have happened. */
  function Replay(s: State, steps: seq<Step>): State
    decreases |steps|
  {
    if steps == [] then s else Replay(After(s, steps[0]), steps[1..])
  }

  lemma {:induction false} ReplayConcat(s: State, a: seq<Step>, b: seq<Step>)
    ensures Replay(s, a + b) == Replay(Replay(s, a), b)
    decreases |a|
  {
    if a == [] {
      assert a + b == b;
    } else {
      assert (a + b)[1..] == a[1..] + b;
      ReplayConcat(After(s, a[0]), a[1..], b);
    }
  }

  lemma {:induction false} ApplyConcat(s: State, a: seq<Write>, b: seq<Write>)
    ensures Apply(s, a + b) == Apply(Apply(s, a), b)
    decreases |a|
  {
    if a == [] {
      assert a + b == b;
    } else {
      assert (a + b)[1..] == a[1..] + b;
      ApplyConcat(ApplyWrite(s, a[0]), a[1..], b);
    }
  }

  lemma {:induction false} ApplyOne(s: State, w: Write)
    ensures Apply(s, [w]) == ApplyWrite(s, w)
  {
    assert [w][1..] == [];
    assert Apply(ApplyWrite(s, w), []) == ApplyWrite(s, w);
  }

  lemma {:induction false} ApplyTwo(s: State, a: Write, b: Write)
    ensures Apply(s, [a, b]) == ApplyWrite(ApplyWrite(s, a), b)
  {
    assert [a, b] == [a] + [b];
    ApplyConcat(s, [a], [b]);
    ApplyOne(s, a);
    ApplyOne(ApplyWrite(s, a), b);
  }

  lemma {:induction false} ReplayOne(s: State, step: Step)
    ensures Replay(s, [step]) == After(s, step)
  {
    assert [step][1..] == [];
  }

  /** Nothing leaves the log or the ledger. */
  lemma {:induction false} ReplayGrows(s: State, steps: seq<Step>)
    ensures s.entries <= Replay(s, steps).entries && s.usage <= Replay(s, steps).usage
    decreases |steps|
  {
    if steps != [] {
      if steps[0].Commit? {
        LogGrows(s, steps[0].writes);
      }
      ReplayGrows(After(s, steps[0]), steps[1..]);
    }
  }

  /** How often a call's effect was begun. */
  function Starts(steps: seq<Step>, id: string): nat
    decreases |steps|
  {
    if steps == [] then 0
    else (if steps[0].Began? && steps[0].toolUseId == id then 1 else 0) + Starts(steps[1..], id)
  }

  lemma {:induction false} StartsConcat(a: seq<Step>, b: seq<Step>, id: string)
    ensures Starts(a + b, id) == Starts(a, id) + Starts(b, id)
    decreases |a|
  {
    if a == [] {
      assert a + b == b;
    } else {
      assert (a + b)[1..] == a[1..] + b;
      StartsConcat(a[1..], b, id);
    }
  }

  /** How many requests were sent. */
  function Sends(steps: seq<Step>): nat
    decreases |steps|
  {
    if steps == [] then 0 else Sends(steps[..|steps| - 1]) + (if steps[|steps| - 1].Sent? then 1 else 0)
  }

  function LastCommit(j: seq<Step>): (r: Option<nat>)
    ensures r.Some? ==> r.value < |j| && j[r.value].Commit? && forall k :: r.value < k < |j| ==> !j[k].Commit?
    ensures r.None? ==> forall k :: 0 <= k < |j| ==> !j[k].Commit?
    decreases |j|
  {
    if j == [] then None
    else if j[|j| - 1].Commit? then Some(|j| - 1)
    else LastCommit(j[..|j| - 1])
  }

  /** The transaction that puts a request's identity on the record before it is sent. */
  predicate IsIntent(run: string, step: Step) {
    && step.Commit? && step.writes != []
    && var w := step.writes[|step.writes| - 1];
       w.SetPosition? && w.runId == run && w.position.RequestPending?
  }

  lemma {:induction false} LastCommitStays(j: seq<Step>, more: seq<Step>)
    requires forall i :: 0 <= i < |more| ==> !more[i].Commit?
    ensures LastCommit(j + more) == LastCommit(j)
    decreases |more|
  {
    if more == [] {
      assert j + more == j;
    } else {
      assert (j + more)[..|j + more| - 1] == j + more[..|more| - 1];
      LastCommitStays(j, more[..|more| - 1]);
    }
  }

  /** The store as one process uses it, with everything the process has done so far. Its
      transactions are always well-formed, so none is ever refused. */
  class Process {
    const store: Store
    /** The lane every transaction of this process carries, if it has one. */
    const lane: Option<string>
    ghost const origin: State
    ghost var journal: seq<Step>

    ghost predicate Valid()
      reads this, store
    {
      store.Now() == Replay(origin, journal)
    }

    constructor (store: Store, lane: Option<string>)
      ensures Valid() && this.store == store && this.lane == lane && origin == store.Now() && journal == []
    {
      this.store, this.lane := store, lane;
      origin := store.Now();
      journal := [];
    }

    method Commit(writes: seq<Write>)
      requires Valid() && Acceptable(writes)
      modifies this, store
      ensures Valid()
      ensures journal == old(journal) + [Step.Commit(writes)]
      ensures store.Now() == Apply(old(store.Now()), writes)
      ensures store.leaves == if lane.Some? && |store.entries| > |old(store.entries)|
                              then old(store.leaves)[lane.value := |store.entries|] else old(store.leaves)
    {
      var committed := store.Commit(writes, lane);
      ghost var step := Step.Commit(writes);
      ReplayConcat(origin, journal, [step]);
      ReplayOne(Replay(origin, journal), step);
      journal := journal + [step];
    }

    /** An effect outside the record. */
    ghost method Note(step: Step)
      requires Valid() && !step.Commit?
      modifies this
      ensures Valid()
      ensures journal == old(journal) + [step]
    {
      ReplayConcat(origin, journal, [step]);
      ReplayOne(Replay(origin, journal), step);
      journal := journal + [step];
    }
  }
}
