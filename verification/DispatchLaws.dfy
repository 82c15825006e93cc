/** What a dispatch decides on any point, handler by handler, and what a removal leaves. */
module DispatchLaws {
  import opened Json
  import opened Extensions

  /** While no one decides: what the handler at `i` is shown, and who has failed by then. */
  datatype Seen = Seen(shown: Value, failed: seq<string>)

  function SeenAt(list: seq<Handler>, ctx: Value, answers: Answers, before: string -> nat, i: nat): Seen
    requires i <= |list|
  {
    if i == 0 then Seen(ctx, [])
    else
      var was := SeenAt(list, ctx, answers, before, i - 1);
      if Out(list[i - 1], before, was) then was
      else match answers(list[i - 1], was.shown)
        case Some(Continue(left)) => was.(shown := left)
        case Some(_) => was
        case None => was.(failed := was.failed + [list[i - 1].id])
  }

  /** Three failures, in this dispatch and since it was last withdrawn, and a contributor is passed over. */
  predicate Out(h: Handler, before: string -> nat, was: Seen) {
    before(h.id) + Count(was.failed, h.id) >= 3
  }

  /** A refusal or a replacement decides, on `tool:before` a failure too. */
  predicate DecidesAt(list: seq<Handler>, point: Point, ctx: Value, answers: Answers, before: string -> nat, i: nat)
    requires i < |list|
  {
    var was := SeenAt(list, ctx, answers, before, i);
    && !Out(list[i], before, was)
    && match answers(list[i], was.shown)
       case None => point == ToolBefore
       case Some(Continue(_)) => false
       case Some(Replace(_)) => true
       case Some(Refuse(_)) => true
  }

  ghost predicate Decided(list: seq<Handler>, point: Point, ctx: Value, answers: Answers, before: string -> nat, k: nat, r: Result) {
    && k <= |list| && (forall i :: 0 <= i < k ==> !DecidesAt(list, point, ctx, answers, before, i))
    && var was := SeenAt(list, ctx, answers, before, k);
       if k == |list| then r == Result(Continue(was.shown), None, was.failed)
       else
         && DecidesAt(list, point, ctx, answers, before, k) && r.decidedBy == Some(list[k].id)
         && match answers(list[k], was.shown)
            case None => r.outcome.Refuse? && r.failed == was.failed + [list[k].id]
            case Some(own) => r.outcome == own && r.failed == was.failed
  }

  lemma {:induction false} OneHandler(list: seq<Handler>, point: Point, ctx: Value, answers: Answers, before: string -> nat, i: nat)
    requires i < |list|
    ensures var was := SeenAt(list, ctx, answers, before, i);
      var r := Fold(list[i..], point, was.shown, answers, before, was.failed);
      if !DecidesAt(list, point, ctx, answers, before, i) then
        var seen := SeenAt(list, ctx, answers, before, i + 1);
        r == Fold(list[i + 1..], point, seen.shown, answers, before, seen.failed)
      else
        r.decidedBy == Some(list[i].id)
        && match answers(list[i], was.shown)
           case None => r.outcome.Refuse? && r.failed == was.failed + [list[i].id]
           case Some(own) => r.outcome == own && r.failed == was.failed
  {
    assert list[i..][0] == list[i] && list[i..][1..] == list[i + 1..];
  }

  lemma {:induction false} DecidesFrom(list: seq<Handler>, point: Point, ctx: Value, answers: Answers, before: string -> nat, i: nat)
    returns (k: nat)
    requires i <= |list| && forall j :: 0 <= j < i ==> !DecidesAt(list, point, ctx, answers, before, j)
    ensures var was := SeenAt(list, ctx, answers, before, i);
      Decided(list, point, ctx, answers, before, k, Fold(list[i..], point, was.shown, answers, before, was.failed))
    decreases |list| - i
  {
    k := i;
    if i < |list| {
      OneHandler(list, point, ctx, answers, before, i);
      if !DecidesAt(list, point, ctx, answers, before, i) {
        k := DecidesFrom(list, point, ctx, answers, before, i + 1);
      }
    }
  }

  /** On any point and after any history the first handler in resolution order that decides does so, with its own answer, or
      with a refusal where it failed; each is shown what those before it left; if no one decides, what the last of them
      left goes on. Whoever failed on the way is named, once for each time. */
  lemma {:induction false} DispatchDecides(history: seq<Op>, point: Point, ctx: Value, answers: Answers) returns (k: nat)
    ensures Decided(Resolved(Live(history, point)), point, ctx, answers, Past(history), k, Verdict(history, point, ctx, answers))
  {
    var list := Resolved(Live(history, point));
    k := DecidesFrom(list, point, ctx, answers, Past(history), 0);
    assert list[0..] == list;
  }

  lemma {:induction false} OpNext(history: seq<Op>, op: Op)
    ensures (history + [op])[..|history|] == history
  {
  }

  /** Removal is total: whoever is removed handles nothing any more and has no failures to its name, and of the others
      nothing changes, nor does their order. */
  lemma {:induction false} RemovalIsTotal(history: seq<Op>, id: string, point: Point)
    ensures var after := history + [Unregister(id)];
      && (forall h :: h in Resolved(Live(after, point)) <==> h in Resolved(Live(history, point)) && h.id != id)
      && Resolved(Live(after, point)) == Without(Resolved(Live(history, point)), id)
      && (forall other :: Failures(after, other) == (if other == id then 0 else Failures(history, other)))
  {
    OpNext(history, Unregister(id));
    ResolvedWithout(Live(history, point), id);
    WithoutSubset(Resolved(Live(history, point)), id);
  }

  /** And a dispatch is held against exactly those who failed in it, once for each time. */
  lemma {:induction false} FailuresAreCounted(history: seq<Op>, point: Point, ctx: Value, answers: Answers) returns (k: nat)
    ensures Decided(Resolved(Live(history, point)), point, ctx, answers, Past(history), k, Verdict(history, point, ctx, answers))
    ensures var after, r := history + [Op.Dispatch(point, ctx, answers)], Verdict(history, point, ctx, answers);
      forall id :: Failures(after, id) == Failures(history, id) + Count(r.failed, id)
  {
    OpNext(history, Op.Dispatch(point, ctx, answers));
    k := DispatchDecides(history, point, ctx, answers);
  }
}
