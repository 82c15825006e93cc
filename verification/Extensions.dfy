/** The extension registry: who handles a point, in what order, and what a dispatch decides. */
module Extensions {
  import opened Json

  const STRIKE_LIMIT := 3

  datatype Point = RequestBefore | ToolBefore | ToolAfter | RunComplete

  datatype Handler = Handler(id: string, point: Point, priority: int, body: nat)

  datatype Outcome = Continue(value: Value) | Replace(value: Value) | Refuse(reason: string)

  /** How each handler answers during one dispatch; None is a throw or a timeout. */
  type Answers = (Handler, Value) -> Option<Outcome>

  datatype Result = Result(outcome: Outcome, decidedBy: Option<string>, failed: seq<string>)

  /** A hung gate must not permit what it gates. */
  predicate FailsClosed(p: Point) {
    p == ToolBefore
  }

  // --- Resolution order -------------------------------------------------------------------

  predicate Sorted(s: seq<Handler>) {
    forall i, j :: 0 <= i < j < |s| ==> s[i].priority <= s[j].priority
  }

  function Band(s: seq<Handler>, priority: int): seq<Handler>
    decreases |s|
  {
    if s == [] then []
    else
      var before := Band(s[..|s| - 1], priority);
      if s[|s| - 1].priority == priority then before + [s[|s| - 1]] else before
  }

  /** Behind everything that is not later. */
  function Insert(s: seq<Handler>, h: Handler): seq<Handler>
    decreases |s|
  {
    if s == [] || s[|s| - 1].priority <= h.priority then s + [h]
    else Insert(s[..|s| - 1], h) + [s[|s| - 1]]
  }

  /** The stable sort by band. */
  function Resolved(s: seq<Handler>): seq<Handler>
    decreases |s|
  {
    if s == [] then [] else Insert(Resolved(s[..|s| - 1]), s[|s| - 1])
  }

  lemma {:induction false} BandConcat(a: seq<Handler>, b: seq<Handler>, priority: int)
    ensures Band(a + b, priority) == Band(a, priority) + Band(b, priority)
    decreases |b|
  {
    if b == [] {
      assert a + b == a;
    } else {
      assert (a + b)[..|a + b| - 1] == a + b[..|b| - 1];
      BandConcat(a, b[..|b| - 1], priority);
    }
  }

  lemma {:induction false} InsertSorts(s: seq<Handler>, h: Handler)
    requires Sorted(s)
    ensures Sorted(Insert(s, h)) && |Insert(s, h)| == |s| + 1
    ensures forall x :: x in Insert(s, h) <==> x in s || x == h
    decreases |s|
  {
    if !(s == [] || s[|s| - 1].priority <= h.priority) {
      var init, last := s[..|s| - 1], s[|s| - 1];
      InsertSorts(init, h);
      assert s == init + [last];
      forall i | 0 <= i < |Insert(init, h)| ensures Insert(init, h)[i].priority <= last.priority {
        assert Insert(init, h)[i] in Insert(init, h);
      }
    }
  }

  lemma {:induction false} InsertKeepsBands(s: seq<Handler>, h: Handler, priority: int)
    requires Sorted(s)
    ensures Band(Insert(s, h), priority) == Band(s + [h], priority)
    decreases |s|
  {
    if !(s == [] || s[|s| - 1].priority <= h.priority) {
      var init, last := s[..|s| - 1], s[|s| - 1];
      InsertKeepsBands(init, h, priority);
      assert s == init + [last];
      BandConcat(Insert(init, h), [last], priority);
      BandConcat(init, [h], priority);
      BandConcat(init, [last], priority);
      BandConcat(s, [h], priority);
      OneBand(last, priority);
      OneBand(h, priority);
    }
  }

  lemma {:induction false} OneBand(h: Handler, priority: int)
    ensures Band([h], priority) == if h.priority == priority then [h] else []
  {
  }

  /** The resolved list is in band order, and keeps registration order within each band... */
  lemma {:induction false} ResolvedIsStable(s: seq<Handler>)
    ensures Sorted(Resolved(s)) && forall p :: Band(Resolved(s), p) == Band(s, p)
    decreases |s|
  {
    if s != [] {
      var init, last := s[..|s| - 1], s[|s| - 1];
      ResolvedIsStable(init);
      InsertSorts(Resolved(init), last);
      assert s == init + [last];
      forall p ensures Band(Resolved(s), p) == Band(s, p) {
        InsertKeepsBands(Resolved(init), last, p);
        BandConcat(Resolved(init), [last], p);
        BandConcat(init, [last], p);
      }
    }
  }

  lemma {:induction false} BandEmpty(s: seq<Handler>, p: int)
    requires forall i :: 0 <= i < |s| ==> s[i].priority != p
    ensures Band(s, p) == []
    decreases |s|
  {
    if s != [] {
      BandEmpty(s[..|s| - 1], p);
    }
  }

  lemma {:induction false} BandHas(s: seq<Handler>, i: nat)
    requires i < |s|
    ensures Band(s, s[i].priority) != []
    decreases |s|
  {
    if i < |s| - 1 {
      BandHas(s[..|s| - 1], i);
    }
  }

  /** ...and is the only list that does both. */
  lemma {:induction false} OnlyOneOrder(a: seq<Handler>, b: seq<Handler>)
    requires Sorted(a) && Sorted(b) && forall p :: Band(a, p) == Band(b, p)
    ensures a == b
    decreases |a|
  {
    if a == [] {
      if b != [] {
        BandHas(b, 0);
      }
    } else {
      BandHas(a, |a| - 1);
      if b != [] {
        SameLast(a, b);
        var x, y := a[..|a| - 1], b[..|b| - 1];
        assert a == x + [a[|a| - 1]] && b == y + [b[|b| - 1]];
        forall p ensures Band(x, p) == Band(y, p) {
          BandConcat(x, [a[|a| - 1]], p);
          BandConcat(y, [b[|b| - 1]], p);
          Cancel(Band(x, p), Band(y, p), Band([a[|a| - 1]], p));
        }
        OnlyOneOrder(x, y);
      }
    }
  }

  lemma {:induction false} Cancel(x: seq<Handler>, y: seq<Handler>, z: seq<Handler>)
    requires x + z == y + z
    ensures x == y
  {
    assert x == (x + z)[..|x|] && y == (y + z)[..|y|];
  }

  lemma {:induction false} SameLast(a: seq<Handler>, b: seq<Handler>)
    requires Sorted(a) && Sorted(b) && a != [] && b != [] && forall p :: Band(a, p) == Band(b, p)
    ensures a[|a| - 1] == b[|b| - 1]
  {
    var p, q := a[|a| - 1].priority, b[|b| - 1].priority;
    LastOfBand(a);
    LastOfBand(b);
    if p < q {
      BandEmpty(a, q);
    } else if q < p {
      BandEmpty(b, p);
    }
  }

  lemma {:induction false} LastOfBand(s: seq<Handler>)
    requires s != []
    ensures var band := Band(s, s[|s| - 1].priority);
      band != [] && band[|band| - 1] == s[|s| - 1]
  {
  }

  function Without(s: seq<Handler>, id: string): seq<Handler>
    decreases |s|
  {
    if s == [] then []
    else
      var before := Without(s[..|s| - 1], id);
      if s[|s| - 1].id == id then before else before + [s[|s| - 1]]
  }

  lemma {:induction false} WithoutConcat(a: seq<Handler>, b: seq<Handler>, id: string)
    ensures Without(a + b, id) == Without(a, id) + Without(b, id)
    decreases |b|
  {
    if b == [] {
      assert a + b == a;
    } else {
      assert (a + b)[..|a + b| - 1] == a + b[..|b| - 1];
      WithoutConcat(a, b[..|b| - 1], id);
    }
  }

  lemma {:induction false} WithoutSubset(s: seq<Handler>, id: string)
    ensures forall x :: x in Without(s, id) <==> x in s && x.id != id
    decreases |s|
  {
    if s != [] {
      WithoutSubset(s[..|s| - 1], id);
      assert s == s[..|s| - 1] + [s[|s| - 1]];
    }
  }

  lemma {:induction false} InsertWithout(s: seq<Handler>, h: Handler, id: string)
    requires Sorted(s)
    ensures Without(Insert(s, h), id) == if h.id == id then Without(s, id) else Insert(Without(s, id), h)
    decreases |s|
  {
    var w := Without(s, id);
    if s == [] || s[|s| - 1].priority <= h.priority {
      WithoutConcat(s, [h], id);
      assert [h][..0] == [];
      WithoutSubset(s, id);
      if w != [] {
        assert w[|w| - 1] in w && w[|w| - 1] in s;
      }
    } else {
      var init, last := s[..|s| - 1], s[|s| - 1];
      InsertWithout(init, h, id);
      WithoutConcat(Insert(init, h), [last], id);
      assert [last][..0] == [];
      if last.id != id {
        assert w[..|w| - 1] == Without(init, id);
      }
    }
  }

  /** Removing someone and resolving commute. */
  lemma {:induction false} ResolvedWithout(s: seq<Handler>, id: string)
    ensures Without(Resolved(s), id) == Resolved(Without(s, id))
    decreases |s|
  {
    if s != [] {
      var init, last := s[..|s| - 1], s[|s| - 1];
      ResolvedWithout(init, id);
      ResolvedIsStable(init);
      InsertWithout(Resolved(init), last, id);
      var w := Without(s, id);
      if last.id != id {
        assert w[..|w| - 1] == Without(init, id);
      }
    }
  }

  // --- A history and what it means -----------------------------------------------------------

  datatype Op =
    | Register(handler: Handler)
    | Unregister(id: string)
    | Dispatch(point: Point, ctx: Value, answers: Answers)

  /** The registrations on a point that were not withdrawn, in order. */
  function Live(history: seq<Op>, point: Point): seq<Handler>
    decreases |history|
  {
    if history == [] then []
    else
      var before := Live(history[..|history| - 1], point);
      match history[|history| - 1]
      case Register(h) => if h.point == point then before + [h] else before
      case Unregister(id) => Without(before, id)
      case Dispatch(_, _, _) => before
  }

  function Count(ids: seq<string>, id: string): nat
    decreases |ids|
  {
    if ids == [] then 0 else Count(ids[..|ids| - 1], id) + (if ids[|ids| - 1] == id then 1 else 0)
  }

  /** How often a contributor failed since it was last withdrawn. */
  function Failures(history: seq<Op>, id: string): nat
    decreases |history|, 0
  {
    if history == [] then 0
    else
      var init := history[..|history| - 1];
      match history[|history| - 1]
      case Register(_) => Failures(init, id)
      case Unregister(gone) => if gone == id then 0 else Failures(init, id)
      case Dispatch(point, ctx, answers) => Failures(init, id) + Count(Verdict(init, point, ctx, answers).failed, id)
  }

  function Past(history: seq<Op>): string -> nat
    decreases |history|, 1
  {
    id => Failures(history, id)
  }

  /** What a dispatch decides: the left fold over those who handle the point. */
  function Verdict(history: seq<Op>, point: Point, ctx: Value, answers: Answers): Result
    decreases |history|, 2
  {
    Fold(Resolved(Live(history, point)), point, ctx, answers, Past(history), [])
  }

  /** A contributor with three failures is passed over; the first refusal or replacement decides; a
      failure refuses where the point fails closed and changes nothing elsewhere. */
  function Fold(list: seq<Handler>, point: Point, ctx: Value, answers: Answers, before: string -> nat, failed: seq<string>): Result
    decreases |list|
  {
    if list == [] then Result(Continue(ctx), None, failed)
    else if before(list[0].id) + Count(failed, list[0].id) >= STRIKE_LIMIT
    then Fold(list[1..], point, ctx, answers, before, failed)
    else match answers(list[0], ctx)
      case None =>
        if FailsClosed(point)
        then Result(Refuse(list[0].id), Some(list[0].id), failed + [list[0].id])
        else Fold(list[1..], point, ctx, answers, before, failed + [list[0].id])
      case Some(Continue(value)) => Fold(list[1..], point, value, answers, before, failed)
      case Some(decided) => Result(decided, Some(list[0].id), failed)
  }

  // --- The registry -------------------------------------------------------------------------------

  class ExtensionRegistry {
    var handlers: map<Point, seq<Handler>>
    var strikes: map<string, nat>
    var disabled: set<string>
    ghost var history: seq<Op>

    function ListOf(point: Point): seq<Handler>
      reads this
    {
      if point in handlers then handlers[point] else []
    }

    function StrikesOf(id: string): nat
      reads this`strikes
    {
      if id in strikes then strikes[id] else 0
    }

    /** Each list is the stable sort of what is live on its point; a contributor is disabled exactly when
        it has failed three times or more since it was last withdrawn. */
    ghost predicate Valid()
      reads this
    {
      && (forall point :: ListOf(point) == Resolved(Live(history, point)))
      && (forall id :: StrikesOf(id) == Failures(history, id))
      && (forall id :: id in disabled <==> Failures(history, id) >= STRIKE_LIMIT)
    }

    constructor ()
      ensures Valid() && history == []
    {
      handlers, strikes, disabled, history := map[], map[], {}, [];
    }

    method Register(h: Handler)
      requires Valid()
      modifies this
      ensures Valid() && history == old(history) + [Op.Register(h)]
    {
      var list := ListOf(h.point) + [h];
      ResolvedPush(Live(history, h.point), h);
      list := Resolved(list);
      handlers := handlers[h.point := list];
      history := history + [Op.Register(h)];
      assert history[..|history| - 1] == old(history);
    }

    method Unregister(id: string)
      requires Valid()
      modifies this
      ensures Valid() && history == old(history) + [Op.Unregister(id)]
    {
      ghost var was := handlers;
      handlers := map point | point in handlers :: Without(handlers[point], id);
      strikes := map k | k in strikes && k != id :: strikes[k];
      disabled := disabled - {id};
      history := history + [Op.Unregister(id)];
      assert history[..|history| - 1] == old(history);
      forall point ensures ListOf(point) == Resolved(Live(history, point)) {
        ResolvedWithout(Live(old(history), point), id);
        assert Without([], id) == [];
      }
    }

    method Strike(id: string)
      modifies this`strikes, this`disabled
      ensures StrikesOf(id) == old(StrikesOf(id)) + 1
      ensures forall other :: other != id ==> StrikesOf(other) == old(StrikesOf(other))
      ensures disabled == old(disabled) + (if StrikesOf(id) >= STRIKE_LIMIT then {id} else {})
    {
      strikes := strikes[id := StrikesOf(id) + 1];
      if strikes[id] >= STRIKE_LIMIT { disabled := disabled + {id}; }
    }

    /** What is decided is the fold of the history; nothing but failures is remembered. */
    method Dispatch(point: Point, ctx: Value, answers: Answers) returns (r: Result)
      requires Valid()
      modifies this
      ensures Valid() && history == old(history) + [Op.Dispatch(point, ctx, answers)]
      ensures r == Verdict(old(history), point, ctx, answers)
    {
      r := FoldHandlers(ListOf(point), point, ctx, answers, Past(history));
      Remember(point, ctx, answers, r);
    }

    method FoldHandlers(list: seq<Handler>, point: Point, ctx: Value, answers: Answers, ghost before: string -> nat) returns (r: Result)
      requires Marked([], before)
      modifies this`strikes, this`disabled
      ensures r == Fold(list, point, ctx, answers, before, []) && Marked(r.failed, before)
    {
      var current := ctx;
      var failed: seq<string> := [];
      assert list[0..] == list;
      for i := 0 to |list|
        invariant Marked(failed, before)
        invariant Fold(list[i..], point, current, answers, before, failed) == Fold(list, point, ctx, answers, before, [])
      {
        var h := list[i];
        assert list[i..][0] == h && list[i..][1..] == list[i + 1..];
        if h.id in disabled { continue; }
        match answers(h, current) {
          case None =>
            StrikeMarked(h.id, failed, before);
            failed := failed + [h.id];
            if FailsClosed(point) { return Result(Refuse(h.id), Some(h.id), failed); }
          case Some(Continue(value)) => current := value;
          case Some(other) => return Result(other, Some(h.id), failed);
        }
      }
      assert list[|list|..] == [];
      r := Result(Continue(current), None, failed);
    }

    method StrikeMarked(id: string, ghost failed: seq<string>, ghost before: string -> nat)
      requires Marked(failed, before)
      modifies this`strikes, this`disabled
      ensures Marked(failed + [id], before)
    {
      CountOne(failed, id);
      Strike(id);
    }

    ghost method Remember(point: Point, ctx: Value, answers: Answers, r: Result)
      requires forall p :: ListOf(p) == Resolved(Live(history, p))
      requires r == Verdict(history, point, ctx, answers) && Marked(r.failed, Past(history))
      modifies this`history
      ensures Valid() && history == old(history) + [Op.Dispatch(point, ctx, answers)]
    {
      history := history + [Op.Dispatch(point, ctx, answers)];
      assert history[..|history| - 1] == old(history);
    }

    /** Mid-dispatch: the failures so far are already counted. */
    ghost predicate Marked(failed: seq<string>, before: string -> nat)
      reads this`strikes, this`disabled
    {
      && (forall id :: StrikesOf(id) == before(id) + Count(failed, id))
      && (forall id :: id in disabled <==> before(id) + Count(failed, id) >= STRIKE_LIMIT)
    }
  }

  lemma {:induction false} CountOne(ids: seq<string>, id: string)
    ensures Count(ids + [id], id) == Count(ids, id) + 1
    ensures forall other :: other != id ==> Count(ids + [id], other) == Count(ids, other)
  {
  }

  /** A resolved list with one more at its end resolves as the registrations do. */
  lemma {:induction false} ResolvedPush(s: seq<Handler>, h: Handler)
    ensures Resolved(Resolved(s) + [h]) == Resolved(s + [h])
  {
    ResolvedIsStable(s);
    ResolvedAgain(Resolved(s));
    assert (Resolved(s) + [h])[..|Resolved(s)|] == Resolved(s);
    assert (s + [h])[..|s|] == s;
  }

  lemma {:induction false} ResolvedAgain(s: seq<Handler>)
    requires Sorted(s)
    ensures Resolved(s) == s
  {
    ResolvedIsStable(s);
    OnlyOneOrder(Resolved(s), s);
  }

  // --- The gate ---------------------------------------------------------------------------------------

  predicate Allows(answers: Answers, h: Handler, ctx: Value) {
    match answers(h, ctx)
    case Some(Continue(_)) => true
    case _ => false
  }

  predicate Passed(h: Handler, before: string -> nat) {
    before(h.id) >= STRIKE_LIMIT
  }

  /** What the handler at `i` is shown: what was dispatched, as everyone before it that is not disabled left it. */
  function Shown(list: seq<Handler>, ctx: Value, answers: Answers, before: string -> nat, i: nat): Value
    requires i <= |list|
    decreases i
  {
    if i == 0 then ctx
    else
      var left := if !Passed(list[0], before) && Allows(answers, list[0], ctx) then answers(list[0], ctx).value.value else ctx;
      Shown(list[1..], left, answers, before, i - 1)
  }

  /** The handler was disabled by its failures, or allowed what it was shown. */
  ghost predicate LetBy(list: seq<Handler>, ctx: Value, answers: Answers, before: string -> nat, i: nat)
    requires i < |list|
  {
    Passed(list[i], before) || Allows(answers, list[i], Shown(list, ctx, answers, before, i))
  }

  ghost predicate EveryoneLets(list: seq<Handler>, ctx: Value, answers: Answers, before: string -> nat) {
    forall i :: 0 <= i < |list| ==> LetBy(list, ctx, answers, before, i)
  }

  lemma {:induction false} FoldOpensExactly(list: seq<Handler>, ctx: Value, answers: Answers, before: string -> nat)
    ensures var outcome := Fold(list, ToolBefore, ctx, answers, before, []).outcome;
      && (outcome.Continue? <==> EveryoneLets(list, ctx, answers, before))
      && (outcome.Continue? ==> outcome.value == Shown(list, ctx, answers, before, |list|))
    decreases |list|
  {
    if list != [] {
      if Passed(list[0], before) || Allows(answers, list[0], ctx) {
        var left := if Passed(list[0], before) then ctx else answers(list[0], ctx).value.value;
        FoldOpensExactly(list[1..], left, answers, before);
        assert LetBy(list, ctx, answers, before, 0);
        forall i | 0 < i < |list| ensures LetBy(list, ctx, answers, before, i) <==> LetBy(list[1..], left, answers, before, i - 1) {
          assert list[1..][i - 1] == list[i];
        }
        forall i | 0 <= i < |list| - 1 ensures LetBy(list[1..], left, answers, before, i) <==> LetBy(list, ctx, answers, before, i + 1) {
          assert list[1..][i] == list[i + 1];
        }
      } else {
        assert !LetBy(list, ctx, answers, before, 0);
      }
    }
  }

  /** A gate lets a call through exactly when everyone on it who is not disabled allows what it is shown; one that
      hangs, throws, refuses or replaces keeps it shut. */
  lemma {:induction false} GateOpens(history: seq<Op>, ctx: Value, answers: Answers)
    ensures var list, outcome := Resolved(Live(history, ToolBefore)), Verdict(history, ToolBefore, ctx, answers).outcome;
      && (outcome.Continue? <==> EveryoneLets(list, ctx, answers, Past(history)))
      && (outcome.Continue? ==> outcome.value == Shown(list, ctx, answers, Past(history), |list|))
  {
    FoldOpensExactly(Resolved(Live(history, ToolBefore)), ctx, answers, Past(history));
  }
}
