/** What the fold promises a provider, and how one request extends the last. */
module SurfaceLaws {
  import opened Json
  import opened Contract
  import opened Record
  import opened Surface

  // --- Shape ------------------------------------------------------------------------

  lemma {:induction false} AddBlockSays(messages: seq<Message>, x: Said)
    requires Alternating(messages) && NoneEmpty(messages)
    ensures Spoken(AddBlock(messages, x)) == Spoken(messages) + [x]
    ensures Alternating(AddBlock(messages, x)) && NoneEmpty(AddBlock(messages, x))
  {
  }

  /** Grouping loses and reorders nothing, and never leaves two neighbours in one role. */
  lemma {:induction false} GroupSays(said: seq<Said>)
    ensures Spoken(Group(said)) == said && Alternating(Group(said)) && NoneEmpty(Group(said))
    decreases |said|
  {
    if said != [] {
      GroupSays(said[..|said| - 1]);
      AddBlockSays(Group(said[..|said| - 1]), said[|said| - 1]);
      assert said == said[..|said| - 1] + [said[|said| - 1]];
    }
  }

  /** The fold says exactly the kept blocks, in strict alternation, with no empty message. */
  lemma {:induction false} FoldSays(surface: seq<Entry>)
    ensures Spoken(Fold(surface)) == Keep(Flat(surface), Paired(Flat(surface)))
    ensures Alternating(Fold(surface)) && NoneEmpty(Fold(surface))
  {
    GroupSays(Keep(Flat(surface), Paired(Flat(surface))));
  }

  /** And is the only list of messages that does. */
  lemma {:induction false} OnlyOneGrouping(messages: seq<Message>)
    requires Alternating(messages) && NoneEmpty(messages)
    ensures messages == Group(Spoken(messages))
    decreases |messages|
  {
    if messages != [] {
      var head, last := messages[..|messages| - 1], messages[|messages| - 1];
      assert Alternating(head) && NoneEmpty(head);
      OnlyOneGrouping(head);
      GroupRun(Spoken(head), last.role, last.content);
      assert messages == head + [last];
    }
  }

  // --- Pairing ------------------------------------------------------------------------

  /** A block that carries a use and a result of different calls at once. */
  predicate Hybrid(b: Value) {
    UseId(b).Some? && ResultId(b).Some? && UseId(b) != ResultId(b)
  }

  lemma {:induction false} IdsOfKept(said: seq<Said>)
    ensures UseIds(Keep(said, Paired(said))) == Paired(said)
  {
  }

  /** A hybrid whose use is answered carries no orphaned result, and every call that is made and answered
      is answered on some block that is not a hybrid of an orphaned use. */
  predicate HybridsHarmless(said: seq<Said>) {
    && (forall x :: x in said && Hybrid(x.block) && UseId(x.block).value in ResultIds(said)
          ==> ResultId(x.block).value in UseIds(said))
    && (forall id :: id in UseIds(said) && id in ResultIds(said) ==> AnsweredApart(said, id))
  }

  predicate AnsweredApart(said: seq<Said>, id: string) {
    exists x :: x in said && ResultId(x.block) == Some(id)
      && (Hybrid(x.block) ==> UseId(x.block).value in ResultIds(said))
  }

  lemma {:induction false} HarmlessSuffices(said: seq<Said>)
    requires HybridsHarmless(said)
    ensures ResultIds(Keep(said, Paired(said))) == Paired(said)
  {
    var kept := Keep(said, Paired(said));
    forall id | id in Paired(said) ensures id in ResultIds(kept) {
      assert AnsweredApart(said, id);
      var x :| x in said && ResultId(x.block) == Some(id) && (Hybrid(x.block) ==> UseId(x.block).value in ResultIds(said));
      UseIsSaid(said, x);
      assert x in kept;
    }
    forall id | id in ResultIds(kept) ensures id in Paired(said) {
      var i :| 0 <= i < |kept| && ResultId(kept[i].block) == Some(id);
      assert kept[i] in kept;
      ResultIsSaid(said, kept[i]);
    }
  }

  lemma {:induction false} HarmlessNeeded(said: seq<Said>)
    requires ResultIds(Keep(said, Paired(said))) == Paired(said)
    ensures HybridsHarmless(said)
  {
    var kept := Keep(said, Paired(said));
    forall x | x in said && Hybrid(x.block) && UseId(x.block).value in ResultIds(said)
      ensures ResultId(x.block).value in UseIds(said)
    {
      UseIsSaid(said, x);
      assert x in kept;
      ResultIsSaid(kept, x);
    }
    forall id | id in UseIds(said) && id in ResultIds(said) ensures AnsweredApart(said, id) {
      assert id in Paired(said);
      var i :| 0 <= i < |kept| && ResultId(kept[i].block) == Some(id);
      assert kept[i] in kept;
    }
  }

  lemma {:induction false} UseIsSaid(said: seq<Said>, x: Said)
    requires x in said
    ensures UseId(x.block).Some? ==> UseId(x.block).value in UseIds(said)
  {
    var i :| 0 <= i < |said| && said[i] == x;
  }

  lemma {:induction false} ResultIsSaid(said: seq<Said>, x: Said)
    requires x in said
    ensures ResultId(x.block).Some? ==> ResultId(x.block).value in ResultIds(said)
  {
    var i :| 0 <= i < |said| && said[i] == x;
  }

  /** Calls and results match in the folded messages exactly when no hybrid block stands in the way. */
  lemma {:induction false} FoldPairsExactly(surface: seq<Entry>)
    ensures UseIds(Spoken(Fold(surface))) == Paired(Flat(surface))
    ensures ResultIds(Spoken(Fold(surface))) == UseIds(Spoken(Fold(surface)))
      <==> HybridsHarmless(Flat(surface))
  {
    FoldSays(surface);
    var said := Flat(surface);
    IdsOfKept(said);
    if ResultIds(Keep(said, Paired(said))) == Paired(said) {
      HarmlessNeeded(said);
    } else if HybridsHarmless(said) {
      HarmlessSuffices(said);
    }
  }

  /** With no hybrid block on the surface the folded messages carry equal sets of call and result ids,
      whatever crashed before. */
  lemma {:induction false} FoldPairs(surface: seq<Entry>)
    requires forall x :: x in Flat(surface) ==> !Hybrid(x.block)
    ensures UseIds(Spoken(Fold(surface))) == ResultIds(Spoken(Fold(surface))) == Paired(Flat(surface))
  {
    var said := Flat(surface);
    forall id | id in UseIds(said) && id in ResultIds(said) ensures AnsweredApart(said, id) {
      var i :| 0 <= i < |said| && ResultId(said[i].block) == Some(id);
      assert said[i] in said && !Hybrid(said[i].block);
    }
    FoldPairsExactly(surface);
  }

  lemma {:induction false} FlatOne(e: Entry)
    ensures Flat([e]) == SaidBy(RoleFor(e), BlocksOf(e))
  {
  }

  /** The call whose result rides on an orphaned call's block is left unanswered. */
  lemma {:induction false} HybridBreaksPairing(e: Entry, use: Value, both: Value)
    requires e.blocks == Some([use, both]) && e.actor == Claude
    requires use == ToolUseBlock("a", "t", Null)
    requires both == Obj(map["type" := Str("tool_use"), "id" := Str("b"),
                             "toolResult" := Obj(map["toolUseId" := Str("a")])])
    ensures UseIds(Spoken(Fold([e]))) != ResultIds(Spoken(Fold([e])))
  {
    CanonicalIds("a", "t", Null, "", false);
    FlatOne(e);
    assert UseId(both) == Some("b") && ResultId(both) == Some("a");
    PairRidingOnOrphan([e], use, both);
  }

  lemma {:induction false} PairRidingOnOrphan(surface: seq<Entry>, use: Value, both: Value)
    requires Flat(surface) == [Said(AssistantRole, use), Said(AssistantRole, both)]
    requires UseId(use) == Some("a") && ResultId(use) == None
    requires UseId(both) == Some("b") && ResultId(both) == Some("a")
    ensures UseIds(Spoken(Fold(surface))) != ResultIds(Spoken(Fold(surface)))
  {
    var said := Flat(surface);
    assert UseId(said[0].block) == Some("a") && ResultId(said[1].block) == Some("a");
    assert "a" in Paired(said) && "b" !in ResultIds(said);
    assert !AnsweredApart(said, "a");
    FoldPairsExactly(surface);
  }

  // --- Append-extension -----------------------------------------------------------------

  lemma {:induction false} FlatConcat(s: seq<Entry>, t: seq<Entry>)
    ensures Flat(s + t) == Flat(s) + Flat(t)
    decreases |t|
  {
    if t == [] {
      assert s + t == s;
    } else {
      assert (s + t)[..|s + t| - 1] == s + t[..|t| - 1];
      FlatConcat(s, t[..|t| - 1]);
    }
  }

  lemma {:induction false} PairedGrows(a: seq<Said>, b: seq<Said>)
    ensures Paired(a) <= Paired(a + b)
  {
    forall id | id in Paired(a) ensures id in Paired(a + b) {
      var i :| 0 <= i < |a| && UseId(a[i].block) == Some(id);
      var j :| 0 <= j < |a| && ResultId(a[j].block) == Some(id);
      assert (a + b)[i] == a[i] && (a + b)[j] == a[j];
    }
  }

  /** A block the smaller set drops and the larger keeps. */
  predicate Revived(b: Value, p: set<string>, q: set<string>) {
    !Keeps(b, p) && Keeps(b, q)
  }

  /** No block comes back to life in front of one that was there all along. */
  predicate NothingRevivedBefore(said: seq<Said>, p: set<string>, q: set<string>) {
    forall i, j :: 0 <= i < j < |said| && Revived(said[i].block, p, q) ==> !Keeps(said[j].block, p)
  }

  predicate NoneRevived(said: seq<Said>, p: set<string>, q: set<string>) {
    forall i :: 0 <= i < |said| ==> !Revived(said[i].block, p, q)
  }

  lemma {:induction false} KeepSame(said: seq<Said>, p: set<string>, q: set<string>)
    requires p <= q && NoneRevived(said, p, q)
    ensures Keep(said, p) == Keep(said, q)
    decreases |said|
  {
    if said != [] {
      assert forall i :: 0 <= i < |said| - 1 ==> said[..|said| - 1][i] == said[i];
      KeepSame(said[..|said| - 1], p, q);
    }
  }

  lemma {:induction false} KeepGrows(said: seq<Said>, p: set<string>, q: set<string>)
    requires p <= q
    ensures |Keep(said, p)| <= |Keep(said, q)|
    ensures |Keep(said, p)| == |Keep(said, q)| ==> NoneRevived(said, p, q)
    decreases |said|
  {
    if said != [] {
      var init := said[..|said| - 1];
      KeepGrows(init, p, q);
      assert forall i :: 0 <= i < |init| ==> init[i] == said[i];
    }
  }

  lemma {:induction false} KeepConcatThree(a: seq<Said>, b: seq<Said>, c: seq<Said>, p: set<string>)
    ensures Keep(a + (b + c), p) == Keep(a, p) + (Keep(b, p) + Keep(c, p))
  {
    KeepConcat(a, b + c, p);
    KeepConcat(b, c, p);
  }

  /** Both lists around the first block that is revived. */
  lemma {:induction false} KeepAround(said: seq<Said>, k: nat, p: set<string>, q: set<string>)
    requires p <= q && k < |said| && Revived(said[k].block, p, q) && NoneRevived(said[..k], p, q)
    ensures Keep(said, p) == Keep(said[..k], p) + Keep(said[k + 1..], p)
    ensures Keep(said, q) == Keep(said[..k], p) + ([said[k]] + Keep(said[k + 1..], q))
  {
    var x := [said[k]];
    assert said == said[..k] + (x + said[k + 1..]);
    KeepConcatThree(said[..k], x, said[k + 1..], p);
    KeepConcatThree(said[..k], x, said[k + 1..], q);
    KeepSame(said[..k], p, q);
    assert x[..0] == [] && Keep([], p) == [] && Keep([], q) == [];
    assert Keep(x, p) == [] && Keep(x, q) == x;
    assert [] + Keep(said[k + 1..], p) == Keep(said[k + 1..], p);
  }

  lemma {:induction false} FirstRevived(said: seq<Said>, p: set<string>, q: set<string>) returns (k: nat)
    requires !NoneRevived(said, p, q)
    ensures k < |said| && Revived(said[k].block, p, q) && NoneRevived(said[..k], p, q)
  {
    var i :| 0 <= i < |said| && Revived(said[i].block, p, q);
    k := 0;
    while !Revived(said[k].block, p, q)
      invariant k <= i && NoneRevived(said[..k], p, q)
      decreases i - k
    {
      k := k + 1;
    }
  }

  /** A revived block in front of a kept one takes a place the shorter list gives to another; with none kept
      behind it the shorter list ends there. */
  lemma {:induction false} KeepPrefix(said: seq<Said>, p: set<string>, q: set<string>)
    requires p <= q
    ensures NothingRevivedBefore(said, p, q) <==> Keep(said, p) <= Keep(said, q)
  {
    if NoneRevived(said, p, q) {
      KeepSame(said, p, q);
    } else {
      var k := FirstRevived(said, p, q);
      KeepAround(said, k, p, q);
      NoneKept(said[k + 1..], p);
      var n, tail := |Keep(said[..k], p)|, Keep(said[k + 1..], p);
      if tail == [] {
        NothingBehind(said, k, p, q);
      } else {
        SomethingBehind(said, k, p, q);
        assert tail[0] in tail;
        assert Keep(said, p)[n] == tail[0] && Keep(said, q)[n] == said[k];
      }
    }
  }

  lemma {:induction false} NothingBehind(said: seq<Said>, k: nat, p: set<string>, q: set<string>)
    requires k < |said| && NoneRevived(said[..k], p, q) && forall x :: x in said[k + 1..] ==> !Keeps(x.block, p)
    requires Revived(said[k].block, p, q)
    ensures NothingRevivedBefore(said, p, q)
  {
    assert forall m :: 0 <= m < k ==> said[..k][m] == said[m];
    forall i, j | 0 <= i < j < |said| && Revived(said[i].block, p, q) ensures !Keeps(said[j].block, p) {
      assert said[j] == said[k + 1..][j - k - 1];
    }
  }

  lemma {:induction false} SomethingBehind(said: seq<Said>, k: nat, p: set<string>, q: set<string>)
    requires k < |said| && Revived(said[k].block, p, q) && Keep(said[k + 1..], p) != []
    ensures !NothingRevivedBefore(said, p, q)
  {
    var x := Keep(said[k + 1..], p)[0];
    assert x in Keep(said[k + 1..], p);
    var j :| 0 <= j < |said[k + 1..]| && said[k + 1..][j] == x;
    assert said[k + 1 + j] == x;
  }

  lemma {:induction false} PrefixOfSum(a: seq<Said>, b: seq<Said>, c: seq<Said>)
    requires |a| <= |b|
    ensures a <= b + c <==> a <= b
  {
    assert b == (b + c)[..|b|];
  }

  /** What the next request says starts with what this one said exactly when no block orphaned in
      `s` is paired by `t` in front of a block that was already kept. */
  lemma {:induction false} AppendExtensionExactly(s: seq<Entry>, t: seq<Entry>)
    ensures Spoken(Fold(s)) <= Spoken(Fold(s + t))
      <==> NothingRevivedBefore(Flat(s), Paired(Flat(s)), Paired(Flat(s + t)))
  {
    FlatConcat(s, t);
    FoldSays(s);
    FoldSays(s + t);
    var p, q := Paired(Flat(s)), Paired(Flat(s + t));
    PairedGrows(Flat(s), Flat(t));
    KeepConcat(Flat(s), Flat(t), q);
    KeepPrefix(Flat(s), p, q);
    KeepGrows(Flat(s), p, q);
    PrefixOfSum(Keep(Flat(s), p), Keep(Flat(s), q), Keep(Flat(t), q));
  }

  /** A tool id of which `said` holds only one half. */
  predicate Orphan(x: Said, said: seq<Said>) {
    BlockId(x.block).Some? && BlockId(x.block).value !in Paired(said)
  }

  /** In particular when no orphan of `s` meets its other half in `t`. */
  lemma {:induction false} AppendExtension(s: seq<Entry>, t: seq<Entry>)
    requires forall x :: x in Flat(s) && Orphan(x, Flat(s)) ==> Orphan(x, Flat(s + t))
    ensures Spoken(Fold(s)) <= Spoken(Fold(s + t))
  {
    var p, q := Paired(Flat(s)), Paired(Flat(s + t));
    forall i | 0 <= i < |Flat(s)| ensures !Revived(Flat(s)[i].block, p, q) {
      assert Flat(s)[i] in Flat(s);
    }
    AppendExtensionExactly(s, t);
  }

  /** The condition is needed: a call answered after the room spoke again rewrites the prefix. */
  lemma {:induction false} LateAnswerRewritesPrefix(call: Entry, prompt: Entry, answer: Entry, id: string)
    requires call.blocks == Some([ToolUseBlock(id, "t", Null)])
    requires prompt.blocks == Some([TextBlock("hello")])
    requires answer.blocks == Some([ToolResultBlock(id, "ok", false)])
    ensures !(Spoken(Fold([call, prompt])) <= Spoken(Fold([call, prompt] + [answer])))
  {
    FlatOne(call);
    FlatOne(prompt);
    FlatOne(answer);
    FlatConcat([call], [prompt]);
    assert [call] + [prompt] == [call, prompt];
    CanonicalIds(id, "t", Null, "hello", false);
    CanonicalIds(id, "t", Null, "ok", false);
    AnswerAfterText([call, prompt], [answer], id);
  }

  lemma {:induction false} AnswerAfterText(s: seq<Entry>, t: seq<Entry>, id: string)
    requires |Flat(s)| == 2 && |Flat(t)| == 1
    requires UseId(Flat(s)[0].block) == Some(id) && ResultId(Flat(s)[0].block) == None
    requires BlockId(Flat(s)[1].block) == None && ResultId(Flat(t)[0].block) == Some(id)
    ensures !(Spoken(Fold(s)) <= Spoken(Fold(s + t)))
  {
    FlatConcat(s, t);
    var said, all := Flat(s), Flat(s + t);
    assert UseId(all[0].block) == Some(id) && ResultId(all[2].block) == Some(id);
    assert id in Paired(all) && id !in ResultIds(said);
    assert Revived(said[0].block, Paired(said), Paired(all)) && Keeps(said[1].block, Paired(said));
    AppendExtensionExactly(s, t);
  }

  // --- A later baseline -------------------------------------------------------------------

  lemma {:induction false} PairedBehind(a: seq<Said>, b: seq<Said>)
    ensures Paired(b) <= Paired(a + b)
  {
    forall id | id in Paired(b) ensures id in Paired(a + b) {
      var i :| 0 <= i < |b| && UseId(b[i].block) == Some(id);
      var j :| 0 <= j < |b| && ResultId(b[j].block) == Some(id);
      assert (a + b)[|a| + i] == b[i] && (a + b)[|a| + j] == b[j];
    }
  }

  /** What comes first is said by no block of its own, and completes no call that stands alone behind it. */
  ghost predicate SilentBefore(a: seq<Said>, b: seq<Said>) {
    && (forall x :: x in a ==> !Keeps(x.block, Paired(a + b)))
    && NoneRevived(b, Paired(b), Paired(a + b))
  }

  lemma {:induction false} KeepBehindExactly(a: seq<Said>, b: seq<Said>)
    ensures Keep(a + b, Paired(a + b)) == Keep(b, Paired(b)) <==> SilentBefore(a, b)
  {
    var p, q := Paired(b), Paired(a + b);
    PairedBehind(a, b);
    KeepConcat(a, b, q);
    KeepGrows(b, p, q);
    if NoneRevived(b, p, q) {
      KeepSame(b, p, q);
    }
    NoneKept(a, q);
    if Keep(a, q) + Keep(b, q) == Keep(b, p) {
      assert |Keep(a, q)| + |Keep(b, q)| == |Keep(b, p)|;
    }
  }

  lemma {:induction false} NoneKept(said: seq<Said>, paired: set<string>)
    ensures Keep(said, paired) == [] <==> forall x :: x in said ==> !Keeps(x.block, paired)
  {
    if Keep(said, paired) != [] {
      assert Keep(said, paired)[0] in Keep(said, paired);
    }
  }

  /** Folding all of a surface gives what folding its rest gives exactly when what comes first is silent. */
  lemma {:induction false} FoldBehindExactly(a: seq<Entry>, b: seq<Entry>)
    ensures Fold(a + b) == Fold(b) <==> SilentBefore(Flat(a), Flat(b))
  {
    FlatConcat(a, b);
    FoldSays(a + b);
    FoldSays(b);
    KeepBehindExactly(Flat(a), Flat(b));
  }

  /** A block in front that belongs to no call is never silent. */
  lemma {:induction false} PlainBlockSpeaks(a: seq<Said>, b: seq<Said>, x: Said)
    requires x in a && BlockId(x.block).None?
    ensures !SilentBefore(a, b)
  {
  }
}
