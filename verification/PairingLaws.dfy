/** Whether calls and results stay matched all the way to the provider, in either vocabulary. */
module PairingLaws {
  import opened Json
  import opened Contract
  import opened Record
  import opened Surface
  import opened SurfaceLaws
  import opened Translation
  import AnthropicRequest
  import ConverseRequest
  import ConverseStream

  // --- Anthropic --------------------------------------------------------------------------------

  /** On any surface, the ids sent are those each kept block is sent with. */
  lemma {:induction false} AnthropicSentIds(codec: Codec, surface: seq<Entry>)
    requires AnthropicRequest.ToAnthropic(codec, Fold(surface)).Some?
    ensures var said, sent := Spoken(Fold(surface)), Spoken(AnthropicRequest.ToAnthropic(codec, Fold(surface)).value);
      && UseIds(sent) == IdsBy(AnthropicRequest.SentUse, said) && ResultIds(sent) == IdsBy(AnthropicRequest.SentResult, said)
  {
    var t, said := AnthropicRequest.Translator(codec), Spoken(Fold(surface));
    ReadsThrough(t, Fold(surface));
    CarrySays(t, Fold(surface));
    forall i | 0 <= i < |said|
      ensures SendsAs(t, said[i].block, AnthropicRequest.SentUse(said[i].block), AnthropicRequest.SentResult(said[i].block))
    {
      AnthropicRequest.BlockSends(codec, said[i].block);
    }
    SentIds(t, said, AnthropicRequest.SentUse, AnthropicRequest.SentResult);
  }

  lemma {:induction false} WellPlacedSends(b: Value)
    requires AnthropicRequest.WellPlaced(b)
    ensures AnthropicRequest.SentUse(b) == UseId(b) && AnthropicRequest.SentResult(b) == ResultId(b)
  {
  }

  lemma {:induction false} AllWellPlacedSends(said: seq<Said>)
    requires forall i :: 0 <= i < |said| ==> AnthropicRequest.WellPlaced(said[i].block)
    ensures IdsBy(AnthropicRequest.SentUse, said) == UseIds(said)
    ensures IdsBy(AnthropicRequest.SentResult, said) == ResultIds(said)
  {
    forall i | 0 <= i < |said|
      ensures AnthropicRequest.SentUse(said[i].block) == UseId(said[i].block)
      ensures AnthropicRequest.SentResult(said[i].block) == ResultId(said[i].block)
    {
      WellPlacedSends(said[i].block);
    }
  }

  /** What Anthropic is sent asks and answers the calls the fold did, so it matches exactly when the fold does,
      while every block the fold keeps without a `type` is text, a call or a result, and not two of them. */
  lemma {:induction false} AnthropicPairsExactly(codec: Codec, surface: seq<Entry>)
    requires AnthropicRequest.ToAnthropic(codec, Fold(surface)).Some?
    requires forall i :: 0 <= i < |Spoken(Fold(surface))| ==> AnthropicRequest.WellPlaced(Spoken(Fold(surface))[i].block)
    ensures var sent := Spoken(AnthropicRequest.ToAnthropic(codec, Fold(surface)).value);
      && UseIds(sent) == Paired(Flat(surface)) && ResultIds(sent) == ResultIds(Spoken(Fold(surface)))
      && (ResultIds(sent) == UseIds(sent) <==> HybridsHarmless(Flat(surface)))
  {
    AnthropicSentIds(codec, surface);
    AllWellPlacedSends(Spoken(Fold(surface)));
    FoldPairsExactly(surface);
  }

  /** Text that carries a call beside it is sent as text alone: the answer to the call goes out orphaned. */
  lemma {:induction false} TextLosesItsCall(codec: Codec, asked: Entry, answered: Entry)
    requires asked.actor == Claude && asked.blocks == Some([TextWithCall()])
    requires answered.actor == User && answered.blocks == Some([ToolResultBlock("a", "", false)])
    ensures AnthropicRequest.ToAnthropic(codec, Fold([asked, answered])).Some?
    ensures var sent := Spoken(AnthropicRequest.ToAnthropic(codec, Fold([asked, answered])).value);
      "a" in ResultIds(sent) && "a" !in UseIds(sent)
  {
    CallAndAnswerKept(asked, answered);
    LosesCall(codec, [asked, answered]);
  }

  lemma {:induction false} LosesCall(codec: Codec, surface: seq<Entry>)
    requires |Spoken(Fold(surface))| == 2
    requires Spoken(Fold(surface))[0].block == TextWithCall() && Spoken(Fold(surface))[1].block == ToolResultBlock("a", "", false)
    ensures AnthropicRequest.ToAnthropic(codec, Fold(surface)).Some?
    ensures var sent := Spoken(AnthropicRequest.ToAnthropic(codec, Fold(surface)).value);
      "a" in ResultIds(sent) && "a" !in UseIds(sent)
  {
    CallAndAnswerRead(codec, Spoken(Fold(surface)));
    ReadsThrough(AnthropicRequest.Translator(codec), Fold(surface));
    AnthropicSentIds(codec, surface);
    OneSideSent(Spoken(Fold(surface)), "a");
  }

  lemma {:induction false} CallAndAnswerRead(codec: Codec, said: seq<Said>)
    requires |said| == 2 && said[0].block == TextWithCall() && said[1].block == ToolResultBlock("a", "", false)
    ensures AllRead(AnthropicRequest.Translator(codec), said)
  {
    assert !AnthropicRequest.TranslateBlock(codec, said[0].block).Threw?;
    assert !AnthropicRequest.TranslateBlock(codec, said[1].block).Threw?;
  }

  lemma {:induction false} CallAndAnswerKept(asked: Entry, answered: Entry)
    requires asked.actor == Claude && asked.blocks == Some([TextWithCall()])
    requires answered.actor == User && answered.blocks == Some([ToolResultBlock("a", "", false)])
    ensures var said := Spoken(Fold([asked, answered]));
      |said| == 2 && said[0].block == TextWithCall() && said[1].block == ToolResultBlock("a", "", false)
  {
    var use, result := TextWithCall(), ToolResultBlock("a", "", false);
    assert UseId(use) == Some("a") && ResultId(use) == None;
    CanonicalIds("a", "", Null, "", false);
    TwoSaid(asked, answered, use, result);
    FoldSays([asked, answered]);
    BothKept(Flat([asked, answered]), "a");
  }

  lemma {:induction false} BothKept(said: seq<Said>, id: string)
    requires |said| == 2 && UseId(said[0].block) == Some(id) && ResultId(said[1].block) == Some(id)
    requires ResultId(said[0].block) == None && UseId(said[1].block) == None
    ensures Keep(said, Paired(said)) == said
  {
    assert id in Paired(said);
    assert said[..1] == [said[0]] && [said[0]][..0] == [];
    assert Keep([], Paired(said)) == [];
    assert Keep([said[0]], Paired(said)) == [said[0]];
  }

  lemma {:induction false} OneSideSent(said: seq<Said>, id: string)
    requires |said| == 2 && said[0].block == TextWithCall() && said[1].block == ToolResultBlock(id, "", false)
    ensures id in IdsBy(AnthropicRequest.SentResult, said) && id !in IdsBy(AnthropicRequest.SentUse, said)
  {
    assert AnthropicRequest.SentUse(said[0].block) == None && AnthropicRequest.SentUse(said[1].block) == None;
    assert AnthropicRequest.SentResult(said[1].block) == Some(id);
  }

  function TextWithCall(): Value {
    Obj(map["text" := Str("t"), "toolUse" := Obj(map["toolUseId" := Str("a")])])
  }

  lemma {:induction false} TwoSaid(a: Entry, b: Entry, x: Value, y: Value)
    requires a.actor == Claude && a.blocks == Some([x]) && b.actor == User && b.blocks == Some([y])
    ensures Flat([a, b]) == [Said(AssistantRole, x), Said(UserRole, y)]
  {
    assert [a, b][..1] == [a] && [a][..0] == [];
    assert Flat([]) == [];
    assert Flat([a]) == SaidBy(AssistantRole, [x]);
  }

  // --- Converse ---------------------------------------------------------------------------------

  ghost predicate NoneMixed(said: seq<Said>) {
    forall i :: 0 <= i < |said| ==> !ConverseRequest.Mixed(said[i].block)
  }

  /** The blocks the harness itself makes, of a Converse stream, of a tool's answer and of a prompt, are neither
      mixed nor hybrid. */
  lemma {:induction false} OwnBlocksArePlain(codec: Codec, b: ConverseStream.OpenBlock, id: string, text: string, isError: bool)
    ensures !ConverseRequest.Mixed(ConverseStream.Verbatim(codec, b)) && !Hybrid(ConverseStream.Verbatim(codec, b))
    ensures !ConverseRequest.Mixed(ToolResultBlock(id, text, isError)) && !Hybrid(ToolResultBlock(id, text, isError))
    ensures !ConverseRequest.Mixed(TextBlock(text)) && !Hybrid(TextBlock(text))
  {
    VerbatimIsPlain(codec, b);
    PlainIsNotHybrid(ConverseStream.Verbatim(codec, b));
    PlainIsNotHybrid(ToolResultBlock(id, text, isError));
    PlainIsNotHybrid(TextBlock(text));
  }

  lemma {:induction false} VerbatimIsPlain(codec: Codec, b: ConverseStream.OpenBlock)
    ensures !ConverseRequest.Mixed(ConverseStream.Verbatim(codec, b))
  {
    assert InnerUse(ConverseStream.Verbatim(codec, b)) == None && InnerResult(ConverseStream.Verbatim(codec, b)) == None;
  }

  lemma {:induction false} PlainIsNotHybrid(b: Value)
    requires !ConverseRequest.Mixed(b)
    ensures !Hybrid(b)
  {
  }

  /** A call that goes out under a made-up id. */
  predicate MadeUp(said: seq<Said>, id: string) {
    exists x :: x in said && HasType(x.block, "tool_use") && ConverseRequest.Anonymous(x.block)
      && ConverseRequest.SentUse(x.block) == Some(id)
  }

  /** A canonical result goes out under this id: its own, when the call it answers was made, or a made-up one. */
  predicate Answers(said: seq<Said>, id: string) {
    exists x :: x in said && ConverseRequest.SentResult(x.block) == Some(id)
      && (ConverseRequest.Anonymous(x.block) || id in Paired(said))
  }

  lemma {:induction false} PlainIds(b: Value)
    requires !ConverseRequest.Mixed(b)
    ensures UseId(b).Some? ==> ConverseRequest.SentUse(b) == UseId(b) && ResultId(b).None?
    ensures ConverseRequest.SentUse(b).Some? && UseId(b).None? ==> HasType(b, "tool_use") && ConverseRequest.Anonymous(b)
    ensures ConverseRequest.SentResult(b).Some? && !ConverseRequest.Anonymous(b) ==> ConverseRequest.SentResult(b) == ResultId(b)
    ensures ConverseRequest.SentResult(b).Some? ==> UseId(b).None?
    ensures ConverseRequest.Anonymous(b) ==> UseId(b).None? && ResultId(b).None?
  {
  }

  lemma {:induction false} UsesSent(said: seq<Said>, kept: seq<Said>, id: string)
    requires NoneMixed(said) && kept == Keep(said, Paired(said))
    ensures id in IdsBy(ConverseRequest.SentUse, kept) <==> id in Paired(said) || MadeUp(said, id)
  {
    if id in IdsBy(ConverseRequest.SentUse, kept) {
      var i :| 0 <= i < |kept| && ConverseRequest.SentUse(kept[i].block) == Some(id);
      assert kept[i] in kept;
      var k :| 0 <= k < |said| && said[k] == kept[i];
      PlainIds(said[k].block);
    }
    if id in Paired(said) {
      var k :| 0 <= k < |said| && UseId(said[k].block) == Some(id);
      PlainIds(said[k].block);
      assert said[k] in said && said[k] in kept;
    }
    if MadeUp(said, id) {
      var x :| x in said && HasType(x.block, "tool_use") && ConverseRequest.Anonymous(x.block)
        && ConverseRequest.SentUse(x.block) == Some(id);
      var k :| 0 <= k < |said| && said[k] == x;
      PlainIds(said[k].block);
      assert x in kept;
    }
  }

  lemma {:induction false} ResultsSent(said: seq<Said>, kept: seq<Said>, id: string)
    requires NoneMixed(said) && kept == Keep(said, Paired(said))
    ensures id in IdsBy(ConverseRequest.SentResult, kept) <==> Answers(said, id)
  {
    if id in IdsBy(ConverseRequest.SentResult, kept) {
      var i :| 0 <= i < |kept| && ConverseRequest.SentResult(kept[i].block) == Some(id);
      assert kept[i] in kept;
      var k :| 0 <= k < |said| && said[k] == kept[i];
      PlainIds(said[k].block);
    }
    if Answers(said, id) {
      var x :| x in said && ConverseRequest.SentResult(x.block) == Some(id)
        && (ConverseRequest.Anonymous(x.block) || id in Paired(said));
      var k :| 0 <= k < |said| && said[k] == x;
      PlainIds(said[k].block);
      assert x in kept;
    }
  }

  /** Calls: those made and answered, and those without an id. Results: the canonical ones. */
  ghost predicate SendsOnConverse(said: seq<Said>, uses: set<string>, results: set<string>) {
    && (forall id :: id in uses <==> id in Paired(said) || MadeUp(said, id))
    && (forall id :: id in results <==> Answers(said, id))
  }

  /** On any surface, the ids sent are those each kept block is sent with. */
  lemma {:induction false} ConverseSentIds(codec: Codec, surface: seq<Entry>)
    requires ConverseRequest.ToConverse(codec, Fold(surface)).Some?
    ensures var said, sent := Spoken(Fold(surface)), Spoken(ConverseRequest.ToConverse(codec, Fold(surface)).value);
      UseIds(sent) == IdsBy(ConverseRequest.SentUse, said) && ResultIds(sent) == IdsBy(ConverseRequest.SentResult, said)
  {
    var t, said := ConverseRequest.Translator(codec), Spoken(Fold(surface));
    ReadsThrough(t, Fold(surface));
    CarrySays(t, Fold(surface));
    forall i | 0 <= i < |said|
      ensures SendsAs(t, said[i].block, ConverseRequest.SentUse(said[i].block), ConverseRequest.SentResult(said[i].block))
    {
      ConverseRequest.BlockSends(codec, said[i].block);
    }
    SentIds(t, said, ConverseRequest.SentUse, ConverseRequest.SentResult);
  }

  /** A call goes out under this id: on a block the fold keeps, whatever else it says. */
  predicate Calls(said: seq<Said>, id: string) {
    exists x :: x in said && Keeps(x.block, Paired(said)) && ConverseRequest.SentUse(x.block) == Some(id)
  }

  /** A canonical result does. */
  predicate Replies(said: seq<Said>, id: string) {
    exists x :: x in said && Keeps(x.block, Paired(said)) && ConverseRequest.SentResult(x.block) == Some(id)
  }

  lemma {:induction false} KeptIds(said: seq<Said>, read: Value -> Option<string>, id: string)
    ensures id in IdsBy(read, Keep(said, Paired(said)))
      <==> exists x :: x in said && Keeps(x.block, Paired(said)) && read(x.block) == Some(id)
  {
    var kept := Keep(said, Paired(said));
    if id in IdsBy(read, kept) {
      var i :| 0 <= i < |kept| && read(kept[i].block) == Some(id);
      assert kept[i] in kept;
    }
    if exists x :: x in said && Keeps(x.block, Paired(said)) && read(x.block) == Some(id) {
      var x :| x in said && Keeps(x.block, Paired(said)) && read(x.block) == Some(id);
      assert x in kept;
    }
  }

  /** Whatever is on the surface, what Converse is sent carries equal sets of call and result ids exactly when under
      each id a kept block makes a call if and only if a kept canonical result replies. */
  lemma {:induction false} ConversePairsExactly(codec: Codec, surface: seq<Entry>)
    requires ConverseRequest.ToConverse(codec, Fold(surface)).Some?
    ensures var sent := Spoken(ConverseRequest.ToConverse(codec, Fold(surface)).value);
      ResultIds(sent) == UseIds(sent) <==> forall id :: Calls(Flat(surface), id) <==> Replies(Flat(surface), id)
  {
    FoldSays(surface);
    ConverseSentIds(codec, surface);
    SameIdsExactly(Flat(surface));
  }

  lemma {:induction false} SameIdsExactly(said: seq<Said>)
    ensures var kept := Keep(said, Paired(said));
      IdsBy(ConverseRequest.SentResult, kept) == IdsBy(ConverseRequest.SentUse, kept)
      <==> forall id :: Calls(said, id) <==> Replies(said, id)
  {
    var uses, results := IdsBy(ConverseRequest.SentUse, Keep(said, Paired(said))), IdsBy(ConverseRequest.SentResult, Keep(said, Paired(said)));
    forall id ensures (id in uses <==> Calls(said, id)) && (id in results <==> Replies(said, id)) {
      KeptIds(said, ConverseRequest.SentUse, id);
      KeptIds(said, ConverseRequest.SentResult, id);
    }
    SameSets(uses, results, said);
  }

  lemma {:induction false} SameSets(uses: set<string>, results: set<string>, said: seq<Said>)
    requires forall id :: (id in uses <==> Calls(said, id)) && (id in results <==> Replies(said, id))
    ensures results == uses <==> forall id :: Calls(said, id) <==> Replies(said, id)
  {
    if results == uses {
      forall id ensures Calls(said, id) <==> Replies(said, id) {
        assert id in uses <==> id in results;
      }
    }
  }

  lemma {:induction false} ConverseSends(codec: Codec, surface: seq<Entry>)
    requires NoneMixed(Flat(surface)) && ConverseRequest.ToConverse(codec, Fold(surface)).Some?
    ensures var said, sent := Flat(surface), Spoken(ConverseRequest.ToConverse(codec, Fold(surface)).value);
      SendsOnConverse(said, UseIds(sent), ResultIds(sent))
  {
    FoldSays(surface);
    ConverseSentIds(codec, surface);
    KeptSends(Flat(surface), Spoken(Fold(surface)));
  }

  lemma {:induction false} KeptSends(said: seq<Said>, kept: seq<Said>)
    requires NoneMixed(said) && kept == Keep(said, Paired(said))
    ensures SendsOnConverse(said, IdsBy(ConverseRequest.SentUse, kept), IdsBy(ConverseRequest.SentResult, kept))
  {
    forall id ensures id in IdsBy(ConverseRequest.SentUse, kept) <==> id in Paired(said) || MadeUp(said, id) {
      UsesSent(said, kept, id);
    }
    forall id ensures id in IdsBy(ConverseRequest.SentResult, kept) <==> Answers(said, id) {
      ResultsSent(said, kept, id);
    }
  }

  /** Each call made and answered has a canonical answer, each call without an id is answered under the one made up
      for it, and each result without an id answers some call. */
  predicate MatchesOnConverse(said: seq<Said>) {
    && (forall id :: id in Paired(said) ==> Answers(said, id))
    && (forall x :: x in said && HasType(x.block, "tool_use") && ConverseRequest.Anonymous(x.block) ==>
          ConverseRequest.SentUse(x.block).Some? && Answers(said, ConverseRequest.SentUse(x.block).value))
    && (forall x :: x in said && HasType(x.block, "tool_result") && ConverseRequest.Anonymous(x.block) ==>
          ConverseRequest.SentResult(x.block).Some?
          && (ConverseRequest.SentResult(x.block).value in Paired(said) || MadeUp(said, ConverseRequest.SentResult(x.block).value)))
  }

  lemma {:induction false} AnonymousIsRead(codec: Codec, surface: seq<Entry>, x: Said)
    requires NoneMixed(Flat(surface)) && ConverseRequest.ToConverse(codec, Fold(surface)).Some?
    requires x in Flat(surface) && ConverseRequest.Anonymous(x.block)
    ensures Read(x.block)
  {
    var kept := Spoken(Fold(surface));
    var k :| 0 <= k < |Flat(surface)| && Flat(surface)[k] == x;
    PlainIds(Flat(surface)[k].block);
    FoldSays(surface);
    assert x in kept;
    var i :| 0 <= i < |kept| && kept[i] == x;
    ReadsThrough(ConverseRequest.Translator(codec), Fold(surface));
    assert !ConverseRequest.TranslateBlock(codec, kept[i].block).Threw?;
  }

  /** Where every block speaks one vocabulary the calls and results Converse is sent match exactly then; and where
      every canonical block has a string id, exactly when each call made and answered has a canonical answer. */
  lemma {:induction false} PlainPairsExactly(codec: Codec, surface: seq<Entry>)
    requires NoneMixed(Flat(surface)) && ConverseRequest.ToConverse(codec, Fold(surface)).Some?
    ensures var said, sent := Flat(surface), Spoken(ConverseRequest.ToConverse(codec, Fold(surface)).value);
      && (ResultIds(sent) == UseIds(sent) <==> MatchesOnConverse(said))
      && ((forall x :: x in said ==> !ConverseRequest.Anonymous(x.block)) ==>
            (ResultIds(sent) == UseIds(sent) <==> forall id :: id in Paired(said) ==> AnsweredCanonically(said, id)))
  {
    var said, sent := Flat(surface), Spoken(ConverseRequest.ToConverse(codec, Fold(surface)).value);
    ConverseSends(codec, surface);
    AnonymousAreRead(codec, surface);
    MatchExactly(said, UseIds(sent), ResultIds(sent));
    if forall x :: x in said ==> !ConverseRequest.Anonymous(x.block) {
      CanonicalAnswers(said);
    }
  }

  predicate Read(b: Value) {
    && (HasType(b, "tool_use") ==> ConverseRequest.SentUse(b).Some?)
    && (HasType(b, "tool_result") ==> ConverseRequest.SentResult(b).Some?)
  }

  ghost predicate AnonymousRead(said: seq<Said>) {
    forall x :: x in said && ConverseRequest.Anonymous(x.block) ==> Read(x.block)
  }

  lemma {:induction false} AnonymousAreRead(codec: Codec, surface: seq<Entry>)
    requires NoneMixed(Flat(surface)) && ConverseRequest.ToConverse(codec, Fold(surface)).Some?
    ensures AnonymousRead(Flat(surface))
  {
    forall x | x in Flat(surface) && ConverseRequest.Anonymous(x.block) ensures Read(x.block) {
      AnonymousIsRead(codec, surface, x);
    }
  }

  lemma {:induction false} MatchExactly(said: seq<Said>, uses: set<string>, results: set<string>)
    requires AnonymousRead(said) && SendsOnConverse(said, uses, results)
    ensures results == uses <==> MatchesOnConverse(said)
  {
    if MatchesOnConverse(said) {
      MatchSuffices(said, uses, results);
    }
    if results == uses {
      MatchNeeded(said, uses);
    }
  }

  lemma {:induction false} MatchNeeded(said: seq<Said>, ids: set<string>)
    requires AnonymousRead(said) && SendsOnConverse(said, ids, ids)
    ensures MatchesOnConverse(said)
  {
  }

  lemma {:induction false} MatchSuffices(said: seq<Said>, uses: set<string>, results: set<string>)
    requires MatchesOnConverse(said)
    requires SendsOnConverse(said, uses, results)
    ensures uses == results
  {
    forall id | id in results ensures id in uses {
      var x :| x in said && ConverseRequest.SentResult(x.block) == Some(id)
        && (ConverseRequest.Anonymous(x.block) || id in Paired(said));
    }
  }

  predicate AnsweredCanonically(said: seq<Said>, id: string) {
    exists x :: x in said && HasType(x.block, "tool_result") && TextField(x.block, "tool_use_id") == Some(id)
  }

  lemma {:induction false} CanonicalAnswers(said: seq<Said>)
    requires forall x :: x in said ==> !ConverseRequest.Anonymous(x.block)
    ensures MatchesOnConverse(said) <==> forall id :: id in Paired(said) ==> AnsweredCanonically(said, id)
  {
    forall id | id in Paired(said) ensures Answers(said, id) <==> AnsweredCanonically(said, id) {
      if Answers(said, id) {
        var x :| x in said && ConverseRequest.SentResult(x.block) == Some(id);
      }
      if AnsweredCanonically(said, id) {
        var x :| x in said && HasType(x.block, "tool_result") && TextField(x.block, "tool_use_id") == Some(id);
        assert ConverseRequest.SentResult(x.block) == Some(id);
      }
    }
  }

  /** A session without a canonical result, all its results in Converse's own shape, goes out with none: where every
      block speaks one vocabulary, with every call unanswered. */
  lemma {:induction false} OwnShapeGoesUnanswered(codec: Codec, surface: seq<Entry>)
    requires ConverseRequest.ToConverse(codec, Fold(surface)).Some?
    requires forall x :: x in Flat(surface) ==> !HasType(x.block, "tool_result")
    ensures var sent := Spoken(ConverseRequest.ToConverse(codec, Fold(surface)).value);
      ResultIds(sent) == {} && (NoneMixed(Flat(surface)) ==> Paired(Flat(surface)) <= UseIds(sent))
  {
    FoldSays(surface);
    ConverseSentIds(codec, surface);
    NoneReplies(Flat(surface));
    if NoneMixed(Flat(surface)) {
      ConverseSends(codec, surface);
      NothingAnswers(Flat(surface), UseIds(Spoken(ConverseRequest.ToConverse(codec, Fold(surface)).value)),
                     ResultIds(Spoken(ConverseRequest.ToConverse(codec, Fold(surface)).value)));
    }
  }

  lemma {:induction false} NoneReplies(said: seq<Said>)
    requires forall x :: x in said ==> !HasType(x.block, "tool_result")
    ensures IdsBy(ConverseRequest.SentResult, Keep(said, Paired(said))) == {}
  {
    forall id ensures id !in IdsBy(ConverseRequest.SentResult, Keep(said, Paired(said))) {
      KeptIds(said, ConverseRequest.SentResult, id);
    }
  }

  lemma {:induction false} NothingAnswers(said: seq<Said>, uses: set<string>, results: set<string>)
    requires SendsOnConverse(said, uses, results) && forall x :: x in said ==> !HasType(x.block, "tool_result")
    ensures results == {} && Paired(said) <= uses
  {
    forall id ensures !Answers(said, id) {
    }
  }

  /** One vocabulary is needed: of text with a call beside it only the text goes out, and the call's canonical answer
      with it. */
  lemma {:induction false} MixedPairsOtherwise(codec: Codec, asked: Entry, answered: Entry)
    requires asked.actor == Claude && asked.blocks == Some([TextWithCall()])
    requires answered.actor == User && answered.blocks == Some([ToolResultBlock("a", "", false)])
    ensures ConverseRequest.ToConverse(codec, Fold([asked, answered])).Some?
    ensures var said := Flat([asked, answered]);
      && AnsweredCanonically(said, "a") && Paired(said) == {"a"}
      && !Calls(said, "a") && Replies(said, "a")
    ensures var sent := Spoken(ConverseRequest.ToConverse(codec, Fold([asked, answered])).value);
      ResultIds(sent) != UseIds(sent)
  {
    TwoSaid(asked, answered, TextWithCall(), ToolResultBlock("a", "", false));
    TextCallsNothing(Flat([asked, answered]));
    CallAndAnswerKept(asked, answered);
    BothReadOnConverse(codec, Spoken(Fold([asked, answered])));
    ReadsThrough(ConverseRequest.Translator(codec), Fold([asked, answered]));
    ConversePairsExactly(codec, [asked, answered]);
  }

  lemma {:induction false} BothReadOnConverse(codec: Codec, said: seq<Said>)
    requires |said| == 2 && said[0].block == TextWithCall() && said[1].block == ToolResultBlock("a", "", false)
    ensures AllRead(ConverseRequest.Translator(codec), said)
  {
    assert !ConverseRequest.TranslateBlock(codec, said[0].block).Threw?;
    assert said[1].block.fields["content"].items[..0] == [];
    assert !ConverseRequest.TranslateBlock(codec, said[1].block).Threw?;
  }

  lemma {:induction false} TextCallsNothing(said: seq<Said>)
    requires said == [Said(AssistantRole, TextWithCall()), Said(UserRole, ToolResultBlock("a", "", false))]
    ensures AnsweredCanonically(said, "a") && Paired(said) == {"a"} && !Calls(said, "a") && Replies(said, "a")
  {
    TextAndResultIds();
    HalfSent(said, "a");
  }

  lemma {:induction false} TextAndResultIds()
    ensures var use, result := TextWithCall(), ToolResultBlock("a", "", false);
      && UseId(use) == Some("a") && ResultId(use) == None && UseId(result) == None && ResultId(result) == Some("a")
      && ConverseRequest.SentUse(use) == None && ConverseRequest.SentUse(result) == None
      && ConverseRequest.SentResult(result) == Some("a")
      && HasType(result, "tool_result") && TextField(result, "tool_use_id") == Some("a")
  {
  }

  lemma {:induction false} HalfSent(said: seq<Said>, id: string)
    requires |said| == 2 && UseId(said[0].block) == Some(id) && ResultId(said[0].block) == None
    requires UseId(said[1].block) == None && ResultId(said[1].block) == Some(id)
    requires ConverseRequest.SentUse(said[0].block) == None && ConverseRequest.SentUse(said[1].block) == None
    requires ConverseRequest.SentResult(said[1].block) == Some(id)
    requires HasType(said[1].block, "tool_result") && TextField(said[1].block, "tool_use_id") == Some(id)
    ensures AnsweredCanonically(said, id) && Paired(said) == {id} && !Calls(said, id) && Replies(said, id)
  {
    assert said[1] in said;
    assert id in Paired(said);
  }

  /** A call the stream gave no id to, recorded as the mapper records it, goes out as a call that nothing answers. */
  lemma {:induction false} NamelessGoesUnanswered(codec: Codec, e: Entry, open: ConverseStream.OpenBlock)
    requires open.kind.ToolUseKind? && open.toolUseId == None
    requires e.actor == Claude && e.blocks == Some([ConverseStream.Verbatim(codec, open)])
    ensures ConverseRequest.ToConverse(codec, Fold([e])).Some?
    ensures var sent := Spoken(ConverseRequest.ToConverse(codec, Fold([e])).value);
      "" in UseIds(sent) && ResultIds(sent) == {}
  {
    var b := ConverseStream.Verbatim(codec, open);
    NamelessBlock(codec, open);
    FoldsToOne(e, b);
    OneReads(codec, Fold([e]), b);
    NamelessMakesUp(Flat([e]), b);
    NamelessSent(codec, [e]);
  }

  lemma {:induction false} NamelessSent(codec: Codec, surface: seq<Entry>)
    requires ConverseRequest.ToConverse(codec, Fold(surface)).Some? && NoneMixed(Flat(surface)) && MadeUp(Flat(surface), "")
    requires forall x :: x in Flat(surface) ==> !HasType(x.block, "tool_result")
    ensures var sent := Spoken(ConverseRequest.ToConverse(codec, Fold(surface)).value);
      "" in UseIds(sent) && ResultIds(sent) == {}
  {
    var sent := Spoken(ConverseRequest.ToConverse(codec, Fold(surface)).value);
    ConverseSends(codec, surface);
    NothingAnswers(Flat(surface), UseIds(sent), ResultIds(sent));
  }

  lemma {:induction false} NamelessMakesUp(said: seq<Said>, b: Value)
    requires said == [Said(AssistantRole, b)] && !ConverseRequest.Mixed(b)
    requires HasType(b, "tool_use") && ConverseRequest.Anonymous(b) && ConverseRequest.SentUse(b) == Some("")
    ensures NoneMixed(said) && MadeUp(said, "") && forall x :: x in said ==> !HasType(x.block, "tool_result")
  {
    assert said[0] in said;
  }

  lemma {:induction false} FoldsToOne(e: Entry, b: Value)
    requires e.actor == Claude && e.blocks == Some([b]) && UseId(b) == None && ResultId(b) == None
    ensures Flat([e]) == [Said(AssistantRole, b)] && Fold([e]) == [Message(AssistantRole, [b])]
  {
    FlatOne(e);
    var said := SaidBy(AssistantRole, [b]);
    assert said[..0] == [] && Keep([], Paired(said)) == [];
    assert Keep(said, Paired(said)) == [] + said;
    GroupRun([], AssistantRole, [b]);
  }

  lemma {:induction false} OneReads(codec: Codec, messages: seq<Message>, b: Value)
    requires messages == [Message(AssistantRole, [b])] && !ConverseRequest.TranslateBlock(codec, b).Threw?
    ensures ConverseRequest.ToConverse(codec, messages).Some?
  {
    ReadsThrough(ConverseRequest.Translator(codec), messages);
    assert messages[..0] == [];
    assert Spoken(messages) == SaidBy(AssistantRole, [b]);
  }

  lemma {:induction false} NamelessBlock(codec: Codec, open: ConverseStream.OpenBlock)
    requires open.kind.ToolUseKind? && open.toolUseId == None
    ensures var b := ConverseStream.Verbatim(codec, open);
      && ConverseRequest.TranslateBlock(codec, b).Kept? && UseId(b) == None && ResultId(b) == None
      && !ConverseRequest.Mixed(b) && HasType(b, "tool_use") && ConverseRequest.Anonymous(b) && ConverseRequest.SentUse(b) == Some("")
  {
  }
}
