/** Carrying folded messages into a provider's own vocabulary, block by block. */
module Translation {
  import opened Json
  import opened Contract
  import opened Surface

  /** What becomes of one block; reading it may throw, which ends the whole translation. */
  datatype Translated = Dropped | Kept(block: Value) | Threw

  function CarryBlocks(t: Value -> Translated, content: seq<Value>): Option<seq<Value>>
    decreases |content|
  {
    if content == [] then Some([])
    else
      var before := CarryBlocks(t, content[..|content| - 1]);
      if before.None? then None
      else match t(content[|content| - 1])
        case Threw => None
        case Dropped => before
        case Kept(b) => Some(before.value + [b])
  }

  /** A message left with no block is left out. */
  function Carry(t: Value -> Translated, messages: seq<Message>): Option<seq<Message>>
    decreases |messages|
  {
    if messages == [] then Some([])
    else
      var before := Carry(t, messages[..|messages| - 1]);
      var m := messages[|messages| - 1];
      var content := CarryBlocks(t, m.content);
      if before.None? || content.None? then None
      else if content.value == [] then before
      else Some(before.value + [Message(m.role, content.value)])
  }

  method CarryMessages(t: Value -> Translated, messages: seq<Message>) returns (out: Option<seq<Message>>)
    ensures out == Carry(t, messages)
  {
    var done: seq<Message> := [];
    for i := 0 to |messages|
      invariant Carry(t, messages[..i]) == Some(done)
    {
      assert messages[..i + 1][..i] == messages[..i];
      var content: seq<Value> := [];
      var blocks := messages[i].content;
      for j := 0 to |blocks|
        invariant CarryBlocks(t, blocks[..j]) == Some(content)
      {
        assert blocks[..j + 1][..j] == blocks[..j];
        match t(blocks[j]) {
          case Threw =>
            ThrowsOn(t, blocks, j + 1);
            ThrowsThrough(t, messages, i + 1);
            return None;
          case Dropped =>
          case Kept(b) => content := content + [b];
        }
      }
      assert blocks[..|blocks|] == blocks;
      if content != [] { done := done + [Message(messages[i].role, content)]; }
    }
    assert messages[..|messages|] == messages;
    out := Some(done);
  }

  lemma {:induction false} ThrowsOn(t: Value -> Translated, content: seq<Value>, j: nat)
    requires j <= |content| && CarryBlocks(t, content[..j]) == None
    ensures CarryBlocks(t, content) == None
    decreases |content| - j
  {
    if j == |content| {
      assert content[..j] == content;
    } else {
      assert content[..j + 1][..j] == content[..j];
      ThrowsOn(t, content, j + 1);
    }
  }

  lemma {:induction false} ThrowsThrough(t: Value -> Translated, messages: seq<Message>, i: nat)
    requires 0 < i <= |messages|
    requires CarryBlocks(t, messages[i - 1].content) == None || Carry(t, messages[..i]) == None
    ensures Carry(t, messages) == None
    decreases |messages| - i
  {
    assert messages[..i][..i - 1] == messages[..i - 1];
    if i == |messages| {
      assert messages[..i] == messages;
    } else {
      assert messages[..i + 1][..i] == messages[..i];
      ThrowsThrough(t, messages, i + 1);
    }
  }

  // --- What the carried messages say -----------------------------------------------------------

  function CarrySaid(t: Value -> Translated, said: seq<Said>): seq<Said>
    decreases |said|
  {
    if said == [] then []
    else
      var before := CarrySaid(t, said[..|said| - 1]);
      var x := said[|said| - 1];
      match t(x.block)
      case Kept(b) => before + [Said(x.role, b)]
      case _ => before
  }

  lemma {:induction false} CarrySaidConcat(t: Value -> Translated, a: seq<Said>, b: seq<Said>)
    ensures CarrySaid(t, a + b) == CarrySaid(t, a) + CarrySaid(t, b)
    decreases |b|
  {
    if b == [] {
      assert a + b == a;
    } else {
      assert (a + b)[..|a + b| - 1] == a + b[..|b| - 1];
      CarrySaidConcat(t, a, b[..|b| - 1]);
    }
  }

  lemma {:induction false} BlocksSay(t: Value -> Translated, role: Role, content: seq<Value>)
    requires CarryBlocks(t, content).Some?
    ensures SaidBy(role, CarryBlocks(t, content).value) == CarrySaid(t, SaidBy(role, content))
    decreases |content|
  {
    if content != [] {
      var said := SaidBy(role, content);
      assert said[..|said| - 1] == SaidBy(role, content[..|content| - 1]);
      BlocksSay(t, role, content[..|content| - 1]);
    }
  }

  /** Nothing is added, reordered, or moved to another role. */
  lemma {:induction false} CarrySays(t: Value -> Translated, messages: seq<Message>)
    requires Carry(t, messages).Some?
    ensures Spoken(Carry(t, messages).value) == CarrySaid(t, Spoken(messages))
    decreases |messages|
  {
    if messages != [] {
      var init, m := messages[..|messages| - 1], messages[|messages| - 1];
      CarrySays(t, init);
      BlocksSay(t, m.role, m.content);
      CarrySaidConcat(t, Spoken(init), SaidBy(m.role, m.content));
      var content := CarryBlocks(t, m.content).value;
      if content != [] {
        var carried := Carry(t, init).value + [Message(m.role, content)];
        assert carried[..|carried| - 1] == Carry(t, init).value;
      }
    }
  }

  // --- Ids ------------------------------------------------------------------------------------------

  /** The ids on what a block becomes, when it is kept. */
  ghost predicate SendsAs(t: Value -> Translated, b: Value, use: Option<string>, result: Option<string>) {
    match t(b)
    case Kept(v) => UseId(v) == use && ResultId(v) == result
    case _ => use.None? && result.None?
  }

  /** What some reading of the blocks finds on what is said. */
  function IdsBy(read: Value -> Option<string>, said: seq<Said>): set<string> {
    set i | 0 <= i < |said| && read(said[i].block).Some? :: read(said[i].block).value
  }

  lemma {:induction false} IdsByNext(read: Value -> Option<string>, said: seq<Said>)
    requires said != []
    ensures var init, x := said[..|said| - 1], said[|said| - 1];
      IdsBy(read, said) == IdsBy(read, init) + (if read(x.block).Some? then {read(x.block).value} else {})
  {
  }

  /** What is said after translation has the ids each block is sent with. */
  lemma {:induction false} SentIds(t: Value -> Translated, said: seq<Said>, use: Value -> Option<string>, result: Value -> Option<string>)
    requires forall i :: 0 <= i < |said| ==> SendsAs(t, said[i].block, use(said[i].block), result(said[i].block))
    ensures UseIds(CarrySaid(t, said)) == IdsBy(use, said) && ResultIds(CarrySaid(t, said)) == IdsBy(result, said)
    decreases |said|
  {
    if said != [] {
      var init, x := said[..|said| - 1], said[|said| - 1];
      forall i | 0 <= i < |init| ensures SendsAs(t, init[i].block, use(init[i].block), result(init[i].block)) {
        assert init[i] == said[i];
      }
      SentIds(t, init, use, result);
      IdsByNext(use, said);
      IdsByNext(result, said);
      match t(x.block)
      case Kept(b) => AddedIds(CarrySaid(t, init), Said(x.role, b));
      case _ =>
    }
  }

  ghost predicate AllRead(t: Value -> Translated, said: seq<Said>) {
    forall i :: 0 <= i < |said| ==> !t(said[i].block).Threw?
  }

  lemma {:induction false} AllReadConcat(t: Value -> Translated, a: seq<Said>, b: seq<Said>)
    ensures AllRead(t, a + b) <==> AllRead(t, a) && AllRead(t, b)
  {
    assert forall i :: 0 <= i < |a| ==> (a + b)[i] == a[i];
    assert forall i :: 0 <= i < |b| ==> (a + b)[|a| + i] == b[i];
  }

  /** A translation gets through exactly when every block can be read. */
  lemma {:induction false} ReadsThrough(t: Value -> Translated, messages: seq<Message>)
    ensures Carry(t, messages).Some? <==> AllRead(t, Spoken(messages))
    decreases |messages|
  {
    if messages != [] {
      var init, m := messages[..|messages| - 1], messages[|messages| - 1];
      ReadsThrough(t, init);
      ReadsBlocks(t, m.role, m.content);
      AllReadConcat(t, Spoken(init), SaidBy(m.role, m.content));
    }
  }

  lemma {:induction false} ReadsBlocks(t: Value -> Translated, role: Role, content: seq<Value>)
    ensures CarryBlocks(t, content).Some? <==> AllRead(t, SaidBy(role, content))
    decreases |content|
  {
    if content != [] {
      var init, last := content[..|content| - 1], content[|content| - 1];
      ReadsBlocks(t, role, init);
      assert SaidBy(role, content) == SaidBy(role, init) + [Said(role, last)];
      AllReadConcat(t, SaidBy(role, init), [Said(role, last)]);
      assert AllRead(t, [Said(role, last)]) <==> !t([Said(role, last)][0].block).Threw?;
    }
  }
}
