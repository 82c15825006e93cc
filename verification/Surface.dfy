/** Folding the record's surface into the messages a provider is sent. */
module Surface {
  import opened Json
  import opened Contract
  import opened Record

  // --- Tool ids on a block -----------------------------------------------------------

  /** `b.toolUse.toolUseId`, when it is a string. */
  function InnerUse(b: Value): Option<string> {
    match Field(b, "toolUse") case Some(t) => TextField(t, "toolUseId") case None => None
  }

  function InnerResult(b: Value): Option<string> {
    match Field(b, "toolResult") case Some(t) => TextField(t, "toolUseId") case None => None
  }

  /** The id of a call's first half: canonical, or the older Converse shape. */
  function UseId(b: Value): Option<string> {
    if HasType(b, "tool_use") && TextField(b, "id").Some? then TextField(b, "id") else InnerUse(b)
  }

  function ResultId(b: Value): Option<string> {
    if HasType(b, "tool_result") && TextField(b, "tool_use_id").Some? then TextField(b, "tool_use_id") else InnerResult(b)
  }

  function BlockId(b: Value): Option<string> {
    if UseId(b).Some? then UseId(b) else ResultId(b)
  }

  lemma {:induction false} CanonicalIds(id: string, name: string, input: Value, text: string, isError: bool)
    ensures UseId(ToolUseBlock(id, name, input)) == Some(id) && ResultId(ToolUseBlock(id, name, input)) == None
    ensures ResultId(ToolResultBlock(id, text, isError)) == Some(id) && UseId(ToolResultBlock(id, text, isError)) == None
    ensures UseId(TextBlock(text)) == None && ResultId(TextBlock(text)) == None
  {
  }

  // --- The fold -----------------------------------------------------------------------

  /** One block with the role its entry speaks in. */
  datatype Said = Said(role: Role, block: Value)

  function RoleFor(e: Entry): Role {
    if e.actor == Claude then AssistantRole else UserRole
  }

  function BlocksOf(e: Entry): seq<Value> {
    if e.blocks.Some? then e.blocks.value else []
  }

  function SaidBy(role: Role, blocks: seq<Value>): (r: seq<Said>)
    ensures |r| == |blocks| && forall i :: 0 <= i < |r| ==> r[i] == Said(role, blocks[i])
  {
    seq(|blocks|, i requires 0 <= i < |blocks| => Said(role, blocks[i]))
  }

  /** Everything said on a surface, in order. */
  function Flat(surface: seq<Entry>): seq<Said>
    decreases |surface|
  {
    if surface == [] then []
    else Flat(surface[..|surface| - 1])
         + SaidBy(RoleFor(surface[|surface| - 1]), BlocksOf(surface[|surface| - 1]))
  }

  function UseIds(said: seq<Said>): set<string> {
    set i | 0 <= i < |said| && UseId(said[i].block).Some? :: UseId(said[i].block).value
  }

  function ResultIds(said: seq<Said>): set<string> {
    set i | 0 <= i < |said| && ResultId(said[i].block).Some? :: ResultId(said[i].block).value
  }

  /** Ids with both halves somewhere. */
  function Paired(said: seq<Said>): set<string> {
    UseIds(said) * ResultIds(said)
  }

  predicate Keeps(b: Value, paired: set<string>) {
    BlockId(b).Some? ==> BlockId(b).value in paired
  }

  function Keep(said: seq<Said>, paired: set<string>): (r: seq<Said>)
    ensures forall x :: x in r <==> x in said && Keeps(x.block, paired)
    decreases |said|
  {
    if said == [] then []
    else
      var rest := Keep(said[..|said| - 1], paired);
      var last := said[|said| - 1];
      if Keeps(last.block, paired) then rest + [last] else rest
  }

  function AddBlock(messages: seq<Message>, x: Said): seq<Message> {
    if messages != [] && messages[|messages| - 1].role == x.role
    then messages[|messages| - 1 := Message(x.role, messages[|messages| - 1].content + [x.block])]
    else messages + [Message(x.role, [x.block])]
  }

  /** Consecutive blocks of one role make one message. */
  function Group(said: seq<Said>): seq<Message>
    decreases |said|
  {
    if said == [] then [] else AddBlock(Group(said[..|said| - 1]), said[|said| - 1])
  }

  function Fold(surface: seq<Entry>): seq<Message> {
    Group(Keep(Flat(surface), Paired(Flat(surface))))
  }

  /** What a list of messages says. */
  function Spoken(messages: seq<Message>): seq<Said>
    decreases |messages|
  {
    if messages == [] then []
    else Spoken(messages[..|messages| - 1])
         + SaidBy(messages[|messages| - 1].role, messages[|messages| - 1].content)
  }

  ghost predicate Alternating(messages: seq<Message>) {
    forall i :: 0 <= i < |messages| - 1 ==> messages[i].role != messages[i + 1].role
  }

  ghost predicate NoneEmpty(messages: seq<Message>) {
    forall i :: 0 <= i < |messages| ==> messages[i].content != []
  }

  // --- The loops ------------------------------------------------------------------------

  lemma {:induction false} KeepConcat(a: seq<Said>, b: seq<Said>, paired: set<string>)
    ensures Keep(a + b, paired) == Keep(a, paired) + Keep(b, paired)
    decreases |b|
  {
    if b == [] {
      assert a + b == a;
    } else {
      assert (a + b)[..|a + b| - 1] == a + b[..|b| - 1];
      KeepConcat(a, b[..|b| - 1], paired);
    }
  }

  /** The blocks of one entry that survive. */
  function KeepBlocks(blocks: seq<Value>, paired: set<string>): seq<Value>
    decreases |blocks|
  {
    if blocks == [] then []
    else
      var rest := KeepBlocks(blocks[..|blocks| - 1], paired);
      if Keeps(blocks[|blocks| - 1], paired) then rest + [blocks[|blocks| - 1]] else rest
  }

  lemma {:induction false} KeepOneRole(role: Role, blocks: seq<Value>, paired: set<string>)
    ensures Keep(SaidBy(role, blocks), paired) == SaidBy(role, KeepBlocks(blocks, paired))
    decreases |blocks|
  {
    if blocks != [] {
      var said := SaidBy(role, blocks);
      assert said[..|said| - 1] == SaidBy(role, blocks[..|blocks| - 1]);
      KeepOneRole(role, blocks[..|blocks| - 1], paired);
    }
  }

  /** A run of blocks of one role joins the last message, or makes a new one. */
  lemma {:induction false} GroupRun(said: seq<Said>, role: Role, blocks: seq<Value>)
    requires blocks != []
    ensures Group(said + SaidBy(role, blocks)) == AddRun(Group(said), role, blocks)
    decreases |blocks|
  {
    var init, last := blocks[..|blocks| - 1], blocks[|blocks| - 1];
    var run := SaidBy(role, blocks);
    assert (said + run)[..|said + run| - 1] == said + SaidBy(role, init);
    if |blocks| == 1 {
      assert said + SaidBy(role, init) == said;
      assert blocks == [last];
    } else {
      GroupRun(said, role, init);
      assert blocks == init + [last];
      AddToRun(Group(said), role, init, last);
    }
  }

  /** `content` in the last message when it is of that role, in a new one otherwise. */
  function AddRun(messages: seq<Message>, role: Role, content: seq<Value>): seq<Message> {
    if messages != [] && messages[|messages| - 1].role == role
    then messages[|messages| - 1 := Message(role, messages[|messages| - 1].content + content)]
    else messages + [Message(role, content)]
  }

  lemma {:induction false} AddToRun(before: seq<Message>, role: Role, init: seq<Value>, last: Value)
    ensures AddBlock(AddRun(before, role, init), Said(role, last)) == AddRun(before, role, init + [last])
  {
    if before != [] && before[|before| - 1].role == role {
      var content := before[|before| - 1].content;
      assert (content + init) + [last] == content + (init + [last]);
    }
  }

  /** Both scans over every block of the surface. */
  method PairedToolIds(surface: seq<Entry>) returns (paired: set<string>)
    ensures paired == Paired(Flat(surface))
  {
    var uses: set<string>, results: set<string> := {}, {};
    for i := 0 to |surface|
      invariant uses == UseIds(Flat(surface[..i])) && results == ResultIds(Flat(surface[..i]))
    {
      ghost var before := Flat(surface[..i]);
      var blocks := BlocksOf(surface[i]);
      ghost var said := SaidBy(RoleFor(surface[i]), blocks);
      assert before + said[..0] == before;
      for j := 0 to |blocks|
        invariant uses == UseIds(before + said[..j]) && results == ResultIds(before + said[..j])
      {
        AddedIds(before + said[..j], said[j]);
        assert before + said[..j] + [said[j]] == before + said[..j + 1];
        if UseId(blocks[j]).Some? { uses := uses + {UseId(blocks[j]).value}; }
        if ResultId(blocks[j]).Some? { results := results + {ResultId(blocks[j]).value}; }
      }
      assert said[..|said|] == said;
      assert surface[..i + 1][..i] == surface[..i];
    }
    assert surface[..|surface|] == surface;
    paired := set id | id in uses && id in results;
  }

  lemma {:induction false} AddedIds(said: seq<Said>, x: Said)
    ensures UseIds(said + [x]) == UseIds(said) + (if UseId(x.block).Some? then {UseId(x.block).value} else {})
    ensures ResultIds(said + [x]) == ResultIds(said) + (if ResultId(x.block).Some? then {ResultId(x.block).value} else {})
  {
    var both := said + [x];
    assert both[|said|] == x;
    assert forall i :: 0 <= i < |said| ==> both[i] == said[i];
    assert UseId(x.block).Some? ==> UseId(both[|said|].block).value in UseIds(both);
    assert ResultId(x.block).Some? ==> ResultId(both[|said|].block).value in ResultIds(both);
    forall id | id in UseIds(said) ensures id in UseIds(both) {
      var i :| 0 <= i < |said| && UseId(said[i].block) == Some(id);
      assert both[i] == said[i];
    }
    forall id | id in ResultIds(said) ensures id in ResultIds(both) {
      var i :| 0 <= i < |said| && ResultId(said[i].block) == Some(id);
      assert both[i] == said[i];
    }
  }

  /** What one more entry does to the grouped messages. */
  lemma {:induction false} FoldNext(surface: seq<Entry>, i: nat, paired: set<string>)
    requires i < |surface|
    ensures var kept := KeepBlocks(BlocksOf(surface[i]), paired);
      Group(Keep(Flat(surface[..i + 1]), paired)) ==
        if kept == [] then Group(Keep(Flat(surface[..i]), paired))
        else AddRun(Group(Keep(Flat(surface[..i]), paired)), RoleFor(surface[i]), kept)
  {
    assert surface[..i + 1][..i] == surface[..i];
    var role, blocks := RoleFor(surface[i]), BlocksOf(surface[i]);
    KeepConcat(Flat(surface[..i]), SaidBy(role, blocks), paired);
    KeepOneRole(role, blocks, paired);
    var before, kept := Keep(Flat(surface[..i]), paired), KeepBlocks(blocks, paired);
    if kept == [] {
      assert before + SaidBy(role, kept) == before;
    } else {
      GroupRun(before, role, kept);
    }
  }

  method MergeIn(messages: seq<Message>, role: Role, kept: seq<Value>) returns (merged: seq<Message>)
    ensures merged == AddRun(messages, role, kept)
  {
    if messages != [] && messages[|messages| - 1].role == role {
      merged := messages[|messages| - 1 := Message(role, messages[|messages| - 1].content + kept)];
    } else {
      merged := messages + [Message(role, kept)];
    }
  }

  /** One entry at a time: drop what is orphaned, skip what is then empty, and merge into the
      last message while the role stays the same. */
  method FoldSurface(surface: seq<Entry>) returns (messages: seq<Message>)
    ensures messages == Fold(surface)
  {
    var paired := PairedToolIds(surface);
    messages := [];
    for i := 0 to |surface|
      invariant messages == Group(Keep(Flat(surface[..i]), paired))
    {
      var role := RoleFor(surface[i]);
      var kept := KeepBlocks(BlocksOf(surface[i]), paired);
      FoldNext(surface, i, paired);
      if kept != [] { messages := MergeIn(messages, role, kept); }
    }
    assert surface[..|surface|] == surface;
  }
}
