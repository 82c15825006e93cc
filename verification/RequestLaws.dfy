/** What every request a run sends holds, against what the run was given and what its record says. */
module RequestLaws {
  import opened Json
  import opened Contract
  import opened Record
  import opened Surface
  import opened SurfaceLaws
  import RequestBuilder
  import Breakpoints
  import RunLoop

  /** Markers for so many blocks: at most four, in order, at most fifteen apart, the first among the first fifteen unless all
      four are spent behind it, the last on the tail. */
  ghost predicate Marked(b: seq<nat>, blocks: nat) {
    && 1 <= |b| <= 4 && b[|b| - 1] + 1 == blocks
    && (forall i :: 0 <= i < |b| - 1 ==> b[i] < b[i + 1] <= b[i] + 15)
    && (|b| < 4 ==> b[0] < 15)
  }

  /** A lookup from some marker walks back to the block at `target`: it goes at most twenty blocks. */
  ghost predicate FoundFrom(b: seq<nat>, target: nat) {
    exists i :: 0 <= i < |b| && target <= b[i] <= target + 20
  }

  /** Without caching, or with nothing to cache, no marker is set; otherwise they are spaced as they must be, a block is
      found just when the first marker is near enough, and the tail of any request up to 51 blocks shorter is. */
  ghost predicate Cached(caps: Capabilities, r: Request) {
    var blocks := |Spoken(r.messages)|;
    if !caps.promptCaching || blocks == 0 then r.cacheBreakpoints == []
    else
      && Marked(r.cacheBreakpoints, blocks)
      && (forall target: nat :: target < blocks ==>
            (FoundFrom(r.cacheBreakpoints, target) <==> r.cacheBreakpoints[0] <= target + 20))
      && (forall tail: nat :: tail < blocks <= tail + 52 ==> FoundFrom(r.cacheBreakpoints, tail))
  }

  /** How much may be answered, and how much of it thought: never more than the model can give, and with a budget always
      the whole answer beside it. */
  predicate Sized(caps: Capabilities, answer: nat, r: Request) {
    if caps.adaptiveThinking then
      && r.thinking == Adaptive(caps.thinkingDisplaySummarized)
      && r.maxTokens == (if answer + 8192 <= caps.maxOutputTokens then answer + 8192 else caps.maxOutputTokens)
    else match r.thinking
      case Adaptive(_) => false
      case Enabled(b) =>
        && caps.thinkingBudgetTokens.Some? && 1024 <= b <= caps.thinkingBudgetTokens.value
        && r.maxTokens == answer + b + 1 <= caps.maxOutputTokens
        && (b < caps.thinkingBudgetTokens.value ==> r.maxTokens == caps.maxOutputTokens)
      case NoThinking =>
        && (caps.thinkingBudgetTokens.None? || caps.thinkingBudgetTokens.value < 1024 || caps.maxOutputTokens < answer + 1025)
        && r.maxTokens == (if answer <= caps.maxOutputTokens then answer else caps.maxOutputTokens)
  }

  /** About four characters to a token. */
  predicate LongEnough(caps: Capabilities, prompt: string) {
    caps.minCacheablePrefixTokens.Some? ==> 4 * caps.minCacheablePrefixTokens.value <= |prompt|
  }

  /** The request is of this model, with this prompt and these tools, holds these messages, asks for the effort if it is named
      and on offer, and is sized and marked as it must be. */
  ghost predicate Made(model: string, caps: Capabilities, prompt: string, tools: seq<ToolSchema>, messages: seq<Message>,
                       effort: Option<string>, answer: nat, r: Request) {
    && r.model == model && r.system == prompt && r.tools == tools && r.messages == messages
    && r.effort == (if effort.Some? && effort.value != "" && effort.value in caps.effortLevels then effort else None)
    && r.compaction == caps.serverSideCompaction
    && (r.systemCached <==> caps.promptCaching && LongEnough(caps, prompt))
    && Sized(caps, answer, r) && Cached(caps, r)
  }

  /** The request is the run's own, and holds what of the record is on the surface from the run's baseline on. */
  ghost predicate Suits(spec: RunLoop.Spec, s: State, r: Request) {
    Made(spec.model, spec.caps, spec.systemPrompt, spec.tools, Fold(SurfaceFrom(s, spec.surfaceFrom)), spec.effort, 8192, r)
  }

  lemma {:induction false} BuiltIsMade(model: string, caps: Capabilities, prompt: string, tools: seq<ToolSchema>, surface: seq<Entry>,
                                       effort: Option<string>, answer: Option<nat>)
    ensures Made(model, caps, prompt, tools, Fold(surface), effort, if answer.Some? then answer.value else 8192,
                 RequestBuilder.Build(model, caps, prompt, tools, surface, effort, answer))
  {
    var r := RequestBuilder.Build(model, caps, prompt, tools, surface, effort, answer);
    var blocks := |Spoken(r.messages)|;
    if caps.promptCaching && blocks > 0 {
      PlacedIsCached(caps, r, blocks);
    }
    BuiltIsSized(model, caps, prompt, tools, surface, effort, answer);
  }

  lemma {:induction false} PlacedIsCached(caps: Capabilities, r: Request, blocks: nat)
    requires blocks > 0 && blocks == |Spoken(r.messages)| && r.cacheBreakpoints == Breakpoints.Place(blocks) && caps.promptCaching
    ensures Cached(caps, r)
  {
    var b := r.cacheBreakpoints;
    Breakpoints.Spacing(blocks);
    forall target: nat | target < blocks ensures FoundFrom(b, target) <==> b[0] <= target + 20 {
      Breakpoints.ReachesUnlessAllTooLate(blocks, target);
      SameReach(b, target);
    }
    forall tail: nat | tail < blocks <= tail + 52 ensures FoundFrom(b, tail) {
      Breakpoints.TailStaysInReach(tail + 1, blocks);
      SameReach(b, tail);
    }
  }

  lemma {:induction false} SameReach(b: seq<nat>, target: nat)
    ensures FoundFrom(b, target) <==> Breakpoints.Reaches(b, target)
  {
  }

  lemma {:induction false} BuiltIsSized(model: string, caps: Capabilities, prompt: string, tools: seq<ToolSchema>, surface: seq<Entry>,
                                        effort: Option<string>, answer: Option<nat>)
    ensures Sized(caps, if answer.Some? then answer.value else 8192,
                  RequestBuilder.Build(model, caps, prompt, tools, surface, effort, answer))
  {
  }

  lemma {:induction false} AskedSuits(spec: RunLoop.Spec, s: State)
    ensures Suits(spec, s, RunLoop.RequestFor(spec, s))
  {
    BuiltIsMade(spec.model, spec.caps, spec.systemPrompt, spec.tools, SurfaceFrom(s, spec.surfaceFrom), spec.effort, None);
  }

  // --- Rebuilding ----------------------------------------------------------------------------------

  /** The last snapshot on the log is at `at`. */
  ghost predicate LastHeaderAt(entries: seq<Entry>, at: nat) {
    at < |entries| && entries[at].etype == RequestHeader && forall i :: at < i < |entries| ==> entries[i].etype != RequestHeader
  }

  /** Nothing is rebuilt from a log without a snapshot. With one, what is supplied is refused exactly when its fingerprint is not
      the recorded one, first the prompt's and then the tools'; and otherwise the request is of the recorded model and
      effort and holds all that is on the surface, and whether that is what was sent is told just at the boundary and just where
      its fingerprint was recorded. */
  lemma {:induction false} RebuildsExactly(codec: Codec, entries: seq<Entry>, prompt: string, tools: seq<ToolSchema>, caps: Capabilities,
                                           answer: Option<nat>)
    ensures var r := RequestBuilder.Reconstruct(codec, entries, prompt, tools, caps, answer);
      if !(exists at: nat :: LastHeaderAt(entries, at) && entries[at].payload.Header?) then r == RequestBuilder.NoSnapshot
      else forall at: nat :: LastHeaderAt(entries, at) ==> Rebuilt(codec, entries, at, prompt, tools, caps, answer, r)
  {
    var last := RequestBuilder.LatestHeader(entries);
    if last.Some? {
      assert LastHeaderAt(entries, last.value);
      if entries[last.value].payload.Header? {
        HeaderRebuilds(codec, entries, last.value, prompt, tools, caps, answer);
      }
      forall at: nat | LastHeaderAt(entries, at) ensures at == last.value {
      }
    }
  }

  lemma {:induction false} HeaderRebuilds(codec: Codec, entries: seq<Entry>, at: nat, prompt: string, tools: seq<ToolSchema>,
                                          caps: Capabilities, answer: Option<nat>)
    requires RequestBuilder.LatestHeader(entries) == Some(at) && entries[at].payload.Header?
    ensures Rebuilt(codec, entries, at, prompt, tools, caps, answer,
                    RequestBuilder.Reconstruct(codec, entries, prompt, tools, caps, answer))
  {
    var snapshot := entries[at].payload.snapshot;
    BuiltIsMade(snapshot.model, caps, prompt, tools, OnSurface(entries),
                if RequestBuilder.Named(snapshot.effort) then snapshot.effort else None, answer);
  }

  ghost predicate Rebuilt(codec: Codec, entries: seq<Entry>, at: nat, prompt: string, tools: seq<ToolSchema>, caps: Capabilities,
                          answer: Option<nat>, r: RequestBuilder.Rebuilt)
    requires at < |entries|
  {
    && entries[at].payload.Header?
    && var Header(snapshot, sent) := entries[at].payload;
       if RequestBuilder.Djb2(prompt) != snapshot.systemPromptDigest then r == RequestBuilder.PromptMismatch
       else if RequestBuilder.ToolsDigest(codec, tools) != snapshot.toolSchemasDigest then r == RequestBuilder.ToolsMismatch
       else
         && r.Ok? && r.snapshot == snapshot
         && Made(snapshot.model, caps, prompt, tools, Fold(OnSurface(entries)), snapshot.effort,
                 if answer.Some? then answer.value else 8192, r.request)
         && (r.messages == RequestBuilder.Unrecorded <==> sent.None?)
         && (r.messages == RequestBuilder.NotAtBoundary <==> sent.Some? && at + 1 < |entries|)
         && (r.messages == RequestBuilder.Match <==>
               sent.Some? && at + 1 == |entries| && RequestBuilder.MessagesDigest(codec, Fold(OnSurface(entries))) == sent.value)
  }

  // --- What a fingerprint is of ----------------------------------------------------------------

  predicate Spells(v: Value, m: Message) {
    && v.Obj? && v.fields.Keys == {"role", "content"} && v.fields["content"] == Arr(m.content)
    && v.fields["role"] == match m.role case UserRole => Str("user") case AssistantRole => Str("assistant")
  }

  predicate SpellsTool(v: Value, t: ToolSchema) {
    && v.Obj? && "name" in v.fields && v.fields["name"] == Str(t.name)
    && ("input_schema" in v.fields <==> t.inputSchema.Some?)
    && (t.inputSchema.Some? ==> v.fields["input_schema"] == t.inputSchema.value)
  }

  /** Messages are fingerprinted by a text from which all of them can be read back, so by no two lists alike. */
  lemma {:induction false} MessagesAreSpelled(codec: Codec, messages: seq<Message>) returns (text: string)
    requires codec.Lawful()
    ensures RequestBuilder.MessagesDigest(codec, messages) == RequestBuilder.Djb2(text)
    ensures match codec.parse(text)
      case Some(Arr(items)) => |items| == |messages| && forall i :: 0 <= i < |items| ==> Spells(items[i], messages[i])
      case _ => false
  {
    text := codec.stringify(RequestBuilder.MessagesValue(messages));
  }

  /** And so are tools. */
  lemma {:induction false} ToolsAreSpelled(codec: Codec, tools: seq<ToolSchema>) returns (text: string)
    requires codec.Lawful()
    ensures RequestBuilder.ToolsDigest(codec, tools) == RequestBuilder.Djb2(text)
    ensures match codec.parse(text)
      case Some(Arr(items)) => |items| == |tools| && forall i :: 0 <= i < |items| ==> SpellsTool(items[i], tools[i])
      case _ => false
  {
    text := codec.stringify(RequestBuilder.ToolsValue(tools));
  }
}
