# The harness's durable loop, verified

A Dafny model of the agent harness: the loop that asks a provider, runs tools and records what
happened; the record it writes; the recovery that settles what a crash left; and the parts whose
correctness the record leans on. The central idea of the harness is that every uncertain effect is
bracketed by two transactions and one position register says what is owed. The central results here
are about every run of that protocol, cut at any step, recovered any number of times.

## How it is laid out

- `Json`, `Text`, `Contract`: plain data, how JavaScript reads it, and the provider-neutral vocabulary.
- `Record`: the store. An insert-only log, a ledger and registers; a transaction applies all of its writes
  in order or none. `Journal`: what one process does, as steps a crash can tell apart: a transaction, a
  request sent, a tool effect begun, events told. A crash leaves a prefix of a journal.
- `Checkpoint`, `Recovery`, `RecoveryLaws`: the position register, the recovery executor as a class over a
  process, and confluence.
- `RunLoop`: the loop as a function of a world, that is of everything a provider, a tool, a handler and the
  participants decide. `AgentLoop`: the loop as it runs, an object with the source's fields, proved to do
  step by step what that function says.
- `Protocol`: the step protocol. A journal is lawful when every step is legal where it stands; what a
  lawful journal guarantees holds of each of its prefixes. `RunLaws`, `TurnLaws`, `Runs`, `Pacing`,
  `World`, `Hearing`, `Story`, `Endings`: every run's journal is lawful, what each part of a turn adds, the
  ledger, the bounds, and, read off the world alone, the surface and how a run ends. `Script`, `Overheard`,
  `Scripted`: the same of every step. `Deeds`, `Conduct`, `Effects`: what each step of a run may be, and that
  every call is begun and answered once. `CrashSafety`, `Restarts`, `Settlements`, `PassScript`, `Guarantees`:
  what follows for a run, its crash and its recoveries. `Witnesses`: runs that show where it ends.
- `Surface`, `SurfaceLaws`, `Breakpoints`, `RequestBuilder`, `RequestLaws`, `StopReasons`: the fold from record to
  request, and back.
- `Normalize`, `ConverseStream`, `StreamLaws`, `WireLaws`, `ConverseResponse`, `ResponseLaws`, `ConverseRequest`,
  `AnthropicRequest`, `Translation`, `PairingLaws`, `ResultLaws`, `RoundTrip`: streams to blocks and events, and blocks to
  either vocabulary.
- `Transport`, `Ephemeral`: delivery, as systems of interleaved actions and as the classes whose calls those are.
- `Extensions`, `DispatchLaws`, `Frontmatter`, `FrontmatterLaws`, `SkillFile`: the registry, and the skill file printer
  and parser.

## Reading the results

Tool ids are the settlement keys, so two calls of a run with one id share one answer: the second is
skipped by the store. `Guarantees.EveryCallAnsweredOnce` needs no assumption about that, and
neither does `Story.RunSays`, which says what is then left out. `Guarantees.RunBeginsOnce`,
`Guarantees.RunBeginsNeverOnce` and `Guarantees.RunRunsEachOnce` count by id and assume ids that do not repeat, and
`RoundTrip.NarratedIdIsRecorded` shows that the harness itself can make ids that do.

A `fresh` run is one the record knows nothing of yet. Runs are sequential in their record, as in a session
with one lane.

Where the code and its comments differ, the code is followed. The comment over the tool dispatch speaks of
one combined entry for all results (harness/src/loop/run_loop.ts:569-572); the code writes one entry per
result and the fold merges them. The comment over the planner speaks of reserved entry ids
(harness/src/loop/checkpoint.ts:107-111); what is reserved is the key. The comment in the Converse
translation says that assistant turns are stored in Converse's own shape
(harness/src/providers/converse_request.ts:13-15, 100-102); tool calls are stored in the canonical one.

Facts the proofs brought out: passes over one run all announce themselves under one number; a call that
recovery runs again is given what the model asked, not what a gate narrowed it to; a result recorded in
Converse's own shape is dropped on the way back to Converse, and a call the stream gave no id to goes back as
one that nothing answers; a request is rebuilt from the record only where what precedes the run's baseline is
silent, so not where a session is continued without its context (harness/src/supervisor.ts:264), although
harness/src/loop/request_builder.ts:15-16 promises it of any request.

Assumed of the platform, as `Json.Codec.Lawful` and nowhere else: parsing a stringified value gives the value,
no value stringifies to the empty text, and decoding encoded bytes gives the bytes.

## Model

| member | source | states |
|---|---|---|
| `Record.Store.Commit` | harness/src/store/store.ts:202-247 | One transaction lands whole, its writes in order, or not at all; what it answers is the place each write took, the first place, and exactly the entries that were skipped; the lane's leaf moves to the end of the log exactly when the log grew |
| `Record.PlacedSays` | harness/src/store/store.ts:251-290 | An entry that is placed is at its place, behind all that was there; one that is skipped repeats a run's number or settlement key of one that is |
| `Record.PlacedInOrder` | harness/src/store/store.ts:209-223 | Places follow the order of the writes |
| `Record.HighestSeqIs` | harness/src/store/store.ts:430-437 | A run goes on from the highest number it has on the record, no other run's; from nothing if it has none |
| `Record.NextUsageIdIs` | harness/src/store/store.ts:421-428 | The id reserved for a row is the first above all that are there |
| `Checkpoint.PlanCalls` | harness/src/loop/checkpoint.ts:112-130 | Every call is planned at its own index, under its own id as settlement key, with its own replay policy |
| `Checkpoint.WithCallStatus` | harness/src/loop/checkpoint.ts:139-148 | Advancing one call yields a whole new marker that differs in that call's status alone |
| `Checkpoint.SelectsInOrder` | harness/src/loop/checkpoint.ts:196-211 | A restart sorts calls by status and policy; each list holds exactly the calls that fall in it, each once, in the order they were planned |
| `Checkpoint.OnlyOneSelection` | harness/src/loop/checkpoint.ts:196-211 | Which fixes the list |
| `Recovery.Executor.ApplyRecovery` | harness/src/store/recovery.ts:61-94 | What a pass does, transaction by transaction, what it leaves, and all it reports and announces, for every position |
| `Recovery.Executor.FinishTools` | harness/src/store/recovery.ts:163-229 | Interrupted `never` calls, then unstarted ones, then `safe` ones: each settled in its own transaction with the advanced marker, then the checkpoint |
| `Recovery.Executor.Settle` | harness/src/store/recovery.ts:190-208 | One call is run with the recorded arguments, or stood in for, and its outcome filed with the marker |
| `RecoveryLaws.RecoveryConfluent` | harness/src/store/recovery.ts:163-229 | Any number of passes cut anywhere, then a whole one, give the entries, their order and the position of one uninterrupted pass |
| `RecoveryLaws.RecoveryIdempotent` | harness/src/store/recovery.ts:61-94 | After a whole pass another does nothing at all |
| `RecoveryLaws.PassesShareANumber` | harness/src/store/recovery.ts:293-311 | Every pass over a run is announced under one and the same number, since the announcement is not recorded |
| `CrashSafety.RecoveryAnswers` | harness/src/store/recovery.ts:163-229 | From any state the protocol can leave, a whole pass answers every call ever asked and, from a tools phase, returns to the checkpoint |
| `CrashSafety.UncertainExactly` | harness/src/store/recovery.ts:107-152 | A cut journal owes an uncertain settlement exactly when its last transaction is a request's intent; the surface is then as before it |
| `CrashSafety.UncertainIsSettled` | harness/src/store/recovery.ts:107-152 | The uncertain settlement ends the run as interrupted, under the request's own key, off the surface |
| `Restarts.BegunExactly` | harness/src/store/recovery.ts:186-208 | With a way to run calls, a `never` call is begun once if it was still planned, plus once per pass cut between beginning it and recording its outcome |
| `Witnesses.TornRunBeginsTwice` | harness/src/store/recovery.ts:191-197 | Every run that begins with one `never` call can be cut, and its recovery cut once, so that the call is begun twice: planned calls are run without first being marked |
| `Restarts.ShippedBeginsNothing` | harness/src/store/recovery.ts:235-243 | Without a way to run calls, as shipped, no pass begins any |
| `Restarts.NeverAtMostOnceExactly` | harness/src/store/recovery.ts:186-208 | Over a lawful journal and its recoveries a `never` call is begun at most once if and only if no pass was cut there |
| `Protocol.ApplyTx` | harness/src/loop/checkpoint.ts:93-100 | What a transaction of the loop does to each part of the record, writes applied in order |
| `Protocol.TidyKeeps` | harness/src/loop/checkpoint.ts:98-148 | A transaction that obeys the protocol loses no answer, forgets no call, and answers none twice |
| `Protocol.LawfulKeeps` | harness/src/loop/run_loop.ts:582-691 | At every prefix of a lawful journal answers are single and well-formed, completed calls have theirs, and nothing asked is forgotten |
| `CrashSafety.LawfulStartsOnce` | harness/src/loop/run_loop.ts:626-640 | While tool ids do not repeat, a lawful journal begins each call at most once, and only after it was marked |
| `AgentLoop.Agent.Run` | harness/src/loop/run_loop.ts:145-449 | The loop, step by step, does exactly what `RunLoop.Run` says of the same world: same record, same order of effects, same ending, same fields |
| `AgentLoop.Agent.TakeTurn` | harness/src/loop/run_loop.ts:209-446 | One turn: interrupted at its boundary, refused, broken, or settled and acted on |
| `AgentLoop.Agent.CommitIntent` | harness/src/loop/run_loop.ts:259-305 | The request's identity is committed before it is sent, with the snapshot exactly when it changed |
| `AgentLoop.Agent.StreamTurn` | harness/src/loop/run_loop.ts:481-567 | Blocks, calls, figures and durable events are gathered in order; what is live is told at once; reading a tool block's id may throw |
| `AgentLoop.Agent.SettleTurn` | harness/src/loop/run_loop.ts:341-446 | The turn and what comes next land in one transaction, and only then are its events told |
| `AgentLoop.Agent.DispatchTools` | harness/src/loop/run_loop.ts:573-692 | Each call is settled before the next is looked at, then the checkpoint |
| `AgentLoop.Agent.DispatchCall` | harness/src/loop/run_loop.ts:582-685 | A refused call is answered with the reason; an allowed one is marked, begun and answered, with the input the gate left it |
| `AgentLoop.Agent.AppendFollowUps` | harness/src/loop/run_loop.ts:464-475 | The whole inbox goes into the record in one transaction, one prompt each, in order |
| `AgentLoop.Agent.NoteToolOutcome` | harness/src/loop/run_loop.ts:716-726 | How one outcome moves the failure streak |
| `AgentLoop.Agent.RefuseTurn` | harness/src/loop/run_loop.ts:828-840 | A refusal is recorded off the surface, told, and fails the run |
| `AgentLoop.Agent.BreakOff` | harness/src/loop/run_loop.ts:321-339 | After a broken stream: an interrupt if aborted, otherwise the error is told, not kept, and the run fails |
| `AgentLoop.Agent.Terminate` | harness/src/loop/run_loop.ts:919-943 | Event, result, cleared register and terminal position land together |
| `RunLaws.HearNumbers` | harness/src/loop/run_loop.ts:533-543 | What a turn keeps is numbered without a gap, and all it tells on the way is live |
| `Story.DispatchFollows` | harness/src/loop/run_loop.ts:582-685 | Dispatching puts each call's own answer on the surface, in call order, but for a call whose id has one already, and nothing else; the streak of failures moves as the calls that were allowed went |
| `Story.NewCallsAllTold` | harness/src/loop/run_loop.ts:582-685 | While ids are new and differ that is every call's answer |
| `RunLaws.SettleTxKeeps` | harness/src/loop/run_loop.ts:352-383 | A settlement lands every event, puts the turn's blocks on the surface once, and adds one ledger row or none |
| `TurnLaws.IntendKnows` | harness/src/loop/run_loop.ts:275-305 | After the intent the latest snapshot on the log is this request's, and the surface is unchanged |
| `TurnLaws.RebuildAsked` | harness/src/loop/request_builder.ts:379-443 | What a prefix that ends at a request's boundary rebuilds to: that request exactly when the whole of it folds to what was sent; and exactly when the verdict is a mismatch |
| `SurfaceLaws.FoldBehindExactly` | harness/src/loop/request_builder.ts:94-137 | Folding a whole surface gives what folding the rest of it gives exactly when no block in front is kept and none in front completes a call behind |
| `TurnLaws.SilentExactly` | harness/src/loop/run_loop.ts:221 | So for a run's baseline; from the start of the session it always holds |
| `Runs.RunStands` | harness/src/loop/run_loop.ts:209-448 | After any number of turns the record is lawful, metered and known, and every run ends |
| `Runs.MeteredGrows` | harness/src/loop/run_loop.ts:1036-1075 | Each ledger row belongs to one sent request, and together they are what the loop counted |
| `Pacing.TurnsAreBounded` | harness/src/loop/run_loop.ts:209-449 | After any number of turns: no more requests than turns, no intent beyond the fifth resume in a row, the failure counter is the trailing streak, and nothing durable is told before the step that files it |
| `Pacing.ResumesAreBounded` | harness/src/loop/stop_reasons.ts:93-102 | No request whose intent a run records is beyond the fifth resume of a paused turn in a row |
| `Pacing.RunIsBounded` | harness/src/loop/run_loop.ts:209-449 | A run sends at most a hundred requests |
| `Pacing.NoteStreaks` | harness/src/loop/run_loop.ts:716-726 | The counter stays the length of the trailing run of one call failing with one input |
| `Pacing.OneStreak` | harness/src/loop/run_loop.ts:716-726 | The counter is a function of the history of calls |
| `Pacing.StopsWhenStuck` | harness/src/loop/run_loop.ts:386-401 | A turn with tools ends the run exactly when the last three calls were one call failing with one input |
| `Pacing.SameKeySameCall` | harness/src/loop/run_loop.ts:721 | Calls count as repetitions only if name and input are the same, while names have no colon |
| `Story.RunSays` | harness/src/loop/run_loop.ts:348-420 | The surface after any run is the prompt, then each settled turn's blocks once, its results in call order but for a repeated id's, and the follow-ups it drained; nothing of a broken, refused or interrupted turn; the ledger grows by each settled turn's figures; and it ends where and as the tale does, all from what the run was given alone |
| `Endings.RunEnds` | harness/src/loop/run_loop.ts:341-446 | A run ends with its first turn that stops it: finished exactly when that turn was not aborted, refused or broken, its stream's last reason was the end of the turn or none, and nothing waits; interrupted exactly on an abort; failed otherwise, for the reason that applies. Its answer, its register, its position, the last event recorded and the last told agree |
| `Scripted.RunIsScripted` | harness/src/loop/run_loop.ts:145-449 | Every run does, step by step and in that order, what a script read off its world says: what it files and where that leaves it, when it asks, what it runs and with what, and what it tells |
| `Overheard.HearsScript` | harness/src/loop/normalize.ts:99-190 | What is told while a stream is heard is what each of its deltas says as it comes, and what is kept is what its finished blocks are announced as |
| `Hearing.SpeakerExactly` | harness/src/loop/run_loop.ts:1021-1025 | A turn's blocks are carried exactly when reading some finished block did not throw, and as the assistant's unless all such were compactions |
| `World.VoiceBlocks` | harness/src/loop/run_loop.ts:515-516 | The blocks kept are the stream's finished blocks in provider order |
| `World.VoiceCalls` | harness/src/loop/run_loop.ts:517-524 | The calls made are those of the finished blocks, in block order |
| `World.VoiceReason` | harness/src/loop/run_loop.ts:526-532 | The reason and the figures are the last ones given |
| `World.InputIsOwn` | harness/src/loop/run_loop.ts:583-584 | A call is run with the input of the first call of its turn under its id, so with its own while ids differ |
| `Hearing.HearAlike` | harness/src/loop/normalize.ts:99-161 | What a stream says does not depend on the numbers or the turn it is heard in |
| `Guarantees.EveryCallAnsweredOnce` | harness/src/loop/run_loop.ts:582-691 | Wherever a run is cut and however often its recovery is: once a pass completes every call ever planned has exactly one answer, on the surface, under its own key |
| `Guarantees.RunBeginsOnce` | harness/src/loop/run_loop.ts:626-648 | As shipped no call's effect is begun twice over a run, its crash and its recoveries, which together leave what one whole recovery leaves |
| `Guarantees.RunBeginsNeverOnce` | harness/src/store/recovery.ts:186-208 | With a way to run calls the same holds of a `never` call exactly when no recovery was cut between beginning it and recording it; the record is one whole recovery's either way |
| `Guarantees.RunUncertainExactly` | harness/src/loop/run_loop.ts:291-419 | Recovery reports uncertainty exactly when the crash fell between an intent and the next transaction; no block of that turn is on the surface before or after, and all that is filed is that the outcome is not known, under the request's own key |
| `Guarantees.RunEndsOnce` | harness/src/loop/run_loop.ts:796-943 | Every run commits exactly one terminal position, as its last transaction, and reports as spent the sum of its ledger rows |
| `Guarantees.RunIsNumbered` | harness/src/loop/run_loop.ts:145-180 | The events of any run on its record are numbered from one, its prompt the first, each over those in front of it |
| `Guarantees.RunRebuilds` | harness/src/loop/run_loop.ts:307-317 | The log prefix at each ledger row's boundary rebuilds the request that was sent there exactly when what precedes the run's baseline is silent, which from the start of the session it is; and then its fingerprint agrees |
| `Witnesses.SpokenBaselineRebuildsNothing` | harness/src/loop/run_loop.ts:219-222 | Where anything that belongs to no call is on the surface in front of the baseline, no row of the run rebuilds its request |
| `Witnesses.LaterBaselineRebuildsNothing` | harness/src/loop/request_builder.ts:15-16 | Such a run, and its row: another run's prompt, and this one folded from behind it |
| `Guarantees.ToldIsRecorded` | harness/src/loop/run_loop.ts:180-203 | Whatever durable event was told is already on the record as told, but for the error that broke the stream of a request in flight |
| `Guarantees.ReplayRunsWhatWasAsked` | harness/src/loop/run_loop.ts:623-648 | Wherever a run begins an effect the gate did not refuse it and the tool is known, the record holds for the call what the model first asked under its id in the turn last requested, and the effect gets what the gate left of it; recovery would run the former, the same exactly when the gate changed nothing |
| `Guarantees.RunRunsEachOnce` | harness/src/loop/run_loop.ts:582-691 | Wherever a run is cut, while ids do not repeat: the calls planned are those the turn's model asked for; one that is answered was begun exactly once if its gate let it and the tool is known, between the transaction that marks it and the one that answers it, and otherwise never; of a whole run all are answered |
| `Guarantees.RunAnswersAsTold` | harness/src/loop/run_loop.ts:642-685 | Every answer a run files is that of a call in hand: its outcome, in one transaction with what is told of it and the marker that it is done |
| `Effects.AnsweredCounts` | harness/src/loop/run_loop.ts:626-685 | Of any journal that does what a run may: a call that is answered was begun once if it was let through and there is such a tool, right after it was marked and right before it is answered, and otherwise not at all |
| `Conduct.RunIsAsItMayBe` | harness/src/loop/run_loop.ts:209-449 | Every step of every run is one of those its world allows there: what it plans, marks, begins, answers and asks |
| `Guarantees.RunSettlesOwed` | harness/src/store/recovery.ts:163-277 | Wherever a run is cut and however often its recovery is: the one answer of a call the crash left owing says that it was interrupted, as an error, if it was stranded or nothing can run calls, and otherwise what running it with the recorded arguments returned |
| `Settlements.PassSettles` | harness/src/store/recovery.ts:163-277 | So over any record: the one answer of an owed call after a whole pass, written out |
| `PassScript.PassIsScripted` | harness/src/store/recovery.ts:163-229 | A pass over a tools phase, step by step: stranded calls, then unstarted, then repeatable ones, each of these as planned, each begun if it may and can be, and filed with the advanced marker; then the checkpoint, and nothing else |
| `PassScript.OnlyOneTurn` | harness/src/store/recovery.ts:163-229 | There is one such order |
| `PassScript.OtherPhases` | harness/src/store/recovery.ts:61-152 | In any other phase: a request in flight is settled as not known, a compaction starts over, and nothing else is done |
| `Guarantees.RunIsRecoveredInTurn` | harness/src/store/recovery.ts:163-229 | So wherever a run is cut in a tools phase |
| `Guarantees.RunAsksForItself` | harness/src/loop/request_builder.ts:60-84 | Every request a run sends has the run's own model, prompt and tools, its effort exactly when named and offered, is sized and marked as it must be, and holds what the record says just then |
| `Guarantees.RunTellsConverse` | harness/src/providers/converse_request.ts:86-99 | In every request a run sends, each answer on the surface to a call on the surface reaches Converse under its id, as one text, its own, marked when the call failed |
| `Surface.PairedToolIds` | harness/src/loop/request_builder.ts:123-137 | The loop over the surface finds exactly the ids that have both halves on it |
| `Surface.FoldSurface` | harness/src/loop/request_builder.ts:94-120 | The merging loop computes the fold |
| `SurfaceLaws.FoldSays` | harness/src/loop/request_builder.ts:94-120 | The folded messages say exactly the kept blocks in order, alternate strictly, and none is empty |
| `SurfaceLaws.OnlyOneGrouping` | harness/src/loop/request_builder.ts:114-118 | No other list of messages says the same under the same rules |
| `SurfaceLaws.FoldPairsExactly` | harness/src/loop/request_builder.ts:94-137 | Call and result ids match in the folded messages exactly when no block that is one call's answered use carries another's orphaned result, and every answered call is answered on some block that is not also another's orphaned use |
| `SurfaceLaws.FoldPairs` | harness/src/loop/request_builder.ts:94-137 | With no block of two calls' halves they always match |
| `PairingLaws.OwnBlocksArePlain` | harness/src/providers/converse_stream.ts:199-249 | The blocks the harness makes, of a Converse stream, of an answer and of a prompt, hold no two halves and speak one vocabulary |
| `SurfaceLaws.HybridBreaksPairing` | harness/src/loop/request_builder.ts:140-162 | A block with both halves of different calls breaks it |
| `SurfaceLaws.AppendExtensionExactly` | harness/src/loop/request_builder.ts:94-137 | The next request extends this one exactly when no orphan is completed in front of a block that was already kept |
| `SurfaceLaws.AppendExtension` | harness/src/loop/request_builder.ts:94-137 | In particular when no orphan is completed at all |
| `SurfaceLaws.LateAnswerRewritesPrefix` | harness/src/loop/request_builder.ts:94-137 | The condition is needed: a late answer rewrites the prefix |
| `Breakpoints.PlaceBreakpoints` | harness/src/loop/request_builder.ts:262-273 | The loop computes the placement |
| `Breakpoints.Spacing` | harness/src/loop/request_builder.ts:28-31 | At most four markers, strictly increasing, gaps at most fifteen, the last on the tail |
| `Breakpoints.ReachesUnlessAllTooLate` | harness/src/loop/request_builder.ts:262-273 | A block is within lookback of some marker exactly when the earliest marker is |
| `Breakpoints.TailStaysInReach` | harness/src/loop/request_builder.ts:28-31 | A request up to 51 blocks longer still reaches the previous tail |
| `Breakpoints.FiftyTwoCanMiss` | harness/src/loop/request_builder.ts:28-31 | 52 more can miss it |
| `RequestBuilder.BudgetLeavesRoom` | harness/src/loop/request_builder.ts:195-250 | A thinking budget is sent only when the whole answer fits beside it, and withheld only when none would |
| `RequestLaws.BuiltIsMade` | harness/src/loop/request_builder.ts:67-275 | What any built request holds, field by field: limits and thinking written out, the adaptive case included, markers exactly with caching and blocks, spaced and in reach for its own block count |
| `RequestLaws.RebuildsExactly` | harness/src/loop/request_builder.ts:379-443 | When a prefix rebuilds, when it is refused and for what, what it rebuilds to, and the verdict on it, by the last snapshot on it |
| `RequestLaws.MessagesAreSpelled` | harness/src/loop/run_loop.ts:275-290 | Messages are fingerprinted by a text from which all of them, roles and content, can be read back |
| `RequestLaws.ToolsAreSpelled` | harness/src/loop/request_builder.ts:395 | And so are the tools offered |
| `RequestBuilder.Digest` | harness/src/loop/request_builder.ts:284-288 | The signed 32-bit loop computes the unsigned djb2 value |
| `RequestBuilder.FindHeader` | harness/src/loop/request_builder.ts:446-452 | The backward scan finds the last snapshot |
| `Normalize.LoopNormalizer.Make` | harness/src/loop/normalize.ts:389-408 | Only a durable envelope takes the next number |
| `Normalize.LoopNormalizer.Map` | harness/src/loop/normalize.ts:99-232 | What each provider event becomes; whatever throws becomes one raw event |
| `Normalize.AccumulatorHoldsDeltas` | harness/src/loop/normalize.ts:107-146 | For any events whatever a block's accumulator holds exactly its text deltas since it was opened, and its input fragments if it was |
| `Normalize.NumbersAreConsecutive` | harness/src/loop/normalize.ts:389-408 | Numbers are consecutive and durable-only |
| `ConverseStream.MapConverseStream` | harness/src/providers/converse_stream.ts:66-197 | The loop over the stream computes the mapping |
| `WireLaws.StoppedBlockIs` | harness/src/providers/converse_stream.ts:66-249 | For every wire stream each stopped block answers one close and is exactly what the wire says of it: its call with its id, name and parsed input, its text, or its reasoning |
| `WireLaws.MappedSettles` | harness/src/providers/converse_stream.ts:32-39 | It settles once for each set of figures that came, with the last reason given before them in the harness's words, and once more if it stopped and none came |
| `StreamLaws.MappedIsDisciplined` | harness/src/providers/converse_stream.ts:99-169 | For every wire stream a delta or stop names a block opened and not yet stopped, and a stopped block says its deltas, or encrypted reasoning in their place |
| `StreamLaws.StoppedBlockSays` | harness/src/providers/converse_stream.ts:108-169 | Every stopped block answers one close on the wire and says exactly what came for it since it was opened: text, input, or reasoning, encrypted to the byte when any came so |
| `StreamLaws.RecordedIsBroadcast` | harness/src/loop/normalize.ts:107-190 | The text recorded for a finished block is exactly the deltas broadcast for it, under the same key |
| `ConverseResponse.ResponseToStreamEvents` | harness/src/providers/converse_response.ts:18-123 | The loop over a whole response computes its replay |
| `ConverseResponse.FindNarrated` | harness/src/providers/converse_response.ts:138-174 | A call is found exactly when the text, fence aside, is prose and then to its end one object, from the first brace that parses, naming a tool that was offered; and it is that call |
| `ConverseResponse.NarratesOnce` | harness/src/providers/converse_response.ts:149-174 | A text narrates at most one |
| `ConverseResponse.ScanBraces` | harness/src/providers/converse_response.ts:152-162 | Left to right, the first brace from which the rest parses, and none only if there is none |
| `ConverseResponse.NarratedIdsRestart` | harness/src/providers/converse_response.ts:42-50 | The streams of any two responses that open with a narrated call open it under one id |
| `RoundTrip.NarratedIdIsRecorded` | harness/src/providers/converse_response.ts:42-50 | And it is recorded under that id |
| `ResponseLaws.ResponseIsKept` | harness/src/providers/converse_response.ts:18-123 | The blocks recorded of any response are, in order, its text and reasoning, each call with its own id, name and input, and a narrated call as a call with its prose in front; it stops for its tools exactly when one was narrated or it said so |
| `ResponseLaws.FenceIsStripped` | harness/src/providers/converse_response.ts:176-180 | A markdown fence around a text, tagged or not, and the space about it are no part of it |
| `ResponseLaws.OnlyFencesAreStripped` | harness/src/providers/converse_response.ts:176-180 | And nothing else is taken off |
| `ResponseLaws.NarratedInput` | harness/src/providers/converse_response.ts:171-173 | A narrated call is given what is said under `parameters`, else `arguments`, else `input`, else nothing |
| `RoundTrip.ResponseSettlesOnce` | harness/src/providers/converse_response.ts:115-122 | Whatever a response holds, its mapped stream ends with exactly one message_delta, then one message_stop |
| `RoundTrip.ResponseRoundTrips` | harness/src/providers/converse_request.ts:78-114 | A response of text and tool use in which nothing is narrated is echoed unchanged exactly when each call has an id, a name and an input |
| `RoundTrip.EchoIsExact` | harness/src/providers/converse_request.ts:78-114 | Block by block: what is kept translates back to what came, exactly for complete blocks |
| `Translation.CarryMessages` | harness/src/providers/converse_request.ts:25-37 | The message loop, shared by both vocabularies: dropped blocks, omitted messages, a throw that ends it |
| `Translation.CarrySays` | harness/src/providers/anthropic_request.ts:17-30 | Translation adds nothing, reorders nothing, and moves nothing to another role |
| `AnthropicRequest.KeepsIdsExactly` | harness/src/providers/anthropic_request.ts:33-75 | A block is sent with the ids the fold read on it exactly when it has a `type`, or is text, a call or a result and not two of them |
| `ConverseRequest.KeepsIdsExactly` | harness/src/providers/converse_request.ts:78-129 | On a block of one vocabulary ids are kept but a result's in Converse's own shape, and made up just where a canonical block has none |
| `ResultLaws.ConverseTellsResult` | harness/src/providers/converse_request.ts:86-99 | A result can be sent exactly when its id can be a string and no part is null; it then goes out under it with one text per part, in order, each its own text or written out, the first marked exactly when it is an error |
| `ResultLaws.AnswerIsTold` | harness/src/providers/converse_request.ts:86-99 | The harness's own answers in particular |
| `ResultLaws.AnswersReachConverse` | harness/src/providers/converse_request.ts:78-129 | And every one on the surface to a call on it reaches Converse so |
| `ResultLaws.PromptsReachConverse` | harness/src/providers/converse_request.ts:78-85 | Every prompt on the surface reaches Converse word for word |
| `ResultLaws.ConverseTells` | harness/src/providers/converse_request.ts:100-129 | What becomes of every other block: text, calls, encrypted reasoning to the byte, and nothing else |
| `ResultLaws.AnthropicTells` | harness/src/providers/anthropic_request.ts:33-83 | What Anthropic is sent for every block, the parts and the failure of a result included |
| `PairingLaws.AnthropicPairsExactly` | harness/src/providers/anthropic_request.ts:17-75 | While every kept block is well placed, which any block with a `type` is, what Anthropic is sent asks and answers what the fold does, and matches exactly when the fold does |
| `PairingLaws.TextLosesItsCall` | harness/src/providers/anthropic_request.ts:42-44 | The condition is needed: text with a call beside it is sent without the call, and its answer goes out orphaned |
| `PairingLaws.ConverseSentIds` | harness/src/providers/converse_request.ts:78-129 | On any surface the ids Converse is sent are those each kept block is sent with |
| `PairingLaws.ConversePairsExactly` | harness/src/providers/converse_request.ts:78-129 | On any surface what Converse is sent matches exactly when under each id a kept block makes a call if and only if a kept canonical result replies |
| `PairingLaws.PlainPairsExactly` | harness/src/providers/converse_request.ts:78-129 | On blocks of one vocabulary: exactly when each call made and answered has a canonical answer, each call without an id is answered under its made-up one, and each result without an id answers some call; where all have ids, exactly when every paired call has a canonical answer |
| `PairingLaws.MixedPairsOtherwise` | harness/src/providers/converse_request.ts:109-111 | One vocabulary is needed: text with a call beside it is sent without the call, and its answer with it |
| `PairingLaws.NamelessGoesUnanswered` | harness/src/providers/converse_request.ts:100-107 | A call the stream gave no id to, as the mapper records it, goes out as a call that nothing answers |
| `PairingLaws.OwnShapeGoesUnanswered` | harness/src/providers/converse_request.ts:86-128 | A session whose results are all in Converse's own shape goes out with none, its calls unanswered |
| `Transport.Transport.Enqueue` | harness/src/transport.ts:256-267 | The ring buffer evicts its oldest; one call is so many actions of the system |
| `Transport.Transport.Flush` | harness/src/transport.ts:210-228 | A flush begins when none is outstanding and otherwise waits its turn |
| `Transport.Transport.FlushOnce` | harness/src/transport.ts:230-234 | Everything buffered is sent; nothing when there is nothing, or once fatal |
| `Transport.Transport.EndFlush` | harness/src/transport.ts:229-253 | Acked, kept for retry, or fatal; then the flushes that waited, up to the first that sends |
| `Transport.EnqueueIsActions` | harness/src/transport.ts:256-267 | One call to enqueue is so many actions of the system |
| `Transport.Delivered` | harness/src/transport.ts:218-254 | Over every interleaving without eviction in which every success was honest: enqueued is acked plus buffer, and the receiver's log is a deduplicated prefix of it in order, even of posts read twice, late, or after being given up |
| `Transport.Conserved` | harness/src/transport.ts:235-240 | Honest or not, without eviction enqueued is acked plus buffer |
| `Transport.EarlySuccessLoses` | harness/src/transport.ts:235-240 | Honesty is needed: a success for what was not read clears it |
| `Transport.AckClears` | harness/src/transport.ts:236-240 | Exactly what an ack takes when events were pushed out during its flight |
| `Transport.AckIsExact` | harness/src/transport.ts:236-240 | An ack clears what it acknowledges if and only if nothing was pushed out during its flight |
| `Transport.FatalExactly` | harness/src/transport.ts:235-247 | The transport gives up exactly when a flush in flight is answered with a status that is neither a success nor a server's fault |
| `Transport.FatalStops` | harness/src/transport.ts:230-234 | And from then on nothing is sent or acked, and the buffer loses only what makes room |
| `Transport.AckedExactly` | harness/src/transport.ts:235-240 | Acked are the batches of those flushes that were answered with a success |
| `Transport.EvictionInFlightLoses` | harness/src/transport.ts:256-267 | A run in which an event never sent and never evicted is gone |
| `Ephemeral.EphemeralQueue.Enqueue` | harness/src/transport.ts:121-140 | Into the last entry or behind it, dropping the oldest over the limit |
| `Ephemeral.EphemeralQueue.StartPump` | harness/src/transport.ts:168-177 | One batch at a time, of everything queued |
| `Ephemeral.EphemeralQueue.Returned` | harness/src/transport.ts:174-186 | Answered or failed, a batch is not sent again, and what waits by then is the next |
| `Ephemeral.QueueRefinesStream` | harness/src/transport.ts:121-185 | Over every interleaving without overflow or failure, delivered, flying and queued coalesce to what the raw deltas do |
| `Ephemeral.CoalescedHears` | harness/src/transport.ts:142-150 | Coalescing keeps every stream's text, every whole reading, and the order in which streams speak |
| `Ephemeral.ClientHearsRaw` | harness/src/transport.ts:121-185 | A client holds the same from the batches as from the raw deltas |
| `Ephemeral.QueueIsNewest` | harness/src/transport.ts:121-140 | In every run whatever the queue is what the newest events coalesce to, at most two thousand entries, and no event shortens it: what is dropped is the oldest, and no more than must be |
| `Ephemeral.LastSpeaks` | harness/src/transport.ts:121-131 | What stands for merged events says of itself what the last of them said |
| `Extensions.ExtensionRegistry.Register` | harness/src/extensions/points.ts:137-145 | Each list stays the stable sort of what is live on its point |
| `Extensions.ExtensionRegistry.Unregister` | harness/src/extensions/points.ts:152-161 | Removal is total: lists, strikes and disabling |
| `Extensions.ExtensionRegistry.Dispatch` | harness/src/extensions/points.ts:180-217 | What is decided is the left fold of the history; a contributor is passed over exactly when it failed three times since it was last withdrawn |
| `Extensions.ResolvedIsStable` | harness/src/extensions/points.ts:140-142 | Band order, registration order within a band |
| `Extensions.OnlyOneOrder` | harness/src/extensions/points.ts:140-142 | No other order has both |
| `Extensions.GateOpens` | harness/src/extensions/points.ts:88-101 | `tool:before` lets a call through exactly when everyone on it who is not disabled allows what it is shown, and with what the last of them left |
| `DispatchLaws.DispatchDecides` | harness/src/extensions/points.ts:180-217 | On any point, after any history: the first handler in order that refuses or replaces decides with its own answer, one that fails decides only on `tool:before`, and by refusing; each is shown what those before it left, and who failed three times is passed over, in mid-dispatch too |
| `DispatchLaws.FailuresAreCounted` | harness/src/extensions/points.ts:180-217 | A dispatch is held against exactly those who failed in it, once for each time |
| `DispatchLaws.RemovalIsTotal` | harness/src/extensions/points.ts:148-161 | Whoever is removed handles nothing and has no failures to its name; of the others neither anything nor their order changes |
| `Frontmatter.ParseFrontmatter` | harness/src/frontmatter.ts:16-44 | The loop over the lines computes the parse |
| `Frontmatter.BlockScalar` | harness/src/frontmatter.ts:47-63 | A block scalar reaches to the first line that is neither blank nor indented |
| `FrontmatterLaws.FrontmatterIsRead` | harness/src/frontmatter.ts:16-70 | Any lines are made of items, keyed, block and silent ones, and are read as what these say, however they are told apart: quotes are no part of a value, of a block all words count, the last word on a key stands |
| `SkillFile.CollapseIsWords` | harness/src/frontmatter.ts:62 | Folding keeps exactly the words, one space between |
| `SkillFile.BlockEndsAfterHeader` | harness/src/skills_admin.ts:205-211 | Nothing in a description or a body can move the end of the block, and what follows it is the body |
| `SkillFile.WrittenIsReadBack` | harness/src/skills_admin.ts:205-211 | For every valid name, description and body: the printed file parses to exactly that name and that description, whitespace collapsed |
| `Text.TrimTells` | harness/src/frontmatter.ts:53-60 | Trimming takes the whitespace off both ends, and all of it |
| `Text.TrimIs` | harness/src/frontmatter.ts:53-60 | And only that: what stands between two stretches of whitespace, and begins and ends without it, is what is left |

## Left out

- Text of JSON, base64 and digests of it: parsing, encoding and stringifying are parameters with the laws above; the djb2 loop itself is modelled.
- Strings are Dafny characters, not UTF-16 units, and numbers in JSON are integers.
- Settlement keys are a datatype, so a tool id that happens to spell a request's identity is not modelled.
- Log positions are dense: `store_seq` is the entry's place in the log.
- The contributor list of a snapshot is taken as already sorted, and the tool schemas offered as the same on every turn.
- Timestamps, actor ids, connectors, skills and lane labels on entries, explanations, prices and other display text.
- Several lanes writing one record at once and session locks.
- What makes `run` itself throw: a store that fails, a probe that rejects. The adapters' streams, credentials and abort timing are choices of the world.
- `request:before` is modelled by whether it refuses, `tool:before` by what the loop reads of its outcome, `tool:after` by the result it leaves; `run:complete` observes only.
- `Transport.Delivered`: takes the receiver as accepting every well-formed event; rejection of malformed ones is not part of this model.
- `Ephemeral.QueueRefinesStream`: says nothing once a batch failed or the queue overflowed, where text is dropped by design, nor of a batch given up on that arrives late.
- `Extensions.ExtensionRegistry.Dispatch`: takes registry operations one after the other; registering while a handler is awaited is not modelled.
- `Frontmatter.ParseFrontmatter`: models this parser, not YAML; keys that are special property names of a plain object are not modelled.
- `ConverseResponse.ResponseToStreamEvents`: takes ids and names of tool blocks as strings or absent, as the SDK types them.
- Tool schemas on the way to Converse, the Anthropic stream mapping (its blocks come from the SDK's accumulated message), provider adapters, the tool registry and the tools.
- The supervisor, MCP clients, web and Rails sides, except for the uniqueness of stored events by run and number.
- Freezing built requests, redaction and truncation of raw payloads, filesystem work around skills.
- One-branch facts: role matrix, capability tables, prices, invites.
