# KajiCode agent loop: a Dafny verification project

KajiCode's agent loop keeps one message transcript for the whole of a run and rewrites it
between requests. This project models that transcript and everything that rewrites or feeds
it, and proves what the design relies on: that a strict provider accepts every transcript a
run can reach, that bounded carried state loses nothing, and that the concurrent protocols
beside the loop neither lose nor misdeliver anything.

`dafny verify dfyconfig.toml` checks the whole project (Dafny 4.11).

## Layout

| file | what it models |
|---|---|
| `Text.dfy`, `Transcript.dfy` | byte strings, the token estimate, messages, and what a strict provider accepts |
| `Prune.dfy` | the free prune of stale tool output |
| `Judge.dfy`, `JudgeRulings.dfy`, `Commute.dfy` | the relevance judge over the prune, what its answers do, and what both leave of state extraction |
| `Tail.dfy` | budgeted selection of the verbatim tail |
| `Entries.dfy`, `Extract.dfy`, `Listing.dfy`, `Preserve.dfy`, `Chain.dfy` | what a compaction reads out of the elided messages, the state block that carries it, and the chain of compactions |
| `Json.dfy`, `JsonGrammar.dfy`, `StateCodec.dfy` | the JSON the state block is written in |
| `Compaction.dfy`, `CompactionState.dfy`, `Summarizer.dfy` | one compaction, the per-run state around it, and the splitting summarizer |
| `TurnLoop.dfy`, `PlanMode.dfy` | the tool batch, its early exits, every transcript of a run, and the exit_plan_mode tool |
| `CarriedRun.dfy` | the carried state over a whole run |
| `ParallelTools.dfy`, `BatchExecutor.dfy` | parallel read-ahead, and the two-semaphore executor |
| `Guards.dfy` | the runaway guards |
| `Diagnostics.dfy` | the background diagnostics worker |
| `JsonRpc.dfy` | the JSON-RPC 2.0 peer |
| `ToolGate.dfy`, `Editor.dfy` | the relevance gate's blocks and rendering; line and character edits of client documents |

## How to read it

A `string` is a sequence of bytes, one `char` per byte. Where the program loops, the model is
a `method` with the same loop, proved equal to a specification function; the lemmas then say
what that function means. Where the program updates the fields of an object, the model is a
class. Concurrent protocols are state machines: one event per critical section or channel
operation, and an invariant kept by every event, hence by every interleaving. Histories a
proof needs and the program does not store (edit counts, the first response of a call, the
turns so far) are ghost.

Text work enters as function-valued parameters with stated laws: the state's encoding, which
`StateCodec.dfy` then supplies, the argument readers, the classifier, the summarizer's
provider, the summary check, and the tool registry. A provider call is an oracle that may
answer anything and may depend on the number of the call.

The provider rule behind `WellFormed` is the one the loop states for itself: system messages
lead, and the results of an assistant's calls follow it at once, one per call and in order.

## Where the code and its comments part

The model follows the code.

- The prune is described as idempotent (`internal/agent/prune.go:108-111`). It is not once a
  duplicate was collapsed: the pass skips a collapsed body the first time and counts its
  placeholder the second time. `PruneIsNotIdempotent` gives histories, `IdempotentIff` the
  exact condition; `IdempotentWithoutDuplicates` and `IterationReachesFixpoint` say what always
  holds.
- A duplicate placeholder says the newer copy is still in context
  (`internal/agent/prune.go:89-93`). `NewestCopyCanGo` gives histories where the same run drops
  it, `NewestCopySurvivesIff` the exact condition.
- The judge is said to keep only more than the prune
  (`internal/agent/compaction_judge.go:26-28`). It counts duplicate bodies towards the window
  and has no reclaim gate; `JudgeDropsKeptBodyIff` gives the condition and
  `JudgeDropsWhatPruneKeeps` histories that lose a body. It also never checks that a
  placeholder is cheaper than the body it replaces, so the size bounds of `MaybeCompact` hold
  without a judge and for a judged history that costs no more; `ChosenIsNoLarger` says when
  that is, by the replacement texts.
- A pruned tool-search result no longer opens as a listing
  (`internal/agent/compaction_preserve.go:299-303`), so the schemas it loaded drop out of the
  carried state: `LoadedToolIsLost` gives histories, `ToolSurvivesPruneIff` the condition. A
  skill body or edit note read off a pruned result is that of the placeholder:
  `SkillBodyIsLost` and `EditNoteIsLost`, with `SkillBodySurvivesPruneIff` and
  `EditNoteSurvivesPruneIff` for the conditions. Names, order, the plan and the instructions
  stay (`PruneCommutes`).
- A default tail length is computed (`internal/agent/compaction.go:430`) and the option itself
  used (`internal/agent/compaction.go:465`): `DefaultTailIsUnused` and `SuffixIsEmptyIff`. A
  negative length would slice past the end, so the legacy mode asks for a non-negative one;
  `effectiveCompactionPreserveLast` always supplies a positive one.
- The state block is called lossless (`internal/agent/compaction_preserve.go:613-616`), and is
  found by the last occurrence of its label, so a carried text that holds the label breaks the
  round trip: `StateReadsBackIff` gives the condition, `LabelInSkillIsLost` a state. With
  nothing to carry, a prose that quotes a block reads back as its state:
  `QuotedBlockReadsAsState`.
- A canceled exit_plan_mode prompt returns a result without an id
  (`internal/agent/plan_mode.go:117-120`), and the transcript is then refused: `ExitPlanMode`
  and `PlanExitKeepsReplayIff` give the condition, `CanceledPromptBreaksReplay` the transcript.
- Resuming a history drops messages with neither content nor id
  (`internal/agent/initial_messages.go:15-19`), a result among them: `SeedIsWellFormedIff` gives
  the condition, `EmptyResultBreaksSeed` a history.
- After a cancellation a drain may deliver a block that predates the last edit:
  `DeliveredBlocksAreFresh` gives the condition, `CanceledDrainCanBeStale` the run.
- The comment at `internal/agent/tool_gate.go:34-38` promises a split above 1500 bytes; the code
  also splits at exactly 1500: `LargeBodiesSplit`.
- The last branch of `handleLine` (`internal/acp/jsonrpc.go:179-184`) is never reached with an
  id, so a frame with neither method nor id gets no answer, although section 5.1 of the
  JSON-RPC 2.0 specification has an error with a null id for it.

## Conditions of the main results

- A run of the loop: the result each tool turn consumes for a call carries that call's id.
  `BatchIsWellFormedIff` shows that nothing less keeps the transcript acceptable, and
  `PlanExitKeepsReplayIff` where the program breaks it. The carried state over a run needs it
  too.
- The carried state over a run, besides: call ids are unique and non-empty over everything
  elided, calls sit on assistant messages, no message but the run's own summary opens with the
  summary label, every instruction block names its source, and the state label occurs in no
  text that is carried and, while there is nothing to carry, in no summary prose. What each
  elided slice needs besides, that it answers its own calls, follows from well-formedness.
- What the prune does to carried tools, skill bodies and notes: a tool listing opens with
  "Loaded ", the cap of a skill body keeps how it opens, and the note of a result opens as the
  result does.
- The chain of compactions on its own takes any codec that decodes what it encodes, to one
  trimmed line without newlines; the round trip also takes it that no proper suffix of an
  encoding decodes to the same state. `JsonIsLawful` proves all of it of the state's JSON.
- Parallel read-ahead: calls the registry calls concurrent-safe do not change the world.
- Background diagnostics: enqueueing and draining happen on one goroutine, as in the loop.
- The JSON-RPC peer: fewer than 2^63 - 1 outbound calls per connection.

## Model

| member | source | states |
|---|---|---|
| `Text.ApproxTextTokens` | internal/agent/compaction.go:316-326 | The byte loop returns non-space bytes over four, rounded down, so four times the estimate never exceeds the length. |
| `Text.TokensCount` | internal/agent/compaction.go:316-326 | The estimate is a quarter of the number of positions that hold none of the six white-space bytes. |
| `Transcript.EstimateTokens` | internal/agent/compaction.go:332-345 | The nested loops compute the sum over messages of body, call name, call argument, image and overhead tokens. |
| `Transcript.EstimateOfParts` | internal/agent/compaction.go:332-345 | In any history a body costs its tokens, a call those of its name and arguments and four more, an image a thousand, a message four by itself, and an empty history nothing: together that is the whole estimate. |
| `Transcript.EstimateConcat` | internal/agent/compaction.go:332-345 | The estimate of two histories end to end is the sum of their estimates. |
| `Transcript.SuffixesGrow` | internal/agent/compaction.go:332-345 | A suffix that starts n messages earlier costs at least 4n tokens more. |
| `Transcript.WellFormedIffProviderValid` | internal/agent/loop.go:771-780 | A one-pass reader accepts a transcript if and only if its system messages lead, each call is answered at once and in order, and no other tool message occurs. |
| `Prune.ToolNamesByCallId` | internal/agent/prune.go:199-209 | The loops build the last non-empty name per non-empty call id. |
| `Prune.PlaceholdersRecognized` | internal/agent/prune.go:39-95 | Both placeholders are recognized as pruned, whatever the tool name and size, so no body is pruned twice. |
| `Prune.PlaceholderTells` | internal/agent/prune.go:39-95 | Either placeholder tells the tool, a missing name being "tool", and the number of tokens it stands for: two are equal exactly when both agree, for names without a parenthesis. |
| `Prune.CollapseDuplicates` | internal/agent/prune.go:132-151 | The first backward pass replaces exactly the large, unprotected results that have a later live copy of the same key and whose pointer is cheaper. |
| `Prune.ReplaceStale` | internal/agent/prune.go:153-177 | The second backward pass replaces exactly the large, unprotected, uncollapsed bodies with at least 40000 tokens of uncollapsed tool output after them. |
| `Prune.PruneStaleToolOutput` | internal/agent/prune.go:112-194 | Both passes, the 20000-token gate and the copy on write together return the specified history and figure. |
| `Prune.PruneTouchesOnlyStaleResults` | internal/agent/prune.go:112-194 | A changed message is a live tool result before the preserved tail, changed in its body alone, to a recognized and cheaper placeholder. |
| `Prune.PruneKeepsFrames` | internal/agent/prune.go:112-194 | Roles, call ids and the call ids of results are untouched. |
| `Prune.PruneAccounting` | internal/agent/prune.go:179-194 | The reported figure is the exact drop of the token estimate, and is zero with the history unchanged or at least 20000. |
| `Prune.KeyIsInjective` | internal/agent/prune.go:142 | With tool names free of NUL bytes a duplicate key determines both tool and body. |
| `Prune.DuplicateHasLaterCopy` | internal/agent/prune.go:132-151 | Every collapsed result has a later live result with the same key: the same tool exactly when the same body, and both unless a tool name holds a NUL byte. |
| `Prune.RecentBodyIsKept` | internal/agent/prune.go:153-177 | A body without a later copy is kept while fewer than 40000 tokens of uncollapsed tool output follow it. |
| `Prune.NewestCopySurvivesIff` | internal/agent/prune.go:88-93 | The copy a duplicate pointer calls "still in context" survives the same prune if and only if it is in the preserved tail, within the recent-output window, or no costlier than its placeholder. |
| `Prune.NewestCopyCanGo` | internal/agent/prune.go:88-93 | For every tail length, an acceptable history in which the prune replaces a result by a pointer and also the only copy it points at, so no message keeps the body. |
| `Prune.IterationReachesFixpoint` | internal/agent/prune.go:108-111 | Repeating the prune reaches a fixpoint after at most one run per live body. |
| `Prune.IdempotentIff` | internal/agent/prune.go:108-111 | A prune that acted is a fixpoint if and only if the bodies of its input that the window covers, but would not if the pointers of the duplicates after them counted, would save less than 20000 tokens. |
| `Prune.IdempotentWithoutDuplicates` | internal/agent/prune.go:108-111 | One run is a fixpoint when it collapsed no duplicate. |
| `Prune.PruneIsNotIdempotent` | internal/agent/prune.go:108-111 | For every tail length, an acceptable history whose second message the first run keeps and a second run replaces by its placeholder, against the comment. |
| `Tail.SplitTurns` | internal/agent/compaction_tail.go:36-53 | The loop cuts the history into consecutive turns, each opening at its only turn start, from the first start to the end. |
| `Tail.TurnsStartAtAsks` | internal/agent/compaction_tail.go:36-70 | In any such cut a turn starts at a message if and only if it is a user message that opens neither with the summary label nor with the resume cue. |
| `Tail.SplitTurnToBudget` | internal/agent/compaction_tail.go:152-167 | The backward loop returns the least index of the turn whose suffix fits, or -1 when none does. |
| `Tail.PlanTail` | internal/agent/compaction_tail.go:90-139 | For every cap and budget the turn walk returns the least boundary at or after the first real turn that touches at most the capped turns and costs at most max(budget, newest turn), and never cuts the newest turn. |
| `Tail.SplitOldest` | internal/agent/compaction_tail.go:117-138 | Splitting the first turn that does not fit still gives that least boundary. |
| `Tail.TailTokenBudget` | internal/agent/compaction_tail.go:175-187 | A quarter of the window, rounded down, from 8000 to 60000 tokens; 2000 below and 15000 above; zero for an unknown window. |
| `Entries.MergeSkillEntries` | internal/agent/compaction_preserve.go:691-714 | The loops give older entries with the newer body in place, then the new names. |
| `Entries.MergeRecentEdits` | internal/agent/compaction_preserve.go:539-565 | The loops give the older entries not refreshed, then the fresh ones once each in first-seen order with their last body. |
| `Entries.CollectFresh` | internal/agent/compaction_preserve.go:543-554 | Fresh names are collected once each with their last body. |
| `Entries.MergeEntriesOfBuilds` | internal/agent/compaction_preserve.go:691-714 | Merging two first-seen listings is listing the joined order with the joined bodies. |
| `Entries.MergeEditsOfBuilds` | internal/agent/compaction_preserve.go:539-565 | Merging two last-seen listings is listing the joined last-seen order with the joined notes. |
| `Entries.CapSurvivesMerge` | internal/agent/compaction_preserve.go:539-574 | Capping both lists at twenty before a merge leaves the same twenty as merging everything and capping once. |
| `Entries.FirstSeenInOrder` | internal/agent/compaction_preserve.go:219-260 | Of two listed names the one listed first occurs before the other occurs at all. |
| `Entries.LastSeenAt` | internal/agent/compaction_preserve.go:161-173 | A name last seen at some point stands in the order before exactly the names seen after it. |
| `Entries.MergedListing` | internal/agent/compaction_preserve.go:691-714 | After a merge a name of the newer list has exactly its newer entry, and any other name exactly its older ones. |
| `Entries.LastKept` | internal/agent/compaction_preserve.go:539-574 | Of the entries a filter keeps, one is among the last few exactly when few kept ones follow it. |
| `Extract.ExtractLatestPlan` | internal/agent/compaction_preserve.go:64-77 | The nested loops return the last non-empty plan of the todo calls. |
| `Extract.LastSeenOrder` | internal/agent/compaction_preserve.go:161-173 | The two loops keep each path exactly where it occurs last. |
| `Extract.RecentEdits` | internal/agent/compaction_preserve.go:114-156 | The call, result and output loops give the last twenty edited paths in last-edit order with their last notes; `RecentIffFewLater` says which those are. |
| `Extract.LoadedSkills` | internal/agent/compaction_preserve.go:219-260 | The loops give each loaded skill once, in first-seen order, with its last capped body, skipping blank results; `SkillIsListed` says which those are. |
| `Extract.LoadedToolSchemas` | internal/agent/compaction_preserve.go:265-297 | The loops give each loaded tool schema once, in first-seen order, with its last body; `ToolIsListed` says which those are. |
| `Extract.ProjectInstructionEntries` | internal/agent/compaction_preserve.go:329-351 | The loop gives each instruction source once, in first-seen order, with its last body; `InstructionIsListed` says which those are. |
| `Listing.CallsInOrder` | internal/agent/compaction_preserve.go:64-77 | Every call of every message stands among the calls read, after all those of earlier messages and earlier calls of its own. |
| `Listing.LatestPlanIs` | internal/agent/compaction_preserve.go:64-77 | The plan is that of the last todo call whose arguments hold one, and empty if and only if none does. |
| `Listing.PathByIdIs` | internal/agent/compaction_preserve.go:114-135 | A non-empty id stands for the path of the last write or edit call with a path under it, and for nothing if there is none. |
| `Listing.SkillByIdIs` | internal/agent/compaction_preserve.go:219-235 | A non-empty id stands for the skill named by the last skill call under it, and for nothing if there is none. |
| `Listing.SearchIdsAre` | internal/agent/compaction_preserve.go:265-280 | The ids whose results are read for schemas are exactly the non-empty ids of tool-search calls. |
| `Listing.ToolNameIs` | internal/agent/prune.go:199-209 | A result is named by the last call with a name under its id, and by nothing if and only if there is none. |
| `Listing.InstructionIsListed` | internal/agent/compaction_preserve.go:329-351 | A source is listed with a body if and only if that is the non-empty body of the last user message that opens with the heading, after white space, and is an instruction block of the source. |
| `Listing.SkillIsListed` | internal/agent/compaction_preserve.go:219-260 | A skill is listed with a body if and only if that is the capped, trimmed body of the last non-blank result of a call that loads it. |
| `Listing.ToolIsListed` | internal/agent/compaction_preserve.go:265-297 | A tool is listed with a schema if and only if that is the last line naming it in the last tool-search result that lists it. |
| `Listing.EditIsListed` | internal/agent/compaction_preserve.go:114-156 | A path is listed with a note if and only if some write or edit call has the path and the note is that of the last result of its edits, or empty when none answers. |
| `Listing.EditStands` | internal/agent/compaction_preserve.go:161-173 | An edited path stands in the order before exactly the paths edited after its last edit. |
| `Listing.RecentIffFewLater` | internal/agent/compaction_preserve.go:114-156 | A path is among the twenty kept if and only if fewer than twenty others were edited after its last edit. |
| `Preserve.RoundTripIff` | internal/agent/compaction_preserve.go:589-641 | A summary reads back as the state it was given if and only if no label stands in the way: in the encoding, or, when there is nothing to carry, in the prose before something that decodes. |
| `Preserve.PlainProseReadsBack` | internal/agent/compaction_preserve.go:622-641 | With nothing to carry, a prose without the label reads back as nothing. |
| `Preserve.QuotedBlockReadsAsState` | internal/agent/compaction_preserve.go:622-641 | With nothing to carry, a prose whose last label is followed by the encoding of a state reads back as that state. |
| `Preserve.ParsesOwnLine` | internal/agent/compaction_preserve.go:622-641 | Whatever precedes it, a block whose line holds no label is found by the last-label search and read to the end of its line. |
| `Preserve.ParsesLineBeforeMore` | internal/agent/compaction_preserve.go:622-641 | The state is decoded from what follows the last label, or from the line after it, up to the next newline, trimmed, whatever follows; an empty line and a text that does not decode give nothing. |
| `Preserve.LastLabelIsOwn` | internal/agent/compaction_preserve.go:622-641 | The last label is the block's own exactly when the encoding holds none, and otherwise lies inside the encoding. |
| `Preserve.LatestSummaryContent` | internal/agent/compaction_preserve.go:678-686 | The backward loop returns the newest injected summary, or nothing. |
| `Preserve.LatestSummaryIs` | internal/agent/compaction_preserve.go:678-686 | The carried summary is that of the last user message that opens, after white space, with the summary label, and nothing if there is none. |
| `Preserve.AppendPreservedState` | internal/agent/compaction_preserve.go:466-518 | The summary gets the block of a state that carries on the one read back from the previous summary and what the elided messages hold, as `CarriesOn` says of the messages alone. |
| `Preserve.NextStateCarries` | internal/agent/compaction_preserve.go:466-574 | For every earlier state and every slice: the plan is that of the last todo call or the earlier one; an instruction source, a skill or a tool has the body of its last block, load or listing if the slice holds one and otherwise its earlier bodies; of the edits exactly those with fewer than twenty later ones stay; and nothing else is carried. |
| `Json.ParsesEncoding` | internal/agent/compaction_preserve.go:606-610 | Parsing encoded strings, lists and objects gives them back and leaves what followed; the parser is that of the JSON grammar, with white space, numbers, literals and every escape. |
| `JsonGrammar.NumberIsRead` | internal/agent/compaction_preserve.go:631-640 | Every number of the JSON grammar (section 6 of RFC 8259) is read whole, as it is written. |
| `JsonGrammar.NumberIsOne` | internal/agent/compaction_preserve.go:631-640 | Whatever is read as a number is one of that grammar. |
| `JsonGrammar.LiteralsAreRead` | internal/agent/compaction_preserve.go:631-640 | The three literals are read, and what follows is left. |
| `JsonGrammar.Utf8ReadsBack` | internal/agent/compaction_preserve.go:631-640 | The bytes of every code point, in each of the four lengths of UTF-8, read back as it. |
| `JsonGrammar.CodeIsRead` | internal/agent/compaction_preserve.go:631-640 | A coded character outside the surrogates is the code point its four hexadecimal digits write. |
| `JsonGrammar.PairIsRead` | internal/agent/compaction_preserve.go:631-640 | Two coded halves of a pair are the one code point they stand for. |
| `JsonGrammar.HalfIsReplaced` | internal/agent/compaction_preserve.go:631-640 | A half without its other becomes the replacement character, and what follows is read on. |
| `Json.SuffixIsNoObject` | internal/agent/compaction_preserve.go:622-641 | No proper suffix of an encoded object with lower-case keys parses whole as an object, wherever in it the suffix starts: in a text, what follows an opening brace never goes on with a key and a colon. |
| `Json.EncodingHolds` | internal/agent/compaction_preserve.go:606-610 | A mark of plain bytes occurs in a JSON text exactly when a string or field name of the value holds it. |
| `StateCodec.DecodesEncoding` | internal/agent/compaction_preserve.go:418-458 | Decoding the JSON of a state, empty fields left out, gives the state back, field by field. |
| `StateCodec.SpacedPlanIsRead` | internal/agent/compaction_preserve.go:622-641 | The decoder reads more than is written: a plan comes back from a text with a space in it, which is the encoding of no state. |
| `StateCodec.ReadTextIs` | internal/agent/compaction_preserve.go:622-641 | A text field is refused if and only if a value given for it is neither a text nor a null, and is otherwise the last text given. |
| `StateCodec.ReadEntriesRefuses` | internal/agent/compaction_preserve.go:622-641 | A list field is refused if and only if a value given for it is neither a null nor a list of entries. |
| `StateCodec.SuffixIsNoState` | internal/agent/compaction_preserve.go:622-641 | From any later byte on, what is left of a state's encoding decodes to nothing. |
| `StateCodec.JsonIsLawful` | internal/agent/compaction_preserve.go:589-641 | The state's JSON, read by a parser that takes any spacing, order and further keys, meets every law the block asks of an encoding: it decodes to what was encoded, in one trimmed line, and no proper suffix decodes to the same state. |
| `StateCodec.EncodingHoldsIff` | internal/agent/compaction_preserve.go:606-610 | The JSON of a state holds the label exactly when a text of the state does. |
| `StateCodec.StateReadsBackIff` | internal/agent/compaction_preserve.go:611-641 | A written state reads back, whatever the prose before it, if and only if none of its texts holds the label. |
| `StateCodec.LabelInSkillIsLost` | internal/agent/compaction_preserve.go:611-641 | A loaded skill whose body is the label: its state does not read back. |
| `Chain.EditEntriesConcat` | internal/agent/compaction_preserve.go:114-173 | For two slices that answer their own calls, the edits of both are the merge of the edits of each. |
| `Chain.SkillsConcat` | internal/agent/compaction_preserve.go:219-260 | Likewise for loaded skills. |
| `Chain.ToolSchemasConcat` | internal/agent/compaction_preserve.go:265-297 | Likewise for loaded tool schemas. |
| `Chain.InstructionsConcat` | internal/agent/compaction_preserve.go:329-351 | Project instructions of two slices merge without any condition. |
| `Chain.NextStateComposes` | internal/agent/compaction_preserve.go:466-518 | Carrying the state of one slice into the compaction of the next is one scan of both, although each step keeps twenty edits. |
| `Chain.ChainCarriesFullScan` | internal/agent/compaction_preserve.go:466-518 | After any number of compactions the block in the summary decodes to exactly what one scan of every elided message extracts, and so to what `CarriesOn` says of those messages. |
| `Chain.CompactionIsRound` | internal/agent/compaction.go:501-519 | The summary a compaction writes is the one its round of the chain carries, and it opens with the summary label. |
| `Chain.NextElidesSummaryFirst` | internal/agent/compaction.go:438-535 | Whatever is appended after a compaction, the next one elides the previous summary first. |
| `Chain.WellFormedIsSelfContained` | internal/agent/compaction_preserve.go:466-518 | A well-formed slice answers exactly its own calls, so the chain theorem's condition holds of what is elided. |
| `Chain.SliceIsSelfContained` | internal/agent/compaction_preserve.go:466-518 | The same for what follows the previous summary in an elided slice. |
| `Compaction.SafeSuffixBoundary` | internal/agent/compaction.go:543-554 | The backward loop stops on the last assistant at or before the planned boundary, or on the end of the system prefix. |
| `Compaction.PlanBoundary` | internal/agent/compaction.go:449-471 | Either tail mode gives its planned boundary, between the system prefix and the end. |
| `Compaction.CompactMessages` | internal/agent/compaction.go:429-535 | Every error and success of a compaction is the specified answer at a boundary planned by the tail mode and widened to an assistant. |
| `Compaction.AnswersAre` | internal/agent/compaction.go:487-519 | With nothing to elide the history is left alone; otherwise an error of the summarizer is passed on, a trimmed text that fails the summary check is refused, and any other is the summary. |
| `Compaction.CompactionShape` | internal/agent/compaction.go:487-535 | A compacted history is the system prefix, one labelled summary and a verbatim suffix opening with an assistant; that message opens with the label and the whole trimmed text the summarizer gave for what was elided, then the artifacts if there are any; removed plus preserved is the input length. |
| `Compaction.SummaryIsWritten` | internal/agent/compaction.go:499-519 | The text of the summary message, byte for byte: the label, the summary, the artifacts, and the block of a state that carries on the previous one and the elided messages, unless there is nothing to carry. |
| `Compaction.SuffixIsEmptyIff` | internal/agent/compaction.go:465-483 | A compaction leaves no suffix if and only if the legacy mode was asked to preserve nothing. |
| `Compaction.BudgetedTailKeepsNewestTurn` | internal/agent/compaction.go:449-483 | In budgeted mode the newest real user turn lies wholly in the suffix, the planned tail fits its budget and turn cap, and widening crosses no assistant but the one it stops on. |
| `Compaction.CompactionKeepsValidity` | internal/agent/compaction.go:521-535 | The rebuilt history and the elided slice are both acceptable to a strict provider if the input was. |
| `Compaction.DefaultTailIsUnused` | internal/agent/compaction.go:430-433 | The default tail length takes effect in legacy mode only when it was not needed, or when only system messages exist. |
| `CompactionState.ThresholdWithReserve` | internal/agent/compaction.go:375-400 | The trigger is the lower of the ratio's and the window less 4096 tokens in every window of at least 8192, the ratio's in a smaller one, and zero when that is not positive. |
| `CompactionState.ThresholdForRatioIs` | internal/agent/compaction.go:375-400 | The ratio's trigger is that share of the window, rounded down; seven tenths when no ratio is set, and zero for an unknown window. |
| `CompactionState.BlendStaysInBand` | internal/agent/compaction.go:668-683 | A blended calibration ratio stays within 0.5 and 2. |
| `CompactionState.CalibrationConverges` | internal/agent/compaction.go:668-683 | Under a constant sample the ratio's distance from it shrinks by the factor 0.7 every turn, for any number of turns. |
| `CompactionState.CalibratedMonotone` | internal/agent/context_plan.go:37-42 | Calibration never ranks a larger history below a smaller one. |
| `CompactionState.MeasureIs` | internal/agent/context_plan.go:15-42 | The size an attempt goes by is the estimate of the history and the tools, times the learned ratio and rounded down once there is one. |
| `CompactionState.CompactionState.constructor` | internal/agent/compaction.go:691-725 | The initial state takes the reserve-aware trigger and the unbounded budgeted tail from windows of 32000 tokens on. |
| `CompactionState.CompactionState.Calibrate` | internal/agent/compaction.go:668-683 | A usable sample is folded in and the ratio lands in the band; anything else changes nothing. |
| `CompactionState.AttemptShrinks` | internal/agent/compaction.go:760-866 | Whatever path an attempt takes, the low-water mark is the calibrated size of what it returns, which never exceeds the input's and is strictly less when it reports a compaction. |
| `CompactionState.FreeStage` | internal/agent/compaction.go:786-811 | The free stage computes the prune and, with a judge, the judged history over it, falling back to the prune when the judge answers nothing. |
| `CompactionState.ChosenIsNoLarger` | internal/agent/compaction.go:786-811 | Without a judge, or when no replacement text costs more than the body it replaces, what the free stage chooses costs no more than the history. |
| `CompactionState.CompactionState.MaybeCompact` | internal/agent/compaction.go:760-866 | Enabled, with the size above a positive threshold and above the low-water mark if that is set, an attempt is made: the spill budget is reset, the result follows the prune, the judge and the summarizer, the compactor runs if and only if the free stage does not suffice, and the size of the result, when the free stage chose nothing larger, is the mark, so asking again about it does nothing; in every other case nothing changes. |
| `CompactionState.StripMessageImages` | internal/agent/compaction.go:1032-1041 | The loop removes every image and nothing else. |
| `CompactionState.RecoveryRetriesIffSomethingShrinks` | internal/agent/compaction.go:897-955 | A recovery retries if and only if its prune, a compaction, the fallback, or the best of them without images is strictly smaller; it takes the first of them, in that order, that is. |
| `CompactionState.CompactionState.CompactForRecovery` | internal/agent/compaction.go:983-1001 | One recovery attempt answers as the compactor does in the given tail mode. |
| `CompactionState.CompactionState.Recover` | internal/agent/compaction.go:873-977 | Recovery gives up, fails or retries as specified; a retry spends the one attempt of the run, giving up does not, and an error-free retry is strictly smaller. |
| `CompactionState.CompactsKeepsValidity` | internal/agent/compaction.go:429-535 | Whatever the compactor answers about an acceptable history is acceptable. |
| `CompactionState.RecoveryKeepsValidity` | internal/agent/compaction.go:897-955 | A retried history is acceptable when its candidates are. |
| `Judge.JudgeCandidates` | internal/agent/compaction_judge.go:335-400 | The backward scan collects the specified stale items, newest message first. |
| `Judge.CandidateIs` | internal/agent/compaction_judge.go:335-400 | An item is a candidate if and only if the scan offers it from its own message. |
| `JudgeRulings.CandidatesAre` | internal/agent/compaction_judge.go:335-414 | The judge is asked about a tool body, a call's arguments or an assistant's narration if and only if its message is before the tail, free of reasoning and followed by 40000 tokens of tool output, it has 200 tokens, and it is no placeholder, no call of the five tools whose arguments are read, or narration with a call; and it is shown as it stands. |
| `JudgeRulings.JudgedContentIs` | internal/agent/compaction_judge.go:190-260 | Every body after the judge: a result answered below the threshold has its replacement, one answered at or above it its own text, narration answered below it is empty, and any other is as the prune left it. |
| `JudgeRulings.JudgedArgumentsAre` | internal/agent/compaction_judge.go:190-260 | Every call after the judge keeps its id and name, and its arguments are empty exactly when it is a candidate answered below the threshold, and otherwise as they were. |
| `JudgeRulings.ArgumentOfIs` | internal/agent/compaction_judge.go:440-449 | The arguments shown with a result are those of the first call with its id. |
| `JudgeRulings.KeysIdentify` | internal/agent/compaction_judge.go:418-438 | Two items have one key if and only if they are of one kind and have the same trimmed id, or the same position when their ids are no keys; for ids that do not pose as a position. |
| `JudgeRulings.KeysAreSafe` | internal/agent/compaction_judge.go:416-438 | Every key is made of letters, digits, hyphens and underscores. |
| `JudgeRulings.RequestsAreWithinBudget` | internal/agent/compaction_judge.go:266-316 | With ids and tool names of up to 27825 bytes together every request is within 30000 bytes. |
| `JudgeRulings.FirstThousandAreAsked` | internal/agent/compaction_judge.go:266-300 | The requests hold exactly the first thousand items, in order. |
| `JudgeRulings.RepliesAre` | internal/agent/compaction_judge.go:266-300 | An item is answered by the last reply that names it, and not at all if and only if none does. |
| `Judge.JudgeAnswers` | internal/agent/compaction_judge.go:266-300 | The batching loop asks about the first thousand items in the greedily packed requests and unions the replies; failed requests add nothing. |
| `Judge.RequestsPartition` | internal/agent/compaction_judge.go:266-300 | Every item is in exactly one request, in order, and every request is within 30000 bytes or holds a single item. |
| `Judge.CollectEdits` | internal/agent/compaction_judge.go:190-226 | The edit tables hold what the answered candidates ask for and nothing else. |
| `Judge.RewriteToolCallArguments` | internal/agent/compaction_judge.go:318-328 | Exactly the named calls get empty arguments. |
| `Judge.ApplyEdits` | internal/agent/compaction_judge.go:249-260 | Applying the tables over the prune gives the specified judged history. |
| `Judge.JudgeStaleHistory` | internal/agent/compaction_judge.go:133-261 | No answers give no result; otherwise the result is the judged history over the prune under the drop threshold in force. |
| `Judge.DropThreshold` | internal/agent/compaction_judge.go:145-158 | The drop threshold when it is set and within the keep threshold, and otherwise the keep threshold, itself 0.35 when unset. |
| `Judge.JudgeKeepsFrames` | internal/agent/compaction_judge.go:249-260 | No role, call id or result id changes. |
| `Judge.JudgeEditsOnlyStale` | internal/agent/compaction_judge.go:335-355 | Over its floor the judge changes only reasoning-free, unprotected messages with at least 40000 tokens of tool output after them. |
| `Judge.JudgeCoversPrune` | internal/agent/compaction_judge.go:330-334 | Every reasoning-free body the second prune pass would drop is a candidate of the judge, of which the first thousand are asked about. |
| `Judge.JudgeDropsKeptBodyIff` | internal/agent/compaction_judge.go:26-28 | The judge drops a body the prune kept if and only if it is stale by the judge's own count, the answer is below the threshold and the replacement differs. |
| `Judge.JudgeDropsWhatPruneKeeps` | internal/agent/compaction_judge.go:26-28 | For every tail length, an acceptable history the prune leaves alone and from which the judge, answered below the threshold, drops a body, against "only ever keep MORE". |
| `Judge.JudgedIsNoLarger` | internal/agent/compaction_judge.go:198-209 | The judged history costs no more than the original if no replacement text costs more than its body, which the judge does not check. |
| `Commute.PruneCommutes` | internal/agent/compaction_preserve.go:64-260 | The plan, the edited paths in order, the loaded skills in order and the instructions extract alike before and after the prune. |
| `Commute.JudgeCommutes` | internal/agent/compaction_judge.go:402-414 | The same for the judge, when its replacement texts are not blank. |
| `Commute.ToolsAreListed` | internal/agent/compaction_preserve.go:265-297 | The carried tools are exactly those some tool-search result of the slice lists. |
| `Commute.ToolSurvivesPruneIff` | internal/agent/compaction_preserve.go:265-326 | A tool is still carried after the prune if and only if a result the prune kept lists it: a schema whose listing became a placeholder is lost. |
| `Commute.LoadedToolIsLost` | internal/agent/compaction_preserve.go:265-326 | For every tail length and every large listing, an acceptable history whose schema is carried and is gone once it is pruned. |
| `Commute.SkillBodySurvivesPruneIff` | internal/agent/compaction_preserve.go:219-260 | A carried skill body is unchanged by the prune if and only if the result it is read from was kept; otherwise the placeholder is carried. |
| `Commute.SkillBodyIsLost` | internal/agent/compaction_preserve.go:219-260 | For every tail length and every large skill body, an acceptable history whose body is carried and is gone once it is pruned. |
| `Commute.EditNoteSurvivesPruneIff` | internal/agent/compaction_preserve.go:114-156 | The note of an edited path is unchanged by the prune if and only if the result it is read from was kept, when the tool's name is one line; otherwise it is read off the placeholder. |
| `Commute.EditNoteIsLost` | internal/agent/compaction_preserve.go:114-156 | For every tail length and every large edit result, an acceptable history whose note is listed and is gone once it is pruned. |
| `Summarizer.CallsBounded` | internal/agent/compaction.go:1072-1112 | At most 3n - 2 provider calls for n messages, whatever the provider answers. |
| `Summarizer.BoundIsTight` | internal/agent/compaction.go:1072-1112 | A provider that takes one message at a time reaches that bound for every n. |
| `Summarizer.SuccessPartitions` | internal/agent/compaction.go:1072-1112 | On success the slices consumed by successful calls are non-empty, in order, and make up the history. |
| `Summarizer.SummarySumsUp` | internal/agent/compaction.go:1072-1112 | A summary is the provider's for the messages as they are, or, from texts that sum up the first and the second half, the provider's for those joined in order, or the joined text itself when that does not fit. |
| `Summarizer.ErrorsAreTheProviders` | internal/agent/compaction.go:1072-1112 | An error that surfaces is what the provider answered at the last call of the run; a context-limit error was for a single message of the history. |
| `TurnLoop.HistorySafeToolCalls` | internal/agent/loop.go:1347-1372 | Recorded calls keep ids, names and order; valid arguments stay as they are, recoverable ones become their first object and any others an empty one, and all of them replay as valid JSON. |
| `TurnLoop.AppendAbortedToolResults` | internal/agent/loop.go:3447-3456 | One placeholder result per remaining call, in order. |
| `TurnLoop.RunToolBatch` | internal/agent/loop.go:920-1046 | The batch stops after the first call that aborts or is canceled, approves a plan or trips the failure guard, in that precedence; each call that ran has its own output under the id it answered with, and each later one is closed out under its own id. |
| `TurnLoop.ImagesInOrder` | internal/agent/loop.go:1040-1046 | The images of a batch are those of its calls, each in its place. |
| `TurnLoop.BatchIsWellFormedIff` | internal/agent/loop.go:965-1015 | Whatever ends a batch, the transcript stays acceptable if and only if each consumed result carries its call's id. |
| `PlanMode.ExitPlanMode` | internal/agent/plan_mode.go:95-143 | By its branches, the result carries the call's id if and only if it is not the case that plan mode is on, a user is asked and the prompt fails; only that aborts, and only a yes approves. |
| `PlanMode.SaysYesIff` | internal/agent/plan_mode.go:121 | The answer is yes if and only if the first one opens, after white space, with y, e and s in either case. |
| `PlanMode.FailedPromptEndsBatch` | internal/agent/loop.go:965-1015 | A failed prompt ends its batch at its own call, as an aborted run. |
| `PlanMode.PlanExitKeepsReplayIff` | internal/agent/plan_mode.go:117-120 | When every other call answers under its id, the transcript after the batch is acceptable if and only if the prompt did not fail. |
| `PlanMode.CanceledPromptBreaksReplay` | internal/agent/plan_mode.go:117-120 | After any acceptable history, one exit_plan_mode call whose prompt fails leaves a transcript a strict provider refuses. |
| `TurnLoop.RefusedForever` | internal/agent/loop.go:965-1015 | A refused transcript is not repaired by anything appended later. |
| `TurnLoop.ToolTurn` | internal/agent/loop.go:771-1090 | A tool turn appends the reply as recorded, the output of each call that ran and the closing notice of each other, and, only when the run goes on, one message with the images if there are any and one per notice. |
| `TurnLoop.SeedRunMessages` | internal/agent/initial_messages.go:5-27 | The seed is the system prompt, the kept history and the user prompt. |
| `TurnLoop.KeptAt` | internal/agent/initial_messages.go:14-35 | The kept history takes each message in order, unless it is a system text or has neither content, calls, id, images nor reasoning. |
| `TurnLoop.SeedIsWellFormedIff` | internal/agent/initial_messages.go:5-35 | Resuming an acceptable history starts from an acceptable transcript if and only if no result in it lacks both id and content, since the seed drops such a result. |
| `TurnLoop.EmptyResultBreaksSeed` | internal/agent/initial_messages.go:15-19 | Such a history: a call without an id answered by an empty result is acceptable, and the run seeded from it is not. |
| `TurnLoop.EventEffects` | internal/agent/loop.go:341-1190 | A notice appends one user message, a reply one assistant message without calls, a turn the reply and one result a call; stripping images and editing a system text change nothing else. |
| `TurnLoop.EventKeepsValidity` | internal/agent/loop.go:341-1190 | Every event of the loop keeps the transcript acceptable, compaction, pruning and judging included; a tool turn is one whose consumed results carry their calls' ids. |
| `TurnLoop.RunsStayWellFormed` | internal/agent/loop.go:341-1190 | Every transcript of every run from an acceptable start is acceptable, when the results each turn consumes carry their calls' ids. |
| `CarriedRun.EventCarries` | internal/agent/loop.go:341-1190 | Every event of the loop, with results under their calls' ids and no false summary, keeps the one summary in place, with one more round when it is a compaction that elides. |
| `CarriedRun.SummaryHoldsEverythingElided` | internal/agent/compaction_preserve.go:466-518 | In any run, at any point after the first compaction, the message after the system texts is the summary, and its block decodes to what one scan of everything elided so far extracts, which `CarriesOn` says of those messages. |
| `CarriedRun.JsonSummaryHoldsEverythingElided` | internal/agent/compaction_preserve.go:466-641 | The same with the state's own JSON, where what is left to ask is unique call ids, named instruction sources and no carried text that holds the label. |
| `ParallelTools.ResourceKeysConflict` | internal/agent/parallel_tools.go:112-132 | Two key lists conflict if and only if they share a non-empty key. |
| `ParallelTools.ExtendParallelRun` | internal/agent/parallel_tools.go:138-163 | The run is concurrent-safe and pairwise free of conflicts, and no longer run from the same start is. |
| `ParallelTools.ExecuteParallelReadBatch` | internal/agent/parallel_tools.go:174-218 | In every completion order each call runs once, its own slot gets its sequential result, and the world is unchanged. |
| `ParallelTools.RunCalls` | internal/agent/loop.go:920-953 | With read-ahead the consumed results, the stopping point and the world are those of running the calls one by one; consumed calls run exactly once and no call twice. |
| `BatchExecutor.StartInv` | internal/agent/parallel_tools.go:194-200 | The initial state meets the invariant. |
| `BatchExecutor.MoveKeepsInv` | internal/agent/parallel_tools.go:201-218 | Every step keeps both semaphores equal to their holders and every result in its own slot. |
| `BatchExecutor.ReleaseNeverBlocks` | internal/agent/parallel_tools.go:205-211 | A releasing goroutine always finds its token. |
| `BatchExecutor.ConcurrencyBounded` | internal/agent/parallel_tools.go:195-200 | No reachable state runs more than eight calls or four sub-agents. |
| `BatchExecutor.NeverStuck` | internal/agent/parallel_tools.go:201-218 | Until all are done some goroutine can move, even when waiting sub-agents hold every read slot. |
| `BatchExecutor.MoveCountsDown` | internal/agent/parallel_tools.go:201-218 | Every step brings the batch exactly one step closer to its end. |
| `BatchExecutor.FiveMovesEach` | internal/agent/parallel_tools.go:201-218 | A batch of n calls has at most 5n steps. |
| `BatchExecutor.EveryRunFinishes` | internal/agent/parallel_tools.go:194-218 | Any interleaving keeps the invariant and, when it cannot go on, has finished with each result in its own slot. |
| `Diagnostics.AsyncDiagnostics.constructor` | internal/agent/async_diagnostics.go:72-83 | A new collector is empty. |
| `Diagnostics.AsyncDiagnostics.Enqueue` | internal/agent/async_diagnostics.go:85-106 | Enqueueing drops the block of each path not queued yet and of no other, appends the new paths in the order given, each once, and starts a worker if and only if there is work and none runs. |
| `Diagnostics.AsyncDiagnostics.Next` | internal/agent/async_diagnostics.go:108-122 | The worker takes the oldest path and unmarks it, and no block changes, or it ends. |
| `Diagnostics.AsyncDiagnostics.Store` | internal/agent/async_diagnostics.go:126-132 | A block is kept under its path, a clean check removes the one that was there, and nothing else changes. |
| `Diagnostics.AsyncDiagnostics.Drain` | internal/agent/async_diagnostics.go:184-201 | A drain takes every stored block. |
| `Diagnostics.EventKeepsInv` | internal/agent/async_diagnostics.go:85-202 | Every atomic step of the loop and the worker keeps the queue, freshness and worker invariants. |
| `Diagnostics.RunsKeepInv` | internal/agent/async_diagnostics.go:85-202 | So does every interleaving. |
| `Diagnostics.AtMostOneWorker` | internal/agent/async_diagnostics.go:101-105 | A worker is started only when none is live. |
| `Diagnostics.DeliveredBlocksAreFresh` | internal/agent/async_diagnostics.go:168-202 | In any run a delivered block is the one the last check of its file stored; the file was not enqueued since the worker took it for that check if and only if it is not queued again, which without cancellation is always so. |
| `Diagnostics.StoredBlockIs` | internal/agent/async_diagnostics.go:85-134 | In any run a file has a stored block if and only if its last check found one and no delivery and no edit that queued the file came since, and it is that block: after a clean check there is none. |
| `Diagnostics.EditsAreChecked` | internal/agent/async_diagnostics.go:85-134 | Once no worker runs, uncanceled, every file ever enqueued has a check the worker began after it was last enqueued. |
| `Diagnostics.ErrorIsDelivered` | internal/agent/async_diagnostics.go:85-202 | A run without cancellation in which an edited file's block is delivered and consumed. |
| `Diagnostics.CanceledDrainCanBeStale` | internal/agent/async_diagnostics.go:112-116 | A run from the empty collector that ends in a drain delivering a block stored before its file's last edit was checked. |
| `Diagnostics.ResultsAreNotLost` | internal/agent/async_diagnostics.go:85-134 | A stored block leaves or changes only by delivery, a newer edit of its path or a newer check of it. |
| `Diagnostics.WorkerProgress` | internal/agent/async_diagnostics.go:108-134 | A live worker can always step. |
| `Diagnostics.WorkerStepsCountDown` | internal/agent/async_diagnostics.go:108-134 | Each of its steps brings it one closer to leaving. |
| `Diagnostics.QuietMeansChecked` | internal/agent/async_diagnostics.go:85-134 | Once no worker runs, every edited file has a check begun after its last edit. |
| `Diagnostics.WaiterIsReleased` | internal/agent/async_diagnostics.go:168-183 | A waiting drain's channel is closed, about to be closed, or that of a worker that can step. |
| `JsonRpc.Conn.Register` | internal/acp/jsonrpc.go:214-225 | A call gets the next id and an empty channel, or is refused after the end. |
| `JsonRpc.Conn.Unregister` | internal/acp/jsonrpc.go:227-231 | A returning call leaves the table. |
| `JsonRpc.Conn.Take` | internal/acp/jsonrpc.go:260-268 | Delivery takes a channel out of the table at most once. |
| `JsonRpc.Conn.TrySend` | internal/acp/jsonrpc.go:271-278 | A send that does not block fills an empty channel and leaves a full one alone. |
| `JsonRpc.Conn.FailAllPending` | internal/acp/jsonrpc.go:281-293 | In whatever order the map is walked, every pending empty channel gets the error, others keep theirs, and the connection is closed with an empty table. |
| `JsonRpc.EventKeepsInv` | internal/acp/jsonrpc.go:209-293 | Every atomic step of callers and read loop keeps the invariant of every call id. |
| `JsonRpc.RunsKeepInv` | internal/acp/jsonrpc.go:209-293 | So does every interleaving. |
| `JsonRpc.IdsAreNeverReused` | internal/acp/jsonrpc.go:219-223 | A registering call's id was never used before in the run and fits 64 bits. |
| `JsonRpc.SendNeverDrops` | internal/acp/jsonrpc.go:269-293 | The target of a send is always empty, so no frame is dropped. |
| `JsonRpc.CallsGetTheirOwnResponse` | internal/acp/jsonrpc.go:237-248 | A call that returns a response returns the first one with its own id after it registered; a connection error comes only after the end. |
| `JsonRpc.ReturnedIsFirstResponse` | internal/acp/jsonrpc.go:237-279 | A call that returns a response returns the payload of the first response event for its id after the event that registered it, for every run. |
| `JsonRpc.CallReturns` | internal/acp/jsonrpc.go:214-279 | A run in which a call is registered, answered, released and returns the answer. |
| `JsonRpc.CallFails` | internal/acp/jsonrpc.go:214-293 | A run in which a waiting call returns the error of the connection's end. |
| `JsonRpc.FirstResponseIsKept` | internal/acp/jsonrpc.go:260-268 | The first response of a call is recorded when it arrives and never overwritten. |
| `JsonRpc.NoLostWakeup` | internal/acp/jsonrpc.go:281-293 | After the end every waiting call has a message or is about to be sent one, and no call registers. |
| `JsonRpc.DeliveredCallIsReleased` | internal/acp/jsonrpc.go:260-279 | A call whose response arrived is never left waiting without a message on the way. |
| `JsonRpc.HandleLine` | internal/acp/jsonrpc.go:151-186 | A line that does not parse is answered with -32700 and one of another version that has an id with -32600; one with a method and an id is dispatched, one with an id alone delivered, and any other ignored, so the last branch is dead. |
| `JsonRpc.DispatchRequest` | internal/acp/jsonrpc.go:188-205 | Exactly one answer under the request's id, a result or the error of the case. |
| `JsonRpc.ServedKeeps` | internal/acp/jsonrpc.go:120-186 | Reading a line or answering a request keeps the count of answers per line. |
| `JsonRpc.EveryRequestAnsweredOnce` | internal/acp/jsonrpc.go:120-205 | However handlers interleave, no line is answered twice, every answer is its own line's, and at the end exactly the requests and refused lines are answered. |
| `JsonRpc.ServingGoesOn` | internal/acp/jsonrpc.go:120-205 | Until the stream is read and every handler is done something can be done. |
| `JsonRpc.ServingCountsDown` | internal/acp/jsonrpc.go:120-205 | And whatever is done leaves less to do. |
| `Guards.NoActionSuffixIsLongest` | internal/agent/guardrails.go:586-592 | The counted streak is the longest suffix of silent, dropped-call or degenerate turns. |
| `Guards.EmptyAtMostNoAction` | internal/agent/guardrails.go:705-722 | The empty-turn counter never exceeds the no-action counter. |
| `Guards.EmptyCountIs` | internal/agent/guardrails.go:705-722 | The empty-turn counter is the number of fully empty turns after which no turn acted or reasoned. |
| `Guards.StopsExactlyAtTheCap` | internal/agent/guardrails.go:754-777 | A run not stopped before is stopped exactly when the no-action streak reaches six or the empty count three. |
| `Guards.FailureStreakIsLongest` | internal/agent/guardrails.go:672-698 | The failure count is the longest suffix of same-signature failures. |
| `Guards.CallKeyIdentifies` | internal/agent/guardrails.go:620-625 | With names free of NUL bytes a key stands for one name and one argument string. |
| `Guards.NoOpPotential` | internal/agent/guardrails.go:636-667 | Each new key buys six turns: an unstopped history has at most six per key, less five, plus the running streak. |
| `Guards.NoOpGuardTerminatesRun` | internal/agent/guardrails.go:636-667 | A run whose turns change no file and draw on K calls is stopped within 6K + 1 tool turns. |
| `Guards.NoOpBoundIsTight` | internal/agent/guardrails.go:636-667 | For every list of K calls a history of 6K turns is never stopped. |
| `Guards.ReminderGiven` | internal/agent/guardrails.go:813-819 | Giving a reminder when due keeps at most one per streak. |
| `Guards.RemindersAfter` | internal/agent/guardrails.go:728-733 | Adding a turn keeps every reminder due and at most one per streak. |
| `Guards.RecordAfterFailure` | internal/agent/guardrails.go:680-697 | A record counts the streak of its tool: the hint comes exactly at the second failure and the stop from the sixth. |
| `Guards.NoOpCountersAfter` | internal/agent/guardrails.go:645-666 | The no-op counter is the suffix of repeating turns: the hint comes exactly at the third and the stop from the sixth. |
| `Guards.GuardState.constructor` | internal/agent/guardrails.go:613-618 | New guard state summarizes an empty history. |
| `Guards.GuardState.ObserveTurn` | internal/agent/guardrails.go:705-755 | The counters follow the turn history and the stop is the specified one. |
| `Guards.GuardState.ObserveNoActionTurn` | internal/agent/guardrails.go:763-768 | Likewise for a turn whose calls were dropped. |
| `Guards.GuardState.ObserveDegenerateTurn` | internal/agent/guardrails.go:772-777 | Likewise for a turn cut off for repeating itself. |
| `Guards.GuardState.NoActionReminder` | internal/agent/guardrails.go:813-819 | The reminder comes from the third turn of a streak on and once per streak. |
| `Guards.GuardState.ObserveToolResult` | internal/agent/guardrails.go:672-698 | A tool's attempts are recorded and judged alone; other tools are untouched. |
| `Guards.GuardState.ObserveNoOpToolCalls` | internal/agent/guardrails.go:636-667 | A turn counts exactly when all its keys were seen before and no file changed. |
| `ToolGate.GateBlocks` | internal/agent/tool_gate.go:405-425 | The loop cuts every line list into consecutive blocks within the caps, each unable to take one more line, or returns none exactly when one block would do. |
| `ToolGate.GreedyIsMinimal` | internal/agent/tool_gate.go:398-404 | No cut within the caps has fewer blocks. |
| `ToolGate.LargeBodiesSplit` | internal/agent/tool_gate.go:34-38 | A body of two or more lines splits if and only if it has more than 25 lines or at least 1500 bytes. |
| `ToolGate.WithDefaults` | internal/agent/tool_gate.go:313-346 | An unset knob takes its default, a set one is kept; only a drop threshold above the keep one is lowered to it, and a ceiling below the floor raised to it. |
| `ToolGate.HideBlocks` | internal/agent/tool_gate.go:217-272 | A block is hidden if and only if it was answered below the drop threshold; the lines are counted, and an error, nothing to hide, a share below the floor or not below the ceiling, a shadow run and a failed spill each keep the result, in that order. |
| `ToolGate.RenderGated` | internal/agent/tool_gate.go:553-575 | The loops render shown blocks line by line and each run of hidden ones as one gap. |
| `ToolGate.RenderingReplays` | internal/agent/tool_gate.go:553-575 | Replaying the kept lines and gap counts against the body rebuilds all of it in order. |
| `ToolGate.ShownIffNotHidden` | internal/agent/tool_gate.go:553-575 | A line of the body is shown if and only if its block is not hidden. |
| `ToolGate.GapsAreMerged` | internal/agent/tool_gate.go:560-566 | No two gap markers are adjacent. |
| `ToolGate.RenderingCounts` | internal/agent/tool_gate.go:553-575 | On every cut the gaps count exactly the hidden lines, and the lines shown are all the others. |
| `ToolGate.PrunedShowsAShare` | internal/agent/tool_gate.go:240-288 | A rewritten result shows more of its lines than lie above the ceiling and no more than above the floor; some block is hidden and, with a ceiling of at most one, some block is left. |
| `Editor.OffsetsAndPositions` | internal/acp/unstable.go:87-108 | Positions and offsets 0 to the length are in one-to-one correspondence. |
| `Editor.PositionsOrdered` | internal/acp/unstable.go:87-108 | The correspondence keeps order, lines first. |
| `Editor.ByteOffset` | internal/acp/unstable.go:87-108 | The line-skipping loop finds the byte whose position is asked for, or -1 when there is none. |
| `Editor.ApplyRangeEdit` | internal/acp/unstable.go:75-84 | The edit replaces the range, or everything when the range is not one. |
| `Editor.PositionsAreFound` | internal/acp/unstable.go:87-108 | An offset exists for a position if and only if it names a line of the text and a byte of that line, or its end. |
| `Editor.EditIsLocalIff` | internal/acp/unstable.go:75-84 | An edit replaces the whole document, whatever its text, if and only if an end names no line and byte of the text, the range runs backwards, or it spans everything; any other keeps what lies before and after the range. |
| `Editor.EditIsUndone` | internal/acp/unstable.go:75-84 | Putting the replaced text back over the new one restores the document, for every text and range. |
| `Editor.Session.SetDocument` | internal/acp/unstable.go:24-35 | Opening records the buffer and keeps a known language when none is given. |
| `Editor.Session.ApplyDocumentChange` | internal/acp/unstable.go:41-57 | Changes are applied in order and the version recorded; no other document changes. |
| `Editor.Session.RemoveDocument` | internal/acp/unstable.go:59-63 | Closing forgets the document and no other. |
| `Editor.FullChangeResets` | internal/acp/unstable.go:47-53 | A whole-document change makes everything before it irrelevant. |
| `Editor.ChangeIsUndone` | internal/acp/unstable.go:41-84 | A range change to a buffer has the text it asks for, and the change that puts the replaced text back restores the buffer. |

## Left out

- White space beyond ASCII: `strings.TrimSpace` also trims two Latin-1 and some Unicode spaces, which the byte model does not; lower-casing is that of ASCII.
- The argument readers, UTF-8 truncation, secret redaction and the wording of notices: functions of the text they read, or arbitrary texts.
- Bytes that are not UTF-8, which the JSON encoder and decoder replace; the encoder's escapes of two line separators; keys that match a field only by Unicode case folding; lists and tasks given twice in one object, which the decoder merges; its limit on nesting; and the counters of a carried task.
- Floating point: ratios, thresholds and probabilities are reals, and conversion to an integer is the floor.
- Integer width: token counts, lengths and counters are unbounded, except the id counter of the JSON-RPC peer.
- Provider streaming, reconnects, stall retries, heartbeats, tracing, usage reports and compaction events.
- Tool bodies, permissions, sandbox, hooks, and how the registry decides that a call is concurrent-safe or which resources it names.
- The ranking of durable artifacts the judge carries into a summary; the block they form is an arbitrary text, placed where the program places it.
- What the classifier is asked: only which items go into which request and what an answer changes.
- Spilling of dropped bodies and its budget: a replacement is an arbitrary text per message, and only the reset of the budget is modelled.
- The gate's error belt, spill, coverage question, re-query and classifier batches, and the text of its stub.
- Prompt assembly, guidelines, skills discovery, learning notes, model escalation and completion policy: in a run they appear only as the messages they append or the system text they edit.
- The plan trackers and the tool-only reminder of the guards: counters of the same shape as those proved.
- The order of blocks within one delivered diagnostics nudge: a drain gives blocks by path, which the program sorts and joins.
- Write errors, `ctx` and the write lock of the JSON-RPC peer: a failed write and a canceled context are the same step of a call.
- The rest of the ACP session: handlers, configuration, elicitation and wire types.
- JudgeCommutes: replacement texts are taken to be non-blank, because a blank one would remove a loaded skill from the list.
