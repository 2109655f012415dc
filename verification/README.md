# A verified model of the conversation-context engine

The engine keeps the append-only transcript of a conversation: messages, compact boundaries and summaries, Snips,
attachments and hook results. It compacts the transcript around a pivot while a summary is awaited from a model,
carries Snips across compactions, and projects what is left to what a provider sees. There are two projections of
the same state: a generic one that slices at the last boundary, and a Claude one that replays an explicit recipe
and appends a continuation. This project states what these parts promise and proves it.

The modules follow the program:

- `Transcript`, `Identifiers`, `ProviderMessage`, `Sequences`: records, ids and the reads all projections start from.
- `ToolProtocol`: the tool-pair assertion, read as a small automaton over tool events, with an algebra of cutting
  and joining conversations.
- `RoundCut`, `ApiRounds`: where a compaction or a truncation may cut.
- `PairCut`, `ToolGate`, `MaskedPair`: tool pairs across a cut, and the integrity gate behind it. Search and gate also
  look for tool blocks in strings, the assertion does not: the exact conditions under which this matters.
- `SnipRebase`, `Compaction`, `CompactionOffer`, `CompactionInstall`, `CompactionOutcome`, `CompactionProtocol`: when
  a compaction is offered, and from the candidate to the installed transcript, its recipe and its views.
- `SummaryShown`, `OlderSummary`: where the text of a summary stands after an install, how long it stays, and what the
  projections hand on of it.
- `RowRemoval`, `SnipProtocol`: which rows may be taken out of a conversation without breaking the tool protocol.
- `ContextRuns`, `ProtocolRuns`, `StrandedCall`: whole histories of append, Snip and compact steps, against a plain
  list with a log of commits; what they keep of the tool protocol, and a run that breaks it.
- `ConversationState`, `CompactionRace`, `StateRefinesRace`: the mounted state with its object identities, every
  interleaving of writers and compactions around the wait, and that the first is an instance of the second.
- `MutationPipeline`: the per-owner promise chain as a transition system and as a class.
- `ClaudeProjector`, `SessionMemoryView`, `Microcompact`, `Attachments`: the provider views. `ProviderViews` and
  `HistoryView` say what a view consists of in terms of the records alone.
- `RequestBudget`: policy, planner and pressure gate. `Usage`, `UsageLedger`: the usage log and its buckets.
- `EventCorrelation`: the event correlator of the smoke script.

Conventions. A *mounted* context (`Compaction.Mounted`) has unique exact ids, at most one compact boundary, in
front, carrying the active commit, and a recipe, if one was written, that lists a prefix of the transcript and
archives only what is gone; it is proved of the empty context and preserved by every step. Ids that the program mints at random are
assumed to be unknown to the context (`FreshId`, `FreshExtras`). The token counter and the repeat rule of the
correlator are arbitrary functions. Identity of a mutable object is the object itself in `ConversationState`, and
the number of the write that created it in `CompactionRace`: every writer of the source replaces the list or the
replacement set by a fresh object. Where code and comment disagree the model follows the code: the exact condition
under which the promise holds is then a lemma, next to a concrete counterexample.

## Model

| member | source | states |
|---|---|---|
| `Transcript.FindLastCompactBoundaryIndex` | apps/protocol-bridge/src/context/context-transcript-events.ts:218-227 | The index found holds a compact boundary and none follows it; -1 says that there is none. |
| `Transcript.CollectSnippedIds` | apps/protocol-bridge/src/context/context-transcript-events.ts:239-253 | The nested loops collect exactly the ids that some Snip boundary lists as removed. |
| `Transcript.DeriveCompactionHistory` | apps/protocol-bridge/src/context/context-transcript-events.ts:264-276 | The loop yields the valid commits of all boundaries, oldest first. |
| `Transcript.HistoryInOrder` | apps/protocol-bridge/src/context/context-transcript-events.ts:264-276 | For any transcript the derived history is that of the boundaries that carry a commit, in the order of the transcript. |
| `Transcript.LeadingBoundary` | apps/protocol-bridge/src/context/context-transcript-events.ts:229-276 | With one boundary, in front, the window is the whole transcript, the active commit is the one it carries and the history is that commit alone. |
| `ToolProtocol.CheckBlocks` | apps/protocol-bridge/src/context/claude-conversation-projector.ts:440-498 | Walking the blocks of one message performs exactly the protocol steps of its tool events, with the same first error. |
| `ToolProtocol.AssertToolPairs` | apps/protocol-bridge/src/context/claude-conversation-projector.ts:422-506 | The assertion passes if and only if the protocol accepts the conversation; otherwise it reports the error the protocol stops at. |
| `ToolProtocol.AcceptsIffWellPaired` | apps/protocol-bridge/src/context/claude-conversation-projector.ts:422-506 | Independent meaning of the assertion: roles and ids are right, no id is used or answered twice, every answer follows its use, and every use is answered before the next assistant message and before the end. |
| `ToolProtocol.RefusalNamesFirst` | apps/protocol-bridge/src/context/claude-conversation-projector.ts:422-506 | The error of a refusal names what is wrong with the first event that cannot follow what is before it, or that a call is open at the end. |
| `ToolProtocol.RunMeaning` | apps/protocol-bridge/src/context/claude-conversation-projector.ts:422-506 | At every point the bookkeeping sets are the used and the answered ids, and the walk has not failed if and only if the events so far are well formed and well ordered. |
| `ToolProtocol.EventsOfMessage` | apps/protocol-bridge/src/context/claude-conversation-projector.ts:422-498 | What the walk sees of one more message: that an assistant speaks, then each tool block of a block list, in order, with its id and the role of the message; strings say nothing to it. |
| `ToolProtocol.CutPreserves` | apps/protocol-bridge/src/context/claude-conversation-projector.ts:422-506 | Cutting an accepted conversation anywhere that severs no pair leaves two accepted conversations with disjoint tool ids. |
| `ToolProtocol.JoinPreserves` | apps/protocol-bridge/src/context/claude-conversation-projector.ts:422-506 | Two accepted conversations without a common tool id may be put one after the other. |
| `RoundCut.IndexToolBlocks` | apps/protocol-bridge/src/context/context-compaction.service.ts:309-318 | The two maps hold, for exactly the ids that occur, the index of the last record that uses and that answers the id. |
| `RoundCut.FirstSiblingBefore` | apps/protocol-bridge/src/context/context-compaction.service.ts:324-341 | The scan for an earlier record of the same provider response stays put if and only if the record opens its response. |
| `RoundCut.PullBeforeSeveredPairs` | apps/protocol-bridge/src/context/context-compaction.service.ts:343-353 | One pass over the pairs, in any order, never goes below a tool-safe cut, and moves if and only if the cut severs a pair. |
| `RoundCut.ResolveStructuredRoundStart` | apps/protocol-bridge/src/context/context-compaction.service.ts:305-356 | The fixpoint search terminates; its result severs no pair, opens its response, is at or above every safe cut up to the pivot, and is the pivot itself whenever that is already such a cut. |
| `RoundCut.GreatestSafeCut` | apps/protocol-bridge/src/context/context-compaction.service.ts:305-356 | With contiguous responses the result is exactly the greatest cut up to the pivot that splits neither a pair nor a response. |
| `RoundCut.ResponsesWholeIffNoExposedGap` | apps/protocol-bridge/src/context/context-compaction.service.ts:273-356 | The promise never to cut a response, for all pivots, holds if and only if no record inside the span of a response opens a response of its own outside every tool pair. |
| `RoundCut.GappedResponseIsCut` | apps/protocol-bridge/src/context/context-compaction.service.ts:324-341 | Counterexample to that promise: two records of one response with a user message between them; with the pivot there, the search cuts the response. |
| `RoundCut.SplitContextCompactionRecords` | apps/protocol-bridge/src/context/context-compaction.service.ts:278-303 | The split is refused for an empty source, an absent pivot or an empty side, and otherwise is the two sides of the source at the resolved cut, by mode. |
| `PairCut.SplitKeepsToolPairsIff` | apps/protocol-bridge/src/context/context-compaction.service.ts:278-356 | For every mode and cut, both sides of a split of an accepted source are accepted, unless it is a partial one and the cut severs a real pair. |
| `PairCut.SeveredBehindText` | apps/protocol-bridge/src/context/context-compaction.service.ts:305-356 | A cut that the search takes for safe severs a real pair only if a string behind the cut parses to another use of its id. |
| `PairCut.CutsWholeIffNoExposedPair` | apps/protocol-bridge/src/context/context-compaction.service.ts:305-356 | Of an accepted source, every cut that the search may return for some pivot leaves two accepted sides, if and only if no real pair is exposed by a string that parses to another use. |
| `RoundCut.SplitSides` | apps/protocol-bridge/src/context/context-compaction.service.ts:278-303 | Whatever the mode and cut, the two sides of a split are the source, in its order. |
| `ToolGate.GatePassesIff` | apps/protocol-bridge/src/context/context-compaction.service.ts:1456-1482 | Where no real pair is severed, the gate behind the split refuses if and only if a string is at fault. |
| `ToolGate.GateRefusesOnlyTexts` | apps/protocol-bridge/src/context/tool-integrity.service.ts:229-275 | The gate never objects to real blocks: of accepted rows it refuses exactly those whose strings embed a repeated use, an answer without use, or an assistant use without answer. |
| `ToolGate.GateIsExact` | apps/protocol-bridge/src/context/tool-integrity.service.ts:229-275 | Rows that pass the gate really answer exactly their real calls, if and only if no string deceives the gate about an id. |
| `ToolGate.PassedCutIsWholeIff` | apps/protocol-bridge/src/context/context-compaction.service.ts:1456-1482 | Whatever cut of an accepted source passes the gate, both sides are accepted, if and only if no severed pair is masked by an embedded answer on the first side and an embedded use on the second. |
| `ToolGate.HiddenUseIsRefused` | apps/protocol-bridge/src/context/context-compaction.service.ts:1456-1482 | The split around the hidden use of that counterexample is refused by the gate, for every cut that the search may return. |
| `PairCut.HiddenUseSeversPair` | apps/protocol-bridge/src/context/context-compaction.service.ts:309-318 | Counterexample for a string that parses as a tool block: the conversation is accepted, yet every cut the search may return for this pivot leaves a second side that is not. |
| `ApiRounds.GroupMessagesByApiRound` | apps/protocol-bridge/src/context/api-round-grouping.ts:19-48 | The groups concatenate to the input, none is empty, and they begin exactly at the assistant messages that follow another role. |
| `ApiRounds.RoundsAreAccepted` | apps/protocol-bridge/src/context/api-round-grouping.ts:10-48 | If a conversation passes the tool-pair assertion, so does every group alone and every suffix that starts at a group. |
| `ApiRounds.FirstKeptGroup` | apps/protocol-bridge/src/context/api-round-grouping.ts:78-91 | Walking back keeps the longest tail of groups within the target, or only the last group when that alone exceeds it. |
| `ApiRounds.FindRoundAlignedTruncationIndex` | apps/protocol-bridge/src/context/api-round-grouping.ts:67-104 | The returned index is a group start, the kept tail is the best one, and the branch for "nothing fits" cannot be reached. |
| `ApiRounds.TruncationKeepsToolPairs` | apps/protocol-bridge/src/context/api-round-grouping.ts:59-104 | What truncation keeps of an accepted conversation is accepted, and the best tail is unique. |
| `SnipRebase.RebaseSnipBoundariesIntoCompactProjection` | apps/protocol-bridge/src/context/context-compaction.service.ts:223-271 | The splicing loop and its three errors, tied to a recursive replay of the canonical Snips. |
| `SnipRebase.RebaseSucceedsIff` | apps/protocol-bridge/src/context/context-compaction.service.ts:223-271 | On any input, the rebase succeeds if and only if no id of the projection occurs twice, no Snip repeats an id that is placed already, and the first retained message behind each Snip is there when the Snip is placed. |
| `SnipRebase.RebaseRefusalNames` | apps/protocol-bridge/src/context/context-compaction.service.ts:223-271 | Each of the three errors names an id for which it is true. |
| `SnipRebase.RebaseIsMerge` | apps/protocol-bridge/src/context/context-compaction.service.ts:217-271 | On what the planner passes in, no error occurs; dropping the Snips gives the compact projection back, and restricted to Snips and retained messages the result is the canonical transcript: an order-preserving merge in which every Snip occurs once. |
| `SnipRebase.RebaseKeepsHead` | apps/protocol-bridge/src/context/context-compaction.service.ts:263-267 | A leading record that is no retained message stays in front. |
| `Compaction.PlannerFeedsRebase` | apps/protocol-bridge/src/context/context-compaction.service.ts:1180-1196 | For every candidate of a mounted context the planner meets the conditions of the rebase, so its error branches are unreachable. |
| `ClaudeProjector.KeepShown` | apps/protocol-bridge/src/context/claude-conversation-projector.ts:294-302 | The filtering walks keep exactly the visible candidates, in order, and write one reason for each hidden one. |
| `ClaudeProjector.RenderAll` | apps/protocol-bridge/src/context/claude-conversation-projector.ts:95-111 | Rendering the selected records yields one message for each record that has something to show, and a reason for every other. |
| `ClaudeProjector.ResolveRecipe` | apps/protocol-bridge/src/context/claude-conversation-projector.ts:203-303 | The recipe is refused for the same faults in the same order; otherwise it selects the listed records and then the continuation. |
| `ProviderViews.RefusedIffFaulty` | apps/protocol-bridge/src/context/claude-conversation-projector.ts:203-325 | A recipe is refused if and only if it has a fault on the transcript, in terms of its trimmed ids and of what it requires, and the refusal names a fault that it has. |
| `ClaudeProjector.ProjectConversation` | apps/protocol-bridge/src/context/claude-conversation-projector.ts:74-149 | The imperative projection returns the specified messages and exactly the specified manifest, or the specified error. |
| `ClaudeProjector.ProjectedBlocksMean` | apps/protocol-bridge/src/context/claude-conversation-projector.ts:357-415 | A provider gets one block for each block of the record that it takes, in order; a tool result is replaced if there is a replacement, marked if it was cleared, and everything else stays as it is. |
| `ClaudeProjector.SelectedMembers` | apps/protocol-bridge/src/context/claude-conversation-projector.ts:203-343 | A record is selected if and only if it is in the transcript, not archived by the recipe (Snips excepted), not snipped and not hidden from providers. |
| `ClaudeProjector.ManifestExact` | apps/protocol-bridge/src/context/claude-conversation-projector.ts:74-149 | With and without a recipe: a record has no exclusion reason if and only if it is in the view, none is there twice, and no snipped record is ever resurrected. |
| `ProviderViews.ViewIs` | apps/protocol-bridge/src/context/claude-conversation-projector.ts:74-149 | The view of every transcript, with or without a readable recipe: exactly the records that are neither archived nor snipped out nor hidden nor without content, each once, first those of the recipe in its order, then the others in transcript order. Each message has the role, origin and key of its record, an unchanged text, or one block for each block taken, standing for it. It is refused only for its tool pairs. |
| `ProviderViews.ReasonIsFirst` | apps/protocol-bridge/src/context/claude-conversation-projector.ts:74-149 | The reason in the manifest is the first of the five that applies to the record, and there is none only if none applies. |
| `ProviderViews.GenericViewShows` | apps/protocol-bridge/src/context/context-projection.service.ts:240-347 | The generic view of every transcript: from the last compact boundary on, the rows that are no markers and not snipped out in this window, in order, each shown by one message with its content, role, origin and key. |
| `Compaction.CandidateFromSource` | apps/protocol-bridge/src/context/context-compaction.service.ts:942-1124 | Whatever the mode and cut, the two sides of a candidate are the whole current source, in its order. |
| `CompactionOffer.GateIs` | apps/protocol-bridge/src/context/tool-integrity.service.ts:229-275 | The gate passes rows if and only if no two uses that it sees share an id, every answer answers a use, and every use by an assistant is answered. |
| `CompactionOffer.OfferedIff` | apps/protocol-bridge/src/context/context-compaction.service.ts:942-1124 | A full compaction is offered if and only if there are two source rows or more and one is a message; a partial one if and only if the pivot is among the rows, its cut leaves rows on both sides, a message is archived, and both sides obey the rules of the gate. The candidate has exactly these sides. |
| `CompactionOffer.PlainTextsAreOffered` | apps/protocol-bridge/src/context/context-compaction.service.ts:942-1010 | Among plain texts, every pivot behind the first row cuts right before itself, up to it as well as from it on, and a compaction is offered if and only if the side to be archived holds a message. |
| `Compaction.SummaryTakesPlace` | apps/protocol-bridge/src/context/context-compaction.service.ts:205-215 | Whatever the mode, the summary stands exactly where the archived block of the source stood, and the new rows come last. |
| `Compaction.SourceMembers` | apps/protocol-bridge/src/context/context-compaction.service.ts:1448-1454 | A compaction accounts for exactly the visible messages and summaries of the mounted transcript. |
| `Compaction.RetainedInOrder` | apps/protocol-bridge/src/context/context-compaction.service.ts:223-271 | The retained messages keep their canonical order and no archived row is taken for one of them. |
| `Compaction.ProjectionUnique` | apps/protocol-bridge/src/context/context-compaction.service.ts:1162-1184 | The compact projection has unique ids: boundary, summary, retained rows and new rows. |
| `CompactionInstall.ReplaySelects` | apps/protocol-bridge/src/context/claude-conversation-projector.ts:203-303 | A checkpoint that lists a prefix of the transcript is accepted on it and, together with the continuation, selects every visible record in transcript order. |
| `CompactionInstall.ViewsAgree` | apps/protocol-bridge/src/context/context-projection.service.ts:77-91 | On every mounted context the generic view lists the visible rows and the Claude recipe-plus-continuation view lists the same rows in the same order, less those it cannot take. |
| `CompactionInstall.PlanIsLaid` | apps/protocol-bridge/src/context/context-compaction.service.ts:1127-1196 | For every candidate the laid-out transcript exists: unique ids, the boundary in front, the layout with the Snips replayed into it, and the same ids snipped as before. |
| `CompactionInstall.LaidView` | apps/protocol-bridge/src/context/context-compaction.service.ts:205-271 | The new transcript shows the summary in its place, the retained rows and the new rows, and nothing else. |
| `CompactionOutcome.LaidMessages` | apps/protocol-bridge/src/context/context-compaction.service.ts:1186-1196 | The graph messages of the new transcript are exactly the retained ones, so the preserved segment is theirs. |
| `CompactionOutcome.CheckpointReplays` | apps/protocol-bridge/src/context/claude-conversation-projector.ts:151-303 | A fresh recipe, its anchors not hidden, replays the transcript it was built from and archives only what is gone. |
| `CompactionOutcome.HiddenAnchorRefused` | apps/protocol-bridge/src/context/claude-conversation-projector.ts:263-273 | With a hidden head, anchor or tail the recipe is refused, and for that reason. |
| `CompactionOutcome.PlanOutcome` | apps/protocol-bridge/src/context/context-compaction.service.ts:1127-1275 | A plan for Claude is refused if and only if an anchor of the retained segment is hidden from providers or the promised view breaks the tool protocol, with that very error; one for another family never is. Otherwise it is the promised plan, and a recipe in it replays. |
| `CompactionOutcome.InstallMounted` | apps/protocol-bridge/src/context/context-compaction.service.ts:1299-1362 | For every provider family, installing keeps the context mounted, one epoch further; the view simulated in the plan is what the installed state projects, and both projections show the layout. |
| `SummaryShown.SummaryStandsForArchived` | apps/protocol-bridge/src/context/context-compaction.service.ts:1127-1362 | Every installed compaction, whatever the mode, pivot and provider family, shows one row exactly where the archived rows stood: a user text that says the summary, under the id of the commit. What was retained stays around it and only the new rows come behind. The boundary in front carries the same commit, with the next epoch, its parent and the last archived id. |
| `SummaryShown.CheckpointWritten` | apps/protocol-bridge/src/context/claude-conversation-projector.ts:151-188 | The recipe that comes into force lists the whole new transcript, excludes exactly the archived rows, and names its boundary, summary, attachments and hook results; there is one for Claude only. |
| `SummaryShown.OthersInstallIffOffered` | apps/protocol-bridge/src/context/context-compaction.service.ts:1127-1275 | For another family than Claude a compaction goes through if and only if it is offered. |
| `SummaryShown.OnlySummaryIff` | apps/protocol-bridge/src/context/context-compaction.service.ts:205-215 | The new summary is the only one shown if and only if no older summary is among the retained rows. |
| `OlderSummary.TwoSummariesShown` | apps/protocol-bridge/src/context/context-compaction.service.ts:205-215 | Counterexample to there being one summary: two messages compacted, a third appended, and a compaction from it on; the older summary is retained and both are visible. |
| `CompactionOutcome.ViewsCoincideIff` | apps/protocol-bridge/src/context/context-projection.service.ts:240-347 | With a provider that takes every block and nothing hidden, the two projections of a mounted context have the same turns, and are identical message for message if and only if no visible row carries a message id that only the Claude projection reads. |
| `CompactionOutcome.SegmentBounds` | apps/protocol-bridge/src/context/claude-conversation-projector.ts:151-188 | The preserved segment exists if and only if a message is retained, and its head and tail are the first and the last of them. |
| `CompactionOutcome.SegmentAnchor` | apps/protocol-bridge/src/context/claude-conversation-projector.ts:151-188 | The anchor is the first retained message that was relinked, if there is one, and the head otherwise. |
| `CompactionProtocol.CompactionKeepsToolPairsIff` | apps/protocol-bridge/src/context/context-compaction.service.ts:205-356 | If the visible conversation is accepted, then for every offered mode, pivot and cut: both sides and the whole installed view are accepted, if and only if no severed pair is masked by strings. |
| `CompactionProtocol.RenderingKeepsToolPairs` | apps/protocol-bridge/src/context/claude-conversation-projector.ts:358-415 | Replacing, clearing and dropping blocks for a provider turns an accepted conversation into an accepted one. |
| `CompactionProtocol.CompactionRefusedIffMasked` | apps/protocol-bridge/src/context/context-compaction.service.ts:1127-1275 | With nothing retained hidden from providers, the plan for an accepted conversation is refused if and only if the provider is Claude and a severed pair is masked by strings. |
| `CompactionProtocol.ViewsKeepToolPairs` | apps/protocol-bridge/src/context/claude-conversation-projector.ts:123-149 | Both projections hand an accepted conversation on as an accepted conversation. |
| `CompactionProtocol.TransparentIffSelfContained` | apps/protocol-bridge/src/context/context-compaction.service.ts:1040-1124 | Of any continuation that the conversation would have accepted, the compacted conversation accepts it if and only if the archived rows answer the calls they make: for a full compaction that no call is open, for a partial one that no string deceived the gate about the archived side. |
| `MaskedPair.MaskedPairIsOffered` | apps/protocol-bridge/src/context/context-compaction.service.ts:278-356 | Counterexample: use, string embedding an answer, string embedding a use, answer. The conversation is accepted, its compaction up to the third message passes search and gate, and neither side is accepted. |
| `RowRemoval.RemovalTransparentIff` | apps/protocol-bridge/src/context/claude-conversation-projector.ts:422-506 | Taking any rows out of a conversation is invisible to every continuation if and only if they answer exactly the calls they make. |
| `SnipProtocol.SnipTransparentIff` | apps/protocol-bridge/src/context/context-transcript-events.ts:239-253 | Of any continuation that the conversation would have accepted, the conversation after a Snip accepts it if and only if the removed rows answer exactly the calls they make. |
| `SnipProtocol.SnipOfAllIffSettled` | apps/protocol-bridge/src/context/context-transcript-events.ts:239-253 | For a Snip of everything that speaks, that is if and only if no tool call is open. |
| `StrandedCall.ShortestRun` | apps/protocol-bridge/src/context/context-compaction.service.ts:1040-1275 | Two plain messages and a full compaction: such a run exists for every free commit id, and shows the summary. |
| `StrandedCall.FullCompactionStrandsOpenCall` | apps/protocol-bridge/src/context/context-compaction.service.ts:1040-1075 | Counterexample: a full compaction while a call is open; the answer appended afterwards breaks the conversation, although the conversation as appended is whole. |
| `ContextRuns.RunTellsTale` | apps/protocol-bridge/src/context/context-compaction.service.ts:1299-1362 | After every sequence of appends, Snips and compactions the transcript is mounted and shows exactly what a plain list says: append adds at the end, Snip filters, compaction puts the summary in place of what it archives. |
| `ContextRuns.ViewsTellTale` | apps/protocol-bridge/src/context/claude-conversation-projector.ts:203-303 | After every such sequence the two provider projections list the rows of the plain list in its order, and agree when Claude can take all of them. |
| `SummaryShown.QuietView` | apps/protocol-bridge/src/context/context-transcript-events.ts:229-253 | Between two compactions that go through, the rows shown are those shown before with what was appended behind them, less what was snipped out. |
| `SummaryShown.LastSummaryIsShown` | apps/protocol-bridge/src/context/context-compaction.service.ts:1127-1362 | After every run, the summary of the last compaction that went through is shown, unless a later Snip names it, at the place of what it archived among the rows that no later Snip names; the generic view hands on its text as a user message from a summary at that place, and a Claude view, if there is one, does so exactly once. |
| `ContextRuns.RunIsChain` | apps/protocol-bridge/src/context/context-transcript-events.ts:255-276 | After k installs the epoch is k, the only boundary is the first row and carries the active commit, the derived history is that commit, and its parent is the commit active before it. |
| `ProtocolRuns.DialogueStaysWhole` | apps/protocol-bridge/src/context/claude-conversation-projector.ts:422-506 | Over every run in which what is archived or snipped out answers the calls it makes, which is exact for each step: whenever the appended messages, continued in any way, form an accepted conversation, so do the rows shown, continued in that way, however often the transcript was compacted or snipped. |
| `ContextRuns.NothingIsLost` | apps/protocol-bridge/src/context/context-compaction.service.ts:1127-1196 | Every message ever appended is, exactly once, among what is shown, archived or snipped out. |
| `ConversationState.State.Append` | apps/protocol-bridge/src/context/context-transcript-events.ts:229-237 | Appending puts a fresh list in place and leaves every other part of the state alone. |
| `ConversationState.State.CompactionSource` | apps/protocol-bridge/src/context/context-compaction.service.ts:1448-1454 | The source is what a compaction accounts for in the present list. |
| `ConversationState.State.PrepareCandidate` | apps/protocol-bridge/src/context/context-compaction.service.ts:942-1124 | The candidate offered belongs to the present state and carries the identities of the present list, replacements and watermark; it is refused without a watermark. |
| `ConversationState.State.PrepareInstall` | apps/protocol-bridge/src/context/context-compaction.service.ts:1299-1349 | The next state is complete before the durable commit and uses a fresh list. |
| `ConversationState.State.ApplyPrepared` | apps/protocol-bridge/src/context/context-compaction.service.ts:1351-1362 | Field assignments that can no longer fail leave exactly the prepared state. |
| `ConversationState.State.SummarizeAndApply` | apps/protocol-bridge/src/context/context-compact-runner.service.ts:198-276 | After the wait: a stale candidate or a refused plan changes nothing; the state changes at most once, into the installed plan, and success means exactly one install. |
| `ConversationState.AppendDuringSummary` | apps/protocol-bridge/src/context/context-compaction.service.ts:1277-1297 | A record appended while a summary is awaited makes the compaction stale and stays in the list. |
| `CompactionRace.StaleIffWritten` | apps/protocol-bridge/src/context/context-compaction.service.ts:1277-1297 | The identity check is exact: a candidate is stale if and only if anything was written since it was prepared. |
| `CompactionRace.FinishesOnlyUnwritten` | apps/protocol-bridge/src/context/context-compaction.service.ts:1277-1297 | In every interleaving of writers and compactions, one that ends after a write changes nothing, and one that installs does so on exactly the state it was prepared from. |
| `CompactionRace.FirstInstallWins` | apps/protocol-bridge/src/context/context-compact-runner.service.ts:244-276 | Of the compactions waiting at one time, the first install makes every other one fail for good. |
| `CompactionRace.RaceIsRun` | apps/protocol-bridge/src/context/context-compact-runner.service.ts:198-276 | Every interleaving has the effect of a sequential history in which each compaction happens at its install. |
| `CompactionRace.RacesLoseNothing` | apps/protocol-bridge/src/context/context-compaction.service.ts:1277-1297 | No interleaving loses a written message, and the state it leaves is mounted and tells the same plain list. |
| `StateRefinesRace.ChecksAgree` | apps/protocol-bridge/src/context/context-compaction.service.ts:1277-1297 | Comparing the identities of the held objects and comparing the numbers of the writes that made them are the same check. |
| `StateRefinesRace.Append` | apps/protocol-bridge/src/context/context-transcript-events.ts:229-237 | Appending to the mounted state is a write step of the race. |
| `StateRefinesRace.AppendSnip` | apps/protocol-bridge/src/context/context-transcript-events.ts:229-237 | So is appending a Snip boundary while no compaction waits. |
| `StateRefinesRace.Prepare` | apps/protocol-bridge/src/context/context-compaction.service.ts:942-1124 | Preparing a candidate from the mounted state is the step that makes it wait. |
| `StateRefinesRace.SummarizeAndApply` | apps/protocol-bridge/src/context/context-compact-runner.service.ts:198-276 | Finishing on the mounted state, with the tool-result replacements that it holds, is the finishing step of the race, or giving up; success means that the race installed the plan. |
| `MutationPipeline.ContextPipeline.EnqueueMutation` | apps/protocol-bridge/src/context/context-pipeline.service.ts:56-67 | Enqueuing takes the promise found under the owner as predecessor and becomes the entry of the owner. |
| `MutationPipeline.ContextPipeline.Resume` | apps/protocol-bridge/src/context/context-pipeline.service.ts:69-94 | Behind the await an aborted operation is released without starting; any other one starts with a live scope. |
| `MutationPipeline.ContextPipeline.FinishMutation` | apps/protocol-bridge/src/context/context-pipeline.service.ts:93-106 | Returned or thrown, the scope expires, the ticket is released and the entry is dropped if it is still the last. |
| `MutationPipeline.ContextPipeline.AbortSignal` | apps/protocol-bridge/src/context/context-pipeline.service.ts:81-87 | Aborting marks the signal and moves nothing in the queue. |
| `MutationPipeline.ContextPipeline.AssertMutationOwner` | apps/protocol-bridge/src/context/context-pipeline.service.ts:114-122 | The guard allows exactly a live scope of this owner. |
| `MutationPipeline.SettledMeansDone` | apps/protocol-bridge/src/context/context-pipeline.service.ts:58-73 | The promise an operation waits for is settled if and only if every earlier operation of its owner is done, though entries come and go. |
| `MutationPipeline.OneAtATimeInOrder` | apps/protocol-bridge/src/context/context-pipeline.service.ts:50-107 | In every schedule: per owner one operation at a time in enqueue order, at most one live scope, and the map holds an owner if and only if something of it is queued or running. |
| `MutationPipeline.AbortedNeverStarts` | apps/protocol-bridge/src/context/context-pipeline.service.ts:75-87 | An operation aborted while queued never starts, whatever happens later. |
| `MutationPipeline.DoneHasRun` | apps/protocol-bridge/src/context/context-pipeline.service.ts:50-107 | An operation is given up only if its signal was aborted, and no other is ever done without having run. |
| `MutationPipeline.ExpiredScopeFails` | apps/protocol-bridge/src/context/context-pipeline.service.ts:93-122 | A callback that outlives its operation never passes the write guard again, for any owner. |
| `MutationPipeline.GuardIsExact` | apps/protocol-bridge/src/context/context-pipeline.service.ts:88-122 | The write guard lets exactly the running operation of that owner through. |
| `MutationPipeline.SomeoneCanMove` | apps/protocol-bridge/src/context/context-pipeline.service.ts:50-107 | While an operation is not done, the first such one of its owner can take a step. |
| `MutationPipeline.StepsDrain` | apps/protocol-bridge/src/context/context-pipeline.service.ts:50-107 | Each such step brings the queue closer to empty, so without new work it drains. |
| `EventCorrelation.CorrelateEvents` | scripts/smoke/capture-trace-baseline.js:233-326 | The single pass computes the specified report: pairs, duplicates, unmatched events and the two boundary lists, each list in the order of the pass. |
| `EventCorrelation.KeysAreIndependent` | scripts/smoke/capture-trace-baseline.js:246-281 | What the pass knows about a key is the history of that key alone, up to positions, however events interleave. |
| `EventCorrelation.InterleavingIsIrrelevant` | scripts/smoke/capture-trace-baseline.js:233-326 | Two traces with the same events of a key report the same about it. |
| `EventCorrelation.KeyRunMeans` | scripts/smoke/capture-trace-baseline.js:246-281 | Independent meaning: a completion that is no allowed repeat is paired with the first start since the previous such completion, unmatched without one; the open start is the first since the last of them. |
| `EventCorrelation.PairsAreIntervals` | scripts/smoke/capture-trace-baseline.js:246-281 | The pairs of a key are disjoint intervals, start before completion, one after the other. |
| `EventCorrelation.KeyAccounts` | scripts/smoke/capture-trace-baseline.js:246-281 | Every start is paired, open or ignored, every completion paired, unmatched or an allowed repeat; all but the first of each are flagged as duplicates. |
| `EventCorrelation.TotalsCountEverything` | scripts/smoke/capture-trace-baseline.js:245-259 | The totals count every keyed start and completion, duplicates and repeats included. |
| `EventCorrelation.ReportedIff` | scripts/smoke/capture-trace-baseline.js:283-309 | An unmatched completion is reported if and only if its key does not complete before the first start of anything in the trace. |
| `EventCorrelation.StartsReportedInOrder` | scripts/smoke/capture-trace-baseline.js:287-312 | The starts reported without completion are the open ones before the last completion of anything, in the order in which they came. |
| `EventCorrelation.BoundaryListsMean` | scripts/smoke/capture-trace-baseline.js:287-325 | Both boundary lists name each key once: the left one those that complete before anything starts, the right one those whose open start is behind the last completion of anything. |
| `EventCorrelation.FirstOccurrencesInOrder` | scripts/smoke/capture-trace-baseline.js:313-326 | The keys of duplicate events are listed in the order in which they first occur. |
| `EventCorrelation.CompletionsReportedInOrder` | scripts/smoke/capture-trace-baseline.js:287-312 | The completions reported without start stand in the order in which they came. |
| `EventCorrelation.MaskedCompletion` | scripts/smoke/capture-trace-baseline.js:298-306 | Counterexample: a completion left over from before the capture hides a later one of its key. |
| `Microcompact.MicrocompactProjectedToolResults` | apps/protocol-bridge/src/context/context-compaction.service.ts:1532-1620 | The pass over collected positions clears exactly what looking ahead from each result clears, and counts it. |
| `Microcompact.CompactAt` | apps/protocol-bridge/src/context/context-compaction.service.ts:1532-1620 | At every place: a result changes, to the marker, if and only if it is eligible and at least twelve eligible results follow it. |
| `Microcompact.ClearedPlaces` | apps/protocol-bridge/src/context/context-compaction.service.ts:1578-1620 | A pass takes place if and only if some result is to be cleared, and it reports how many there are. |
| `Microcompact.ToolNamesMean` | apps/protocol-bridge/src/context/context-compaction.service.ts:1532-1577 | A tool result goes by the name of the latest use of its id by an assistant, and by none without one. |
| `Microcompact.EligibleIff` | apps/protocol-bridge/src/context/context-compaction.service.ts:1560-1587 | A result counts as eligible if and only if it has 400 tokens or more, is not cleared already, and the latest use of its id by an assistant was of one of the twelve clearable tools. |
| `Microcompact.OldestAreFollowed` | apps/protocol-bridge/src/context/context-compaction.service.ts:1589-1598 | Being among the oldest (eligible - 12) positions means being eligible with at least twelve eligible results behind. |
| `Microcompact.CompactKeepsShape` | apps/protocol-bridge/src/context/context-compaction.service.ts:1600-1620 | All messages, roles, ids and block positions stay, and so does the verdict on the tool pairs. |
| `Microcompact.SecondPassChangesNothing` | apps/protocol-bridge/src/context/context-compaction.service.ts:1578-1591 | A second pass finds nothing to clear. |
| `Microcompact.ClearedStaysCleared` | apps/protocol-bridge/src/context/context-compaction.service.ts:1524-1531 | While tool ids stay unique, a result cleared once stays cleared in every extension of the conversation. |
| `RequestBudget.SelectionIsPositiveIff` | apps/protocol-bridge/src/context/context-request-planner.service.ts:139-175 | The planner has a positive budget if and only if the protocol or the default offers at least one whole token; it throws if and only if neither is positive. |
| `RequestBudget.FractionalBudgetIsUndefined` | apps/protocol-bridge/src/context/context-request-planner.service.ts:159-171 | Counterexample to the comment behind the guard: a fraction of a token passes it and leaves the budget undefined. |
| `RequestBudget.SelectionIsClamped` | apps/protocol-bridge/src/context/context-request-planner.service.ts:164-181 | The selected budget is one of the offered limits, a whole protocol limit takes part, and the backend window is never exceeded. |
| `RequestBudget.SelectionIsGreatest` | apps/protocol-bridge/src/context/context-request-planner.service.ts:159-181 | The selected budget is the greatest whole number of tokens within the limit that was chosen, the protocol one if it offers a token and the default one otherwise, and within the backend window if that offers one. |
| `RequestBudget.EffectiveWithinWindow` | apps/protocol-bridge/src/context/context-compaction.service.ts:1655-1678 | Whatever the limits, the effective budget lies between 256 and the hard window. |
| `RequestBudget.EffectiveIsTightest` | apps/protocol-bridge/src/context/context-compaction.service.ts:1655-1678 | A number of tokens is within the effective budget if and only if it is at most 256, or fits, beside the system prompt, the window and each limit there is. |
| `RequestBudget.SkipKeepsReserveIff` | apps/protocol-bridge/src/context/context-compaction.service.ts:683-708 | Skipping compaction keeps what a limit reserves free, for every request, if and only if the limit leaves at least 256 tokens beside the system prompt. |
| `RequestBudget.UncompactedRequestFits` | apps/protocol-bridge/src/context/context-auto-compact-policy.ts:33-107 | From planner to gate, in terms of what the request asks for: an uncompacted request of a non-Codex backend leaves the reserve for its output and the buffer, or the estimated growth, free within the selected window. |
| `RequestBudget.ReserveOf` | apps/protocol-bridge/src/context/context-auto-compact-policy.ts:50-54 | The reserve is the whole part of the output tokens asked for, at most 20,000; without a positive number 8,192; and nothing for a fraction below one. |
| `RequestBudget.PlannedReserve` | apps/protocol-bridge/src/context/context-request-planner.service.ts:187-216 | As the planner passes them on, a fraction below one becomes zero and then reserves the 8,192 of a request that asks for nothing. |
| `RequestBudget.ResolvedLimits` | apps/protocol-bridge/src/context/context-request-planner.service.ts:139-240 | The two limits of a planned request, in terms of the output tokens it asks for: reserve and buffer, or reserve and growth, below the selected window, and none if those would eat it. |
| `RequestBudget.ResolvedCodexLimit` | apps/protocol-bridge/src/context/context-request-planner.service.ts:139-240 | For Codex there is one limit: the greatest whole number within 90% of the selected window and the configured limit. |
| `RequestBudget.LimitsKeepReserves` | apps/protocol-bridge/src/context/context-auto-compact-policy.ts:50-107 | There is no limit if and only if the reserves would eat the window; which of the two limits is lower depends on reserve and buffer alone. |
| `RequestBudget.CodexLimitIsGreatest` | apps/protocol-bridge/src/context/context-auto-compact-policy.ts:33-48 | The Codex trigger is the greatest whole number of tokens within 90% of the window and the configured limit, and there is no predictive one. |
| `RequestBudget.WiderWindowLowersTriggerIff` | apps/protocol-bridge/src/context/context-auto-compact-policy.ts:33-70 | A wider window lowers the compaction trigger if and only if it gains fewer tokens than the buffer takes more; one token more does so at 400,000 and 800,000 tokens only. |
| `RequestBudget.OverheadIsCounted` | apps/protocol-bridge/src/context/context-request-planner.service.ts:187-212 | Everything a request carries beside the transcript is counted once, in whole tokens. |
| `RequestBudget.GateAndProjectionDiffer` | apps/protocol-bridge/src/context/context-compaction.service.ts:1680-1686 | The two pressure questions disagree at exactly one point: a view that meets the effective budget exactly. A forced compaction is never skipped. |
| `Attachments.TrimToBudget` | apps/protocol-bridge/src/context/context-attachment-builder.service.ts:398-418 | The trimming loop terminates and computes the specified text. |
| `Attachments.ShrunkIsFirstFit` | apps/protocol-bridge/src/context/context-attachment-builder.service.ts:407-417 | A shortened text is the first cut of the chain that fits, every earlier one being too long; the bare mark stands only when all cuts down to 64 characters are too long. |
| `Attachments.TrimmedFits` | apps/protocol-bridge/src/context/context-attachment-builder.service.ts:398-418 | A trimmed text fits its budget unless it is the bare mark; what fits is not touched. |
| `Attachments.BuildAttachment` | apps/protocol-bridge/src/context/context-attachment-builder.service.ts:344-362 | An attachment opens with its header and is counted as it stands; it is the bare header if and only if the body is blank or has no room; a body that fits is kept whole, any other is cut to fit or gives way to the bare mark. |
| `Attachments.FitAttachmentToBudget` | apps/protocol-bridge/src/context/context-attachment-builder.service.ts:369-396 | Fitting computes the specified attachment, or leaves it out. |
| `Attachments.FitIsWithin` | apps/protocol-bridge/src/context/context-attachment-builder.service.ts:364-396 | For every counter: what is fitted is within the room and of the same kind and title, unchanged if and only if that is possible, and never a bare header. |
| `Attachments.FitShortens` | apps/protocol-bridge/src/context/context-attachment-builder.service.ts:364-396 | What is too long is shortened if and only if there is a body, the header leaves room and the result fits; it is then the header over the first cut of the old body that fits its room. |
| `Attachments.BuildAttachments` | apps/protocol-bridge/src/context/context-attachment-builder.service.ts:58-90 | The attachments are the candidates fitted in turn into what the earlier ones leave, and for every counter they total at most the budget, the default one for none or zero, and none for a negative one. |
| `Attachments.NextCandidate` | apps/protocol-bridge/src/context/context-attachment-builder.service.ts:58-90 | Each further candidate is fitted into what the ones before it have left, and comes behind all of them. |
| `Attachments.FittedIs` | apps/protocol-bridge/src/context/context-attachment-builder.service.ts:58-90 | A candidate is taken as it is if it fits what is left, shortened otherwise; one without tokens is passed over. |
| `Attachments.AllFitAllBuilt` | apps/protocol-bridge/src/context/context-attachment-builder.service.ts:58-90 | When all candidates together fit, the result is exactly those that are there and have tokens, in order. |
| `Attachments.RenderFileSnapshotSection` | apps/protocol-bridge/src/context/context-attachment-builder.service.ts:283-323 | The line-dropping loop terminates and computes the specified section. |
| `Attachments.SectionShows` | apps/protocol-bridge/src/context/context-attachment-builder.service.ts:283-323 | A section shows a first part of its file, at most 80 lines under their true count, says so when that is not all, and is within its limit. |
| `Attachments.SectionIsFirstFit` | apps/protocol-bridge/src/context/context-attachment-builder.service.ts:283-323 | A section shows as many lines, up to 80, as fit; if not all do, the first number of lines of the chain that fits. |
| `Attachments.AllSectionsTaken` | apps/protocol-bridge/src/context/context-attachment-builder.service.ts:238-281 | While what is consumed fits twice, every file that has a section is shown, newest first. |
| `Attachments.CollectFileSnapshots` | apps/protocol-bridge/src/context/context-attachment-builder.service.ts:238-281 | The newest files are rendered in turn within what is left; the sections stay within 1,600 tokens, and within 960 if no file is empty, because what is consumed counts twice. |
| `Attachments.HalfFullTakesNothing` | apps/protocol-bridge/src/context/context-attachment-builder.service.ts:253-268 | Not maximal: from 800 consumed tokens on nothing more is taken, although half of the limit is free. |
| `Attachments.FourthFileIsRefused` | apps/protocol-bridge/src/context/context-attachment-builder.service.ts:253-268 | Counterexample to maximality: four files of 300 tokens would fit the limit, and the fourth is refused. |
| `Attachments.RefusedThoughFittingIff` | apps/protocol-bridge/src/context/context-attachment-builder.service.ts:253-268 | A section that would fit the limit is refused if and only if it does not fit beside twice what is consumed. |
| `SessionMemoryView.AssembledSession` | apps/protocol-bridge/src/context/context-projection.service.ts:96-185 | What session memory the assembled view holds: the projected copy when it is reused, otherwise the rebuilt one, otherwise nothing. |
| `SessionMemoryView.GenericHistoryIsCoherent` | apps/protocol-bridge/src/context/context-projection.service.ts:77-202 | On the generic path there is exactly one session-memory message if and only if one was rebuilt, with equal content; the rest of the view is `HistoryView.GenericHistoryIs`. |
| `SessionMemoryView.VisibleMemoriesDoNotContribute` | apps/protocol-bridge/src/context/context-projection.service.ts:366-382 | No memory whose source record is visible has any influence on the view. |
| `SessionMemoryView.ClaudeHistoryIsCoherentIff` | apps/protocol-bridge/src/context/context-projection.service.ts:80-202 | On the Claude path this holds if and only if a durable copy that would be reused is neither archived by the recipe, nor snipped out, nor hidden from providers. |
| `SessionMemoryView.MountedHistoryIsCoherent` | apps/protocol-bridge/src/context/context-projection.service.ts:121-140 | On every mounted context whose Snips name no attachment row, as the write boundary demands, the Claude path is coherent too. |
| `HistoryView.GenericHistoryIs` | apps/protocol-bridge/src/context/context-projection.service.ts:77-203 | The whole view on the generic path: in front the projected messages, without session memory unless the one durable copy says what was built; behind them one user text for each attachment that is live, with its content and kind. Session memory is live unless it is reused, every other kind exactly when the slice holds no attachment row. The builder is handed exactly the memories whose source message is not in the view, or not in the known set. |
| `HistoryView.ClaudeHistoryIs` | apps/protocol-bridge/src/context/context-projection.service.ts:77-203 | The same of the Claude path, where the slice is the whole transcript; a conversation that cannot be projected is refused with the same error. |
| `HistoryView.ConversationStays` | apps/protocol-bridge/src/context/context-projection.service.ts:144-203 | In such a view the messages that are no session memory are exactly the projected ones, in order, and behind them the built attachments of other kinds if and only if the slice holds no attachment row. |
| `Usage.CountersMean` | apps/protocol-bridge/src/usage.ts:716-766 | Each counter by its own definition: a sum of one measurement, or the number of records of one kind, error-only attempts being no requests. |
| `Usage.SumOfPermutation` | apps/protocol-bridge/src/usage.ts:591-627 | Every counter is the same for a log in any order. |
| `Usage.BucketsAddUp` | apps/protocol-bridge/src/usage.ts:591-616 | The buckets of any grouping of the log (transports, models, accounts, days) add up to the totals. |
| `Usage.DaysAddUp` | apps/protocol-bridge/src/usage.ts:311-388 | The request counts of the daily query add up to the number the buckets count. |
| `Usage.GrandTotalIsSum` | apps/protocol-bridge/src/usage.ts:448-469 | The grand total is the sum over the whole log in every counter but the attempts, which it reports as zero. |
| `Usage.NormalizedMeans` | apps/protocol-bridge/src/usage.ts:629-671 | Every field of a normalized record against the one handed in: numbers are the nearest whole ones and not below zero, texts are trimmed or give way to their fallback, a missing time is the present one. |
| `Usage.StoredReadsBack` | apps/protocol-bridge/src/usage.ts:629-671 | Reading a stored record back normalizes it to itself. |
| `Usage.HydrationReproducesCounters` | apps/protocol-bridge/src/usage.ts:499-549 | Hydration in time order reproduces every live counter of every bucket. |
| `Usage.LastSeenSurvivesIff` | apps/protocol-bridge/src/usage.ts:716-747 | The last sighting survives hydration if and only if the record applied last was also recorded last. |
| `UsageLedger.Bucket.ApplyUsage` | apps/protocol-bridge/src/usage.ts:716-747 | Adding a record in place adds exactly that record's contribution, error-only attempts counting as attempts only. |
| `UsageLedger.BucketTable.Record` | apps/protocol-bridge/src/usage.ts:596-616 | Recording under a key changes that key's bucket alone, creating it on first use; no two keys share a bucket. |
| `UsageLedger.BackendState.ApplyUsageRecord` | apps/protocol-bridge/src/usage.ts:591-616 | After every record the totals and every bucket of the three tables equal the sums over their own records. |
| `UsageLedger.TablesAddUp` | apps/protocol-bridge/src/usage.ts:591-616 | In every reachable state the counters of each of the three tables add up to the totals, in whatever order the table is read. |

## Left out

- RoundCut.GreatestSafeCut: assumes that the records of a response are contiguous; the exact condition is `RoundCut.ResponsesWholeIffNoExposedGap`.
- CompactionProtocol.CompactionRefusedIffMasked: of candidates that retain no row hidden from providers; the exact condition for all others is in `CompactionOutcome.PlanOutcome`.
- ConversationState.State.SummarizeAndApply: the durable commit is reduced to how often it calls back to install; prompts, hooks and cancellation signals are not modelled.
- SummaryShown.LastSummaryIsShown: the text shown is the summary itself, as it is after formatting and trimming; those, and the fixed prose that the renderer puts around it, are not modelled.
- CompactionRace.FinishesOnlyUnwritten: the section from the staleness check to the assignments is one step, as it contains no await.
- CompactionRace.RaceIsRun: a Snip is written only when no compaction waits. Writers that mount a cloned state object (force-snip, recovery) hold the owner's mutation while they do, and the identity check on the replaced object could not see them.
- CompactionRace.RacesLoseNothing: the same restriction on Snips that are written during a wait.
- MutationPipeline.SomeoneCanMove: an operation that enqueues on its own owner and waits for that is not modelled; progress is of operations that end by themselves.
- UsageLedger.BackendState.ApplyUsageRecord: recent events, the counting window and account labels are not modelled.
- Usage.LastSeenSurvivesIff: `lastSeenAt`, account labels and recent events depend on the order of the log; only the first is characterised.
- ContextRuns.RunTellsTale: while a Claude recipe is in force, compactions for another provider family are not steps of a run; such an install leaves the stored recipe behind, and what recovers from that lies in the projection stores, which are not part of this model. Without a recipe in force they are.
- ClaudeProjector.ProjectConversation: the generation and capability hashes, the active leaf and the pending cache edits are not part of the result.
- EventCorrelation.CorrelateEvents: the case labels of a pair, which are read off the records at its two positions, are dropped.
- RequestBudget.UncompactedRequestFits: numbers are exact; rounding of the 90% Codex limit in floating point is not modelled.
- Attachments.ShrunkIsFirstFit: the factors 0.8 and 0.7 are exact fractions; floating-point rounding is not modelled.
- Attachments.CollectFileSnapshots: file contents are given as lines without trailing white space; reading and splitting text is not modelled.
- The strict-adjacent mode of the tool-integrity gate, and pending tool ids.
- Compaction of a mapped source prefix for provider-native histories (`sourceRecordIds`), and the Codex engine; the files of that engine are not part of this model.
- Which session memories are selected and how they are rendered: the builder is any function with at most one session-memory attachment.
- The rewriting of Cursor UI markers in projected content, `isMeta`, hashes, timestamps, telemetry, logging and cooldown clocks.
- Resynchronising the contents of existing message rows, and the SQLite store behind the projections.
- The anchor by which a Snip boundary is placed on its creation: new Snips are appended at the end.
