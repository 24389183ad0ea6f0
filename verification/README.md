# Verification of the agent loop's stateful cores

This project models the parts of the repository whose state outlives one call, and proves what every
run of them keeps.

**Context compaction.** The engine parses the chat transcript into blocks, picks the shortest safe
prefix that frees enough tokens, replaces it by one checkpoint message, keeps the runtime metadata and
context messages behind it, and renumbers everything it holds by message index. `Blocks`, `Selection`
and `Checkpoints` are the parser, the selection and the replacement. `CompactionEngine` is the engine
with its fields; its methods are proved against functions on the loop state. `Ledgers` is an
independent description of the same state: the full history of messages, never shortened, and how far
it has been compacted. `LedgerCompaction` and `CompactionRuns` show that after any sequence of
appends, protections, successful requests, compactions that succeed or fail, and pauses, the loop
state is exactly what the ledger says, so that no index is ever off. `RunStart` is the base case: the
transcript a run begins with. `RunProperties`, `CompactionDecisions`, `CompactionBudget`,
`ImageRules`, `CheckpointHistory`, `Reparsing` and `MainCalls` draw the conclusions, and `StartContents`
says message by message what a run starts with. `AnsweredMessages` and `ExchangeRuns` follow the tool
exchanges from the responses through whole runs to the compactions. `EngineRuns` has the run on the
engine object: its start on a store, its steps, its pause and its resume.
The summary's text, the readable images, the clock and the provider's replies are arbitrary inputs.

**Checkpoint store.** `CheckpointStore` has the store as a class and any number of runs sharing one
store as a state machine over its operations. `SharedRuns` puts a run and the saves and deletions of
others side by side and says when a resume finds the checkpoint of its pause.

**Tool-call batches.** `ToolBatches` says what a batch of calls is and what its completions leave
behind. `ToolRuns`, `ResponseLives`, `ToolExchanges` and `ToolResults` follow one response of the model
over all its approval pauses: a passage through the phases of the loop (`Leg`), the saved and restored steps, the
repeat counts, and the transcript. `ToolLoops` is the loop's code: the check, the concurrent or
sequential execution with cancellation at any point, the results; its method `RunToolCalls` is proved
to do what a `Leg` says. What the tools answer, the order in which they finish and when the batch is
cancelled are arbitrary.

**Approvals.** `Approvals` is the store, `ApprovalRaces` the state machine of any number of resumers,
resolvers and clock ticks over it, every locked operation being one step; `ApprovedActions` says which
action a resumed run goes on with.

**Smaller cores.** `OutputLines` (streamed output of a coding tool, split into lines and kept as a
tail), `Workers` and `Allocations` (names and avatars from a seeded shuffle, before and after a pause),
`Contacts` and `ContactBooks` (the capped contact lists), `Outbox` and `OutboxRuns` (delivery with crashes at any point).

## What the proofs turned up

* The last check of a compacted transcript does not see an incomplete exchange that holds an image,
  because the image's reason replaces the exchange's (`Checkpoints.InvalidToolMeans` says what the
  check means, `Checkpoints.ImageHidesIncompleteExchange` has the transcript). Preservation of
  exchanges is therefore proved on the blocks (`Checkpoints.ReparseCompacted`, `Reparsing.EngineReparses`).
* A compaction that reaches its target, with a checkpoint within its cap, can still leave more than 60%
  of the input limit and call for another compaction at once: the target is made from the provider's
  count, and the next decision from the estimate (`CompactionBudget.LowCountCompactsAgain` has the
  transcript). It does so exactly when the estimate exceeds the count by more than the 40% between the
  size aimed for and the limit and what was spare (`CompactionBudget.CompactsAgainOnExcess`); an excess
  within those 40%, which is known before, is always safe (`CompactionBudget.NoCompactionLoop`). Before the
  summary is asked for, no summary within the cap can lead to another compaction exactly when the excess
  is within those 40% and what the selection frees beyond its target
  (`CompactionBudget.SettlesExactlyWhen`).
* A deleted checkpoint's revisions start again, so a resume can take another checkpoint for the one of
  its pause (`SharedRuns.DeletionRestartsRevisions`). Everything held by index still names the same
  messages; the checkpoint held is the one shown in the transcript exactly as long as the store gives
  back the checkpoint of the pause (`CompactionRuns.StepHoldsShown`), which it does when nothing was
  deleted since the run last used it (`SharedRuns.ResumesAreFaithful`).
* A resumed run forgets which calls had their workers: it goes on with the sequence of the uninterrupted
  run exactly when no call of before the pause comes again (`Workers.ResumeContinuesSequence`).
* A failed step whose error has no text is a success after a pause, and the repeat limit can then
  reject the approved call (`ResponseLives.EmptyErrorRejectsApprovedCall`), exactly when the tool's
  successes and such failures together come to the limit (`ResponseLives.LimitRejectsExactlyWhen`). The
  counts survive a pause exactly when no failed step of a named tool has an empty error text (`ToolRuns.ResumeCountsSuccesses`).
* A response leaves a complete exchange exactly when its calls have names and distinct non-empty IDs
  (`ToolExchanges.ExchangeComplete`): nameless calls are dropped without a result. A run whose responses
  all are complete has no compaction refused for its exchanges (`ExchangeRuns.StartedRunsCompact`).
* An unfinished delivery cannot be retried under another spelling of its idempotency key or channel;
  `OutboxRuns.SendErrs` has the exact condition for an error. The caller trims the key.
* `SetContactStatus` does not keep the cap of active contacts (`ContactBooks.SetStatusAdds`).

## Conventions

Go integers that count messages, tokens or attempts are unbounded here; the 64-bit state of the
worker shuffle is a bit vector. Times are numbers, with 0 for Go's zero time. Ratios of the token
budget are exact. Errors are values. Reading a file and writing it back under a lock is one step.

## Model

| member | source | states |
|---|---|---|
| Transcript.EstimateMessagesTokens | agent/context_compaction_blocks.go:190-210 | the estimate of a transcript is the sum of its messages' estimates, each at least 1 |
| Transcript.EstimateMessageTokens | agent/context_compaction_blocks.go:190-210 | the least number of tokens, but at least one, that holds the message at three bytes a token |
| Blocks.CollectCallIds | agent/context_compaction_blocks.go:94-112 | the loop over the calls finds their non-empty IDs, whether these are distinct and none is blank, and whether one is still pending |
| Blocks.MatchResults | agent/context_compaction_blocks.go:114-126 | the loop over the tool messages ends at the first other message and says whether each answers a call, once |
| Blocks.MarkObstacle | agent/context_compaction_blocks.go:144-155 | the first protected message or unprepared image of the exchange gives the reason, over any reason before |
| Blocks.BuildToolExchangeBlock | agent/context_compaction_blocks.go:93-157 | the block is compactable iff no message is protected or holds an unprepared image, no call is pending, and the tool messages answer each call exactly once |
| Blocks.BuildSingleBlock | agent/context_compaction_blocks.go:63-88 | a message outside an exchange is its own block; metadata and context weigh nothing; a stray tool message is invalid |
| Blocks.SingleCompactable | agent/context_compaction_blocks.go:76-88 | a message without tool calls is compactable iff it is no stray result, not protected, and holds no image that is not prepared |
| Blocks.ExchangeCompactableMeans | agent/context_compaction_blocks.go:93-157 | an exchange ends at the first message that is no result, and is compactable iff nothing in it is protected or holds an unprepared image, no call is pending, and it is complete |
| Blocks.CompleteMeans | agent/context_compaction_blocks.go:94-142 | it is complete iff its calls have distinct IDs, none blank, and the results answer each once, in any order |
| Blocks.ObstacleIs | agent/context_compaction_blocks.go:144-155 | the first message in the way gives the reason, protection before an image |
| Blocks.BuildTranscriptBlocks | agent/context_compaction_blocks.go:46-91 | the parser's loop computes the blocks of the transcript behind the fixed messages |
| Blocks.BlocksTile | agent/context_compaction_blocks.go:56-90 | the blocks cut the transcript into consecutive non-empty pieces |
| Blocks.BlocksShift | agent/context_compaction_blocks.go:46-157 | equal tails of two transcripts have the same blocks, shifted, if the options agree on the tail |
| Selection.SelectTranscriptPrefix | agent/context_compaction_blocks.go:159-188 | the loop with its early exits computes the specified selection |
| Selection.SelectionIsShortest | agent/context_compaction_blocks.go:159-188 | the selection is the shortest compactable prefix that reaches the target, or else the longest one, never the last block; none iff that prefix holds only metadata |
| Selection.ShortestUnique | agent/context_compaction_blocks.go:159-188 | there is at most one such prefix |
| Selection.ReselectionIsPrefix | agent/context_compaction_engine.go:288-314 | selecting again with fewer prepared images starts at the same message and never reaches further, keeping a prefix of what was kept |
| ImageRules.CompactedImagesWereReadable | agent/context_compaction_engine.go:288-314 | every image that a compaction takes out of the transcript was readable |
| ImageRules.ReadableImagesAreSelected | agent/context_compaction_engine.go:288-314 | if every image of the first selection is readable the second selection is the first |
| ImageRules.FirstSelectionSeesNoImages | agent/context_compaction_engine.go:277-286 | the first selection is the one of the transcript without images |
| Selection.ManualTargetSelectsAll | agent/context_compaction_engine.go:460-473 | the weight of the longest safe prefix as target selects every block of it that is not metadata |
| Checkpoints.SurvivorKeepsMessage | agent/context_compaction_engine.go:406-418 | a message that is fixed, kept or remaining is found at its new index, which is not the checkpoint's |
| Checkpoints.RenumberIncreasing | agent/context_compaction_engine.go:406-418 | the new indexes of the surviving messages are strictly increasing |
| Checkpoints.RenumberOntoRest | agent/context_compaction_checkpoint.go:233-239 | every position but the checkpoint's holds a surviving message, found back at its old index |
| Checkpoints.RemoveKept | agent/context_compaction_engine.go:316-321 | deleting the kept messages from the back leaves exactly the others, in order, for the summariser |
| Checkpoints.ValidateCompleteToolExchanges | agent/context_compaction_checkpoint.go:246-254 | accepts iff no block has the invalid-exchange reason |
| Checkpoints.ReplaceMessagesWithCheckpoint | agent/context_compaction_checkpoint.go:222-244 | the new transcript is the fixed messages, the checkpoint, the kept messages and the rest; refused iff the selection or the checkpoint does not fit or the result fails the check |
| Checkpoints.ReplaceableExactlyWhen | agent/context_compaction_checkpoint.go:222-232 | a replacement is made only of messages behind the fixed ones, by a user's message with text that is no part of an exchange |
| Checkpoints.SelectionShape | agent/context_compaction_blocks.go:159-188 | a selection starts behind the fixed messages, ends before the last message, and keeps only single-message metadata blocks |
| Checkpoints.TokenConservation | agent/context_compaction_blocks.go:159-188 | the estimate changes by minus the selection's tokens plus the checkpoint's |
| Checkpoints.ReparseCompacted | agent/context_compaction_checkpoint.go:222-254 | the compacted transcript parses into the checkpoint, one block for each kept message, and the old remaining blocks shifted |
| Reparsing.SameOptions | agent/context_compaction_engine.go:402-423 | the options of the renumbered state say of every message behind the selection what the old ones said: metadata, protection and images |
| Reparsing.EngineReparses | agent/context_compaction_engine.go:277-286 | the engine's own next parse finds the checkpoint, the kept messages and exactly the blocks it had behind the selection, just as compactable as before |
| Checkpoints.ReplacementAccepted | agent/context_compaction_checkpoint.go:240-254 | the check of the new transcript fails iff an exchange behind the selection was invalid before |
| Checkpoints.InvalidToolMeans | agent/context_compaction_blocks.go:93-157 | what the invalid-exchange reason means for a block: incomplete and without any image |
| Checkpoints.ImageHidesIncompleteExchange | agent/context_compaction_blocks.go:144-155 | a transcript with an unanswered call that passes the check |
| CompactionConfig.LimitsSplitWindow | agent/context_compaction_config.go:50-113 | a positive input limit and the output reserve split the window, the trigger lies inside the limit, the default leaves at least half for input |
| CompactionConfig.TriggerIsShare | agent/context_compaction_config.go:62-67 | the trigger is the configured ratio of the input limit in whole tokens, and at least one |
| CompactionConfig.LimitIsRest | agent/context_compaction_config.go:50-69 | the input limit is what the reserve leaves of the window: the run's own output limit, or a tenth held within 4096, 32768 and half the window |
| CompactionDecisions.CompactsOnCount | agent/context_compaction_engine.go:206-228 | with a provider's count the engine compacts iff the count and what was added reach the configured ratio of the window less the reserve |
| CompactionDecisions.CompactsOnEstimate | agent/context_compaction_engine.go:229-236 | without one iff messages and tools are estimated over all of it |
| CompactionDecisions.DecisionAfterRequest | agent/context_compaction_engine.go:195-236 | after a main request, through any pauses, the decision is made on its count and exactly the messages appended since |
| CompactionDecisions.FirstDecision | agent/context_compaction_engine.go:229-236 | the first decision of a run is made on the estimate of all it starts with |
| CompactionDecisions.TargetAfterTooLong | agent/context_compaction_engine.go:459-493 | how much a compaction after a too-long request wants to free, with and without a known window |
| CompactionDecisions.ManualSelectsAll | agent/context_compaction_engine.go:238-250 | a manual compaction selects the longest safe prefix, none iff that holds only metadata |
| CheckpointStore.RunLocalCheckpointStore.Save | agent/context_checkpoint_store.go:53-72 | stores a valid checkpoint whose revision follows the expected one, if that is the stored one; otherwise changes nothing |
| CheckpointHistory.SaveExactlyWhen | agent/context_checkpoint_store.go:53-125 | a save succeeds iff it is not cancelled, the checkpoint is usable and its revision follows the stored one; it is a conflict iff only the last fails; what is saved can be loaded |
| CheckpointStore.RunLocalCheckpointStore.Delete | agent/context_checkpoint_store.go:74-89 | removes the checkpoint only at the expected revision |
| CheckpointStore.NoLostUpdate | agent/context_checkpoint_store.go:53-106 | in every delete-free history of any number of writers the saves carry consecutive revisions and each replaces exactly what its writer held |
| CheckpointStore.ResumeSeesPausedCheckpoint | agent/engine_resume.go:112-123 | a paused run resumes only while the store holds the very checkpoint of the pause |
| CheckpointStore.SoleWriterNeverConflicts | agent/context_checkpoint_store.go:53-72 | a writer alone with its store never meets a conflict |
| CompactionEngine.ContextCompactionReleaseTarget | agent/context_compaction_engine.go:459-493 | the target is the weight of the leading compactable blocks for a manual compaction, else what brings the input down to 60% of its limit with room for the checkpoint |
| CompactionEngine.LeadingIsMaximal | agent/context_compaction_engine.go:460-473 | the blocks a manual target counts are the longest safe prefix of the selection |
| CompactionEngine.PrepareCompactionImages | agent/context_compaction_engine.go:294-301 | exactly the messages of the range whose images are readable count as prepared |
| CompactionEngine.CoveredThroughForSelection | agent/context_checkpoint_store.go:127-138 | the last boundary among the selected messages |
| LedgerCompaction.MetaAfter | agent/context_compaction_engine.go:407-415 | the renumbered metadata index is where the ledger, with its cut moved, has the metadata message |
| CompactionEngine.ReplaceProtectedMessageIndexes | agent/context_compaction_engine.go:439-457 | the loop moves exactly the protected indexes outside the selection |
| CompactionEngine.ReplaceMessageBoundaries | agent/context_compaction_engine.go:578-593 | the loop moves exactly the boundaries outside the selection and sets the checkpoint's |
| CompactionEngine.SelectionsFit | agent/context_compaction_engine.go:277-314 | both selections fit the transcript and the second never exceeds the first, so what was prepared covers it |
| CompactionEngine.Engine.ProtectLastMessage | agent/engine_loop.go:77-85 | protects the last message, if there is one |
| CompactionEngine.Engine.MainSucceeded | agent/context_compaction_engine.go:195-204 | records the input of the request and ends the protections |
| CompactionEngine.Engine.Decide | agent/context_compaction_engine.go:206-236 | the decision from the provider's count plus what was added since, or from the estimate |
| CompactionEngine.Engine.BuildCheckpoint | agent/context_compaction_engine.go:376-401 | revision, creation time, count and covered-through of the next checkpoint |
| CompactionEngine.Engine.Adopt | agent/context_compaction_engine.go:406-423 | transcript, metadata index, boundaries, protected set and counters are all renumbered alike |
| CompactionEngine.Engine.CompactContext | agent/context_compaction_engine.go:252-437 | either the whole compaction as specified, or the loop state and the store as they were |
| Ledgers.PlacePosition | agent/context_compaction_engine.go:402-423 | a message of the history that is still in the transcript has one position, which leads back to it |
| Ledgers.MetaContiguous | agent/context_compaction_engine.go:407-415 | the context messages follow the metadata message without a gap |
| Ledgers.KeptRange | agent/context_compaction_blocks.go:172-176 | what a selection keeps is the metadata and context messages it reaches, in their order |
| LedgerCompaction.PlaceAfter | agent/context_compaction_engine.go:406-418 | the renumbering of a compaction is the renumbering of the ledger with its cut moved |
| LedgerCompaction.CoveredAfter | agent/context_compaction_engine.go:376-401 | the checkpoint covers through the last boundary before the cut, or what was covered before |
| LedgerCompaction.CompactionSucceedsExactlyWhen | agent/context_compaction_engine.go:252-437 | a compaction succeeds iff both selections exist, the summary has text, no exchange behind the selection is invalid, and the store still has the checkpoint's revision |
| LedgerCompaction.CompactionMovesCut | agent/context_compaction_engine.go:252-437 | a successful compaction keeps the description of the state and only moves the cut forward |
| CheckpointHistory.FailsExactlyWhen | agent/context_compaction_engine.go:277-401 | a compaction fails for its first step that does: no safe prefix, the images, a selection without the unreadable ones, the summary, or the store |
| CheckpointHistory.CompactionWrites | agent/context_compaction_engine.go:366-401 | a compaction puts the summary's text right behind the fixed messages and counts one compaction and one revision more, keeping the creation time |
| CheckpointHistory.RunCounts | agent/context_compaction_engine.go:376-401 | over any run on faithful stores revision and count go up by exactly the compactions that succeeded, and the creation time never changes |
| ResumeStates.PauseRoundTrip | agent/engine_runstate.go:145-210 | every state of a run passes the checks of a resume, which restores transcript, metadata index, boundaries and protected set, goes on from what the store has under the revision of the pause, and refuses iff the store's revision is another |
| CheckpointHistory.RecordAcceptedExactlyWhen | agent/engine_runstate.go:145-210 | a record is accepted iff its indexes lie in its transcript and its metadata and context are plain messages behind the fixed ones; an older one goes on without its metadata |
| CompactionRuns.StepKeepsLedger | agent/context_compaction_engine.go:402-423 | every step of a run keeps the agreement of loop state and ledger |
| CompactionRuns.RunKeepsLedger | agent/context_compaction_engine.go:252-437 | so does every run |
| CompactionRuns.StepHoldsShown | agent/engine_resume.go:112-123 | a resume keeps the run on the checkpoint of its transcript iff the store gives that one back, and every compaction puts it on its own |
| CompactionRuns.RunHoldsShown | agent/engine_resume.go:112-123 | with such stores the checkpoint held is the one of the transcript throughout the run |
| SharedRuns.ResumesAreFaithful | agent/engine_resume.go:112-123 | however others save and delete in between, a resume of a run that used the store since the last deletion finds the checkpoint of the pause or refuses |
| SharedRuns.WithoutDeletion | agent/context_checkpoint_store.go:53-106 | so without deletions the checkpoint of the run is the one of its transcript through all its pauses |
| SharedRuns.DeletionRestartsRevisions | internal/contextcheckpoint/history.go:32-40 | whatever the revision of a pause, a deletion and as many saves by others make the resume go on from a checkpoint that is not in its transcript |
| CompactionRuns.MetadataSurvives | agent/context_compaction_engine.go:402-423 | over every run the metadata index names the original metadata message with the same context messages behind it, the fixed messages stay, and a checkpoint's message sits right behind them |
| RunProperties.LedgerGrows | agent/context_compaction_engine.go:402-423 | between any two times of a run the history only grows and the cut only moves forward |
| RunProperties.OrderSurvives | agent/context_compaction_engine.go:402-423 | messages that are still in the transcript after any run stand in the order they stood in, behind each other and before |
| RunProperties.CoveredThroughAdvances | agent/context_checkpoint_store.go:127-138 | at every time CoveredThrough is the boundary of the latest compacted message that has one, every later boundary is still in place and no other is, and it never moves backwards |
| RunProperties.ProtectedNamesSurvive | agent/context_compaction_engine.go:439-457 | no protected message is compacted and the protected set names the same messages afterwards |
| RunProperties.PayloadIsNextStretch | agent/context_compaction_engine.go:316-321 | the summariser is sent the previous checkpoint, if any, and then exactly the next stretch of the history, metadata and context left out |
| RunStart.BuildInitialState | agent/engine.go:369-462 | the loops of Run build the specified state, which agrees with a ledger: the base case of all run properties |
| RunStart.AppendHistory | agent/engine.go:391-405 | the loop gives the history part of the start state, whose messages and boundaries `StartContents` tells one by one |
| StartContents.HistoryInTranscript | agent/engine.go:391-405 | every history message that is not the system's and not empty stands behind the kept ones before it, with its own boundary or none |
| StartContents.CurrentInTranscript | agent/engine.go:444-462 | the message the run is started for stands last, as the user's, with the boundary given for it |
| StartContents.BoundariesInTranscript | agent/engine.go:380-405 | no other index carries a boundary but the checkpoint's, which carries what it covers through |
| StartContents.MetadataInTranscript | agent/engine.go:407-434 | system prompt, metadata and the number of context messages are where the indexes say |
| StartContents.NotesInTranscript | agent/engine.go:425-434 | every note that is not blank is a context message, in order |
| EngineRuns.Start | agent/engine.go:369-502 | a run starts iff its configuration and the loaded checkpoint are acceptable, in the specified state, described by a ledger, on the checkpoint its store holds |
| EngineRuns.AcceptedIsUsed | agent/context_compaction_config.go:22-48 | a configuration is accepted iff the ratio it has is the one used, or nothing is configured; it is on unless it or the run turns it off |
| EngineRuns.Perform | agent/context_compaction_engine.go:195-437 | the methods of the engine do to its fields and its store what the steps of a run are specified to do |
| EngineRuns.ResumeEngine | agent/engine_resume.go:100-181 | a resume succeeds iff the record and the store pass its checks, and builds the specified state on the checkpoint its store holds |
| EngineRuns.PauseThenResume | agent/engine_resume.go:100-181 | an engine paused in any state of a run and set up again on an undisturbed store, or on a new one, is in the same state |
| EngineRuns.UndisturbedRun | agent/context_checkpoint_store.go:53-72 | over every run alone with its store, through all pauses, no compaction meets a conflict and no pause changes the state |
| CompactionBudget.CompactionTokens | agent/context_compaction_engine.go:595-605 | a compaction changes the estimate of the next request by the selection's and the checkpoint's tokens |
| CompactionBudget.SizeAfter | agent/context_compaction_engine.go:459-493 | after any compaction the next request is the size aimed for, plus the excess of the estimate over the input decided on, less what was spare |
| CompactionBudget.TargetBringsInputDown | agent/context_compaction_engine.go:459-493 | with the target reached and a checkpoint within its cap the next request is at most 60% of the limit plus that excess, so at most 60% if the decision was made on no less than the estimate |
| CompactionBudget.CompactsAgainExactlyWhen | agent/context_compaction_engine.go:206-236 | the exact condition under which the state after a compaction calls for another at once |
| CompactionBudget.CompactsAgainOnExcess | agent/context_compaction_engine.go:206-236 | for a decision of any reason, another compaction follows iff the excess is more than the 40% between target and limit and what was spare |
| CompactionBudget.NoCompactionLoop | agent/context_compaction_engine.go:206-236 | with the target reached within the caps, a compaction of any reason calls for no other if the excess is within those 40%, and if nothing was spare only then |
| CompactionBudget.SettlesExactlyWhen | agent/context_compaction_engine.go:206-236 | no summary within the cap leads to another compaction iff the excess is within those 40% and what the selection frees beyond its target, all known before the summary |
| CompactionBudget.EstimateHasNoExcess | agent/context_compaction_engine.go:206-236 | the automatic decision has no excess without a provider's count, and with one the difference of the two |
| CompactionBudget.LowCountCompactsAgain | agent/context_compaction_engine.go:206-236 | a transcript whose compaction on the provider's count reaches its target and calls for another one |
| MainCalls.CallMain | agent/context_compaction_engine.go:48-116 | a call is at most one compaction and then the success, if any; it retries only after a too-long input that no compaction had preceded, and only if that compaction succeeds |
| MainCalls.CallMeans | agent/context_compaction_engine.go:48-116 | which compaction a call makes, and on which reply it succeeds, for every decision and reply |
| MainCalls.CallKeepsLedger | agent/context_compaction_engine.go:48-116 | a call keeps everything held by index; protections end exactly with success |
| ToolBatches.RebuildToolTracking | agent/engine_loop.go:1215-1227 | the rebuilt counts are the recorded successes of each tool |
| ToolBatches.SpellingsCountAsOne | agent/engine_loop.go:516-520 | spellings of a tool's name that differ in the white space around them count as one, without capitals |
| ToolBatches.CompleteKeepsCounts | agent/engine_loop.go:581-600 | recording a call, whatever became of it, keeps counts equal to successes plus calls let through and not finished |
| ToolBatches.ItemsAfter | agent/engine_loop.go:554-692 | a completion touches only its own call |
| ToolBatches.OrderDoesNotMatter | agent/engine_loop.go:694-796 | with the same fates the results do not depend on the order of completion |
| ToolBatches.ParallelNeverStops | agent/engine_loop.go:694-725 | a batch that runs in parallel never ends the run |
| ToolBatches.ParallelMeans | agent/engine_loop.go:694-725 | calls run at once iff none waits for an approval, at least two run, and each that runs is safe beside others and does not end the run |
| ToolRuns.RestoreSteps | agent/engine_runstate.go:81-138 | the two loops of saving and restoring keep every step but for empty error texts |
| ToolResults.RestoredKeeps | agent/engine_runstate.go:81-138 | a pause keeps every step as it is, but that an error without text becomes a success |
| ToolRuns.ResumeCountsSuccesses | agent/engine_runstate.go:115-138 | the counts survive a pause iff no failed step of a named tool has an empty error text |
| ToolRuns.LegRecordsAll | agent/engine_loop.go:728-837 | unless the run ends every checked call is recorded exactly once |
| ToolResults.LegChecked | agent/engine_loop.go:516-552 | each call is skipped for the limit or the guard, with its text, or let through; one that needs an approval only as the first of a resumed response and with its unused approval; the check stops at the first other |
| ToolResults.ApprovalUsedUp | agent/engine_loop.go:986-995 | the approval is used up iff the first call passes with it |
| ToolResults.LegSteps | agent/engine_loop.go:554-596 | the steps of a passage are those of its completions in their order, with what the tool answered, the cancellation's reason, or the check's text |
| ToolResults.StopsExactlyWhen | agent/engine_loop.go:656-668 | a passage ends the run iff a recorded call was let through, succeeded, and its command or its tool ends the run |
| ToolRuns.LegKeepsTracked | agent/engine_loop.go:516-600 | after a passage the counts are again the recorded successes and within the limit, for any mix of failures, denials and cancellations |
| ToolRuns.PausedBelowLimit | agent/engine_loop.go:516-544 | at a pause the tool that waits is below the limit |
| ResponseLives.ApprovedCallGoesAhead | agent/engine_loop.go:516-544 | on resume the limit does not reject the approved call and it is not asked about again |
| ResponseLives.HeadsTracked | agent/engine_resume.go:147-181 | over any number of pauses the counts at every loop head are the recorded successes within the limit |
| ResponseLives.RunTracked | agent/engine_loop.go:516-600 | so they are over a run of any number of responses |
| ResponseLives.PausesBounded | agent/engine_loop.go:868-886 | a response is paused at most once for each of its calls |
| ResponseLives.EmptyErrorRejectsApprovedCall | agent/engine_runstate.go:120-128 | the input on which the limit rejects an approved call |
| ResponseLives.LimitRejectsExactlyWhen | agent/engine_loop.go:516-521 | on a resume the limit rejects the approved call iff the tool's successes and its failures without an error text come to the limit |
| ToolExchanges.LegAnswers | agent/engine_loop.go:839-859 | a passage appends exactly the results of the recorded calls, in the order of the calls |
| ToolExchanges.ResultsMatchSteps | agent/engine_loop.go:839-859 | the content of each result is the observation recorded for its call, under the tool's name if the call has no ID |
| ToolExchanges.RecordsAllLength | agent/engine_loop.go:756-796 | a record that misses no call and repeats none has one entry for each |
| ToolExchanges.AnsweredInOrder | agent/engine_loop.go:479-552 | over any number of pauses the transcript gains one result for each call, in call order, with nothing between |
| ToolResults.ResultsTellSteps | agent/engine_loop.go:839-859 | over any number of pauses every result tells, at its call's place, what was recorded for its call, and no step is told twice |
| ToolExchanges.ToAgentToolCalls | agent/tools_adapter.go:34-57 | the loop keeps the calls with a name |
| ToolExchanges.AgentCallsKeep | agent/tools_adapter.go:34-57 | every call with a name is made, in order, under its ID, its trimmed name and with its arguments |
| ToolExchanges.ExchangeComplete | agent/context_compaction_blocks.go:93-157 | the parser finds the exchange complete iff all calls have names and distinct non-empty IDs |
| ToolExchanges.ExchangeCompactable | agent/context_compaction_blocks.go:93-157 | without other obstacles its block is compactable in just that case |
| ToolExchanges.ResponseLeavesOneExchange | agent/engine_loop.go:202-212 | the whole life of an answerable response leaves one block, the exchange |
| AnsweredMessages.AnsweredParses | agent/context_compaction_blocks.go:46-157 | in messages whose calls are all answered the parser finds no invalid exchange, whatever is protected, pending or prepared |
| AnsweredMessages.AnsweredExactly | agent/context_compaction_checkpoint.go:246-254 | without images the check accepts exactly the messages whose calls are all answered |
| AnsweredMessages.ResponseAnswered | agent/engine_loop.go:202-212 | the whole life of an answerable response, over any number of pauses, adds answered messages |
| ExchangeRuns.AnsweredCompacts | agent/context_compaction_engine.go:252-437 | an answered transcript is compacted iff there is something to select, a summary with text, and a store that takes it |
| ExchangeRuns.CompactionKeepsAnswered | agent/context_compaction_checkpoint.go:222-254 | what a compaction leaves is answered again |
| ExchangeRuns.RunsParse | agent/context_compaction_blocks.go:46-157 | at any time of a run that answers its calls before it compacts, at which its calls are answered, the parse has no invalid exchange behind the fixed messages |
| ExchangeRuns.StartedRunsCompact | agent/context_compaction_checkpoint.go:240-254 | from the start of such a run, no compaction of it is ever refused for its exchanges |
| ToolLoops.BatchRun.CompleteItem | agent/engine_loop.go:554-692 | records one call: item, step, count and early stop |
| ToolLoops.BatchRun.CancelRest | agent/engine_loop.go:787-793 | every call that has not come back is recorded as cancelled |
| ToolLoops.BatchRun.RunParallel | agent/engine_loop.go:756-796 | whatever the completion order and the time of cancellation, the drain included, every call is recorded exactly once |
| ToolLoops.BatchRun.RunSequential | agent/engine_loop.go:797-836 | the calls are recorded in order, all of them or up to the one that ends the run |
| ToolLoops.DecideParallel | agent/engine_loop.go:694-725 | the loop decides for a parallel run iff nothing awaits approval and several calls run, all of them safe |
| ToolLoops.ToolLoop.GuardDecide | agent/engine_loop.go:957-997 | a required approval is passed only with the unused identity of the resume, which is then used up |
| ToolLoops.ToolLoop.CheckAll | agent/engine_loop.go:486-548 | the check in call order, up to the first call that needs an approval |
| ToolLoops.ToolLoop.AppendResults | agent/engine_loop.go:839-859 | appends the results in call order |
| ToolLoops.ToolLoop.RunToolCalls | agent/engine_loop.go:479-887 | the three phases do what a passage is specified to do, with early stop before approval, for any answers and cancellation; they fail only if the guard cannot evaluate a call or an output, and then no result is appended, and steps and counts are those of the calls recorded |
| Approvals.FileApprovalStore.Create | guard/approvals_file.go:42-75 | stores a pending record with its ID and expiry and touches no other |
| Approvals.NewRecordIs | guard/approvals_file.go:42-75 | a new record is pending, under its trimmed ID or a drawn one, with the times it has or now and the time to live |
| Approvals.FileApprovalStore.Get | guard/approvals_file.go:77-95 | finds the record under the trimmed ID, if any |
| Approvals.FileApprovalStore.Resolve | guard/approvals_file.go:97-135 | succeeds iff the record is pending and the status is a resolution, and changes only that record |
| Approvals.ResolvesOnce | guard/approvals_file.go:97-135 | a record can be resolved once, to approved, denied or expired, under any spelling of its ID |
| Approvals.FileApprovalStore.ConsumeApproved | guard/approvals_file.go:137-181 | succeeds iff the record is approved, unconsumed and unexpired, and changes only that record |
| Approvals.RequestCanBeResumed | agent/engine_resume.go:36-85 | what a pause asked for can be resumed, and consumed, iff it was approved and the time to live has not passed |
| ApprovalRaces.StepKeeps | guard/approvals_file.go:97-181 | every step of every participant keeps the invariant that links records, resumers and the log of events |
| ApprovalRaces.ApprovalUsedAtMostOnce | agent/engine_loop.go:986-995 | over every interleaving a record leaves pending at most once, is consumed at most once, only when approved and in time, and its call passes the guard at most once, only after that |
| ApprovalRaces.LoserGivesUp | agent/engine_resume.go:143-145 | of two resumers with the same approval the second gives up, changing nothing |
| ApprovedActions.ReadyExactlyWhen | agent/engine_resume.go:36-85 | a resume goes ahead iff the record is approved and in time and its action has the hash that was asked for |
| ApprovedActions.OnlyApprovedActionsRun | agent/engine_resume.go:70-85 | over every interleaving a resumed run goes on with the action that was hashed for an approved record |
| OutputLines.SplitJoins | agent/coder_tool.go:607-609 | splitting cuts the stream at its newlines and loses nothing |
| OutputLines.SplitUnique | agent/coder_tool.go:607-609 | there is only one way to do so |
| OutputLines.OverflowsOnce | agent/coder_tool.go:607-609 | each over-long line overflows exactly once and no other line does |
| OutputLines.OneEventForEachLine | agent/coder_tool.go:617-647 | one event for each line, in order: the line itself, or the overflow if it is too long |
| OutputLines.BrokenOffLine | agent/coder_tool.go:650-656 | a stream that breaks off within a line is handed over as if the line had ended |
| OutputLines.LineWriter.Write | agent/coder_tool.go:617-647 | after any writes the events, the buffer and the skipping flag are those of the stream so far |
| OutputLines.LineWriter.BufferBounded | agent/coder_tool.go:617-647 | between writes the buffer is at most one line long |
| OutputLines.LineWriter.Flush | agent/coder_tool.go:650-656 | the events are those of splitting the whole stream |
| OutputLines.LineWriter.WriteStream | agent/coder_tool.go:613-656 | however a stream is cut into writes, its events are those of the whole |
| OutputLines.TailBuffer.Write | agent/coder_tool.go:1108-1122 | the buffer holds exactly the last bytes of everything written |
| OutputLines.LastMeans | agent/coder_tool.go:1108-1122 | the last bytes are an end of the stream as long as the limit allows |
| Workers.OrderIsPermutation | agent/worker.go:86-105 | for every seed and stream the order is a permutation |
| Workers.SeedOneAvatars | agent/worker.go:86-105 | the order of avatars that the repository fixes for seed 1 |
| Workers.WorkerPermutation | agent/worker.go:86-105 | the loop over the array computes the order |
| Workers.NameIndexInjective | agent/worker.go:181-187 | distinct workers get distinct name indexes |
| Workers.NameIndexOnto | agent/worker.go:181-187 | every name index is given out, within its own round |
| Workers.WorkerNameInjective | agent/worker.go:108-114 | distinct name indexes have distinct display names |
| Workers.WorkersDiffer | agent/worker.go:174-196 | no two workers of a task share an ID or a name |
| Workers.WorkerNamed | agent/worker.go:108-114 | a worker has its number in its ID and a name of the pool, with its round as a suffix from the second round on |
| Workers.DecimalValue | agent/worker.go:108-114 | the suffix is the number in decimal |
| Workers.AvatarsCycle | agent/worker.go:183-187 | within a cycle no worker's avatar repeats, and the next cycle repeats them |
| Workers.WorkerScope.AllocateWorker | agent/worker.go:174-196 | a call keeps its worker; another gets the next of the task's sequence |
| Allocations.NewKeysInOrder | agent/worker.go:174-196 | new calls get the workers of the next numbers, one after the other |
| Allocations.KeysKeep | agent/worker.go:174-196 | a call keeps its worker, whatever is allocated in between |
| Workers.WithResumedWorkerScope | agent/worker.go:131-153 | a resume into a fresh scope has the seed and the count of the pause and no calls; a scope already in use keeps its seed and calls |
| Workers.ResumeContinuesSequence | agent/worker.go:131-196 | the workers given to any sequence of calls after such a resume are those of the uninterrupted run iff none of the calls had its worker before |
| Contacts.ContactStore.RemoveContactByID | contacts/file_store.go:1302-1312 | the loop removes exactly the entries with the ID |
| Contacts.ContactStore.TrimActiveContacts | contacts/file_store.go:1314-1330 | cuts the ranked list at the limit |
| Contacts.SortRanked | contacts/file_store.go:1319-1326 | the ranking puts more recent contacts first and breaks ties by ID |
| Contacts.LessMeans | contacts/file_store.go:1322-1324 | the order of IDs is that of their first difference |
| Contacts.ContactStore.PutContact | contacts/file_store.go:314-375 | merges the contact with the stored one, places it, and keeps the cap |
| Contacts.ContactStore.SetContactStatus | contacts/file_store.go:379-430 | moves the contact as it is, and reports whether there is one |
| ContactBooks.PutKeeps | contacts/file_store.go:314-375 | every other contact stays as it is, IDs stay unique across both lists, at most 150 are active |
| ContactBooks.MergedFrom | contacts/file_store.go:330-347 | the entry put is the contact as it comes; only pairing, owner mark and legacy fields are kept from its old entry |
| ContactBooks.TrimmedCap | contacts/file_store.go:1314-1330 | what is moved off the active list is ranked no more recent than what is kept |
| ContactBooks.NoContactLost | contacts/file_store.go:314-430 | over any sequence of operations no contact is lost or doubled, its owner mark never changes and its pairing is never undone |
| ContactBooks.NewContactsAreNotOwners | contacts/file_store.go:340-347 | a contact enters by PutContact only, and without the owner mark |
| ContactBooks.PutPlaces | contacts/file_store.go:349-372 | where a put leaves every contact: its own in the inactive list iff it was there and is not paired, every other in its list, and then moved by the cap iff at least 150 active ones are ranked before it |
| ContactBooks.SetStatusAdds | contacts/file_store.go:379-430 | making a contact active adds one whatever the number |
| ContactBooks.SetStatusPlaces | contacts/file_store.go:379-430 | where a change of status leaves every contact, for both statuses: the contact in the list of its new status, the others where they were |
| Outbox.NormalizeOutboxRecord | contacts/file_store.go:1835-1910 | the sequence of checks accepts exactly the valid records |
| OutboxRuns.StoredExactlyWhen | contacts/file_store.go:1835-1910 | a record is stored iff it has a key and an attempt, its times are set and in order, and its status agrees with its time of sending and its error; it is stored trimmed |
| OutboxRuns.KeyExactlyWhen | contacts/file_store.go:1835-1910 | a record has a key iff its channel is known and its ID is not blank, whatever the case and the white space |
| OutboxRuns.TransitionsExactlyWhen | contacts/outbox_state_machine.go:24-111 | an attempt starts on no record or a pending or failed one; only a pending one is marked, which changes only what the mark tells |
| Outbox.OutboxStore.Put | contacts/file_store.go:558-603 | replaces the record of the key or adds one, keeping its creation time; refuses invalid records unchanged |
| OutboxRuns.PutKeepsCreation | contacts/file_store.go:558-603 | a record put under a key that has one keeps its creation time |
| Outbox.BusSender.SendWithBusOutbox | contacts/service.go:831-931 | the steps of a delivery, for any answer and any crash, and how often the sender is called |
| OutboxRuns.PendingValid | contacts/outbox_state_machine.go:24-72 | when an attempt can start, and that its record is valid with one more attempt and the old creation time |
| OutboxRuns.DoneValid | contacts/outbox_state_machine.go:74-111 | the record of a finished attempt is built iff a failure has an error text, and is valid |
| OutboxRuns.SendKeeps | contacts/service.go:851-931 | a send keeps the invariant of every key and touches only its own |
| OutboxRuns.DeliveryStored | contacts/service.go:893-930 | an attempt that comes to its end is stored as sent iff the sender did not refuse |
| OutboxRuns.CalledExactlyWhen | contacts/service.go:870-892 | the sender is called iff the attempt can start and nothing crashes before, and a crash leaves the record of the attempt under way |
| OutboxRuns.NoKeyNoCall | contacts/service.go:831-850 | without a key a send is an error, with nothing stored and nothing sent |
| OutboxRuns.OutcomeToldRight | contacts/service.go:893-930 | a finished attempt reports what the sender answered, and the stored record agrees in every field |
| OutboxRuns.RepeatToldRight | contacts/service.go:851-863 | a delivery stored as sent is reported again as it was, as a duplicate, without an attempt |
| OutboxRuns.CallsWithinAttempts | contacts/service.go:851-931 | over every run with crashes the sender is called at most as often as attempts are recorded |
| OutboxRuns.SentStaysSent | contacts/service.go:851-863 | once a record is stored as sent the sender is never called again for its key; a creation time never changes |
| OutboxRuns.SendErrs | contacts/service.go:831-931 | exactly when a send ends in an error |

## Left out

- Images, summaries and JSON: reading images, the request to the summariser and the checks of its answer are one input, a summary or none; a message's size in JSON is part of the message.
- Roles: a message has its role after trimming and lower-casing; resume state and metadata checks that compare the raw text are not told apart from it.
- Hooks, steering, plans, insights, reactions, events and metrics: they take no part in the stated properties, and hooks may change the transcript arbitrarily.
- Nested calls of code mode and provider-supplied result messages: a response here is the assistant message with its calls.
- Pending call IDs during compaction: a run compacts only before a model request, when no call is pending; the parser takes them as an option.
- Observations: the wording of the repeat-limit, cancellation and unknown-tool texts, and the wrapper around untrusted output, are not modelled; step numbers and durations are not part of a step.
- Tool search: the tools visible to a run are the registry's.
- Lower-casing covers ASCII, which is what tool and channel names are.
- Slices are values: that compaction must not write through shared slices is not captured.
- CheckpointStore.NoLostUpdate: histories are without deletion, because a deletion restarts the revisions.
- ExchangeRuns.StartedRunsCompact: the history given to the run and its responses are answered; a response with nameless calls or with empty or repeated IDs is not (ToolExchanges.ExchangeComplete).
- CompactionRuns.MetadataSurvives: that the message behind the fixed ones is that of the checkpoint held needs stores that give back the checkpoint of the pause; without a deletion they do (SharedRuns.WithoutDeletion), and with one it is false (SharedRuns.DeletionRestartsRevisions).
- RunProperties.CoveredThroughAdvances: after a resume that read another checkpoint, what is covered before the first boundary is what that checkpoint says; the boundaries of the history are covered alike.
- ResumeStates.PauseRoundTrip: the store is asked for the revision of the pause, so the checkpoint that comes back is the one of the pause only under the condition of SharedRuns.ResumesAreFaithful.
- EngineRuns.ResumeEngine: the approval, its identity and the model's context window are looked up before; here they are settled.
- OutboxRuns.SentStaysSent: sends of one key do not overlap, because the record is read outside the delivery.
- ApprovalRaces.ApprovalUsedAtMostOnce: approval IDs are fresh; they are drawn at random.
- ResponseLives.HeadsTracked: failures have an error text and the limit is the same after a resume; the first is exact by ToolRuns.ResumeCountsSuccesses.
- Outbox.OutboxStore.Put: the order of records in the file is not modelled, and keys are pairs; the file's text form joins them by a colon, which no channel contains.
- Contacts.ContactStore.PutContact: the two lists are written in one step, and the normalisation of contact fields is done before.
- Guard redaction, URL policy, audit, stores' file formats, and everything under cmd/, desktop/, demo/, integration/, skills/ and secrets/.
