# Proofs about the agent harness

This project models the state machines and algorithms of the harness and proves what they keep. Every
module is one component: values are datatypes, the components whose methods update fields are classes
whose methods are proved equal to functions on values, and the theorems are about those functions and
about every run of them.

- **Context compiler** (`ContextItems`, `ContextDedup`, `ContextCompiler`, `ContextTheorems`): filter,
  two-stage de-duplication, sliding window, hierarchical compaction and budgeted selection. Results:
  replay, conservation of ids, the budget bound, and that nothing that fits is left out.
- **Run coordinator and event stream** (`RunLog`, `RunCancel`, `RunStream`, `CachedStore`): the trimmed
  event log, cancellation against a running executor, resumable delivery with Last-Event-ID (section 9.2
  of the WHATWG HTML Living Standard), and the read-through store. Each lock section is one atomic step;
  the results are about every interleaving.
- **Knowledge lifecycles** (`Memory*`, `Skill*`, `Reflection*`): invariants of every run of memory, skill
  and reflection operations, and exactly-once learning under interruptions at any step.
- **Retrieval** (`Chunker`, `IndexModel`, `IndexTheorems`, `IndexRuns`, `HybridSearch`, `SearchTheorems`,
  `Reranker`): chunking, the incrementally maintained index, rank fusion and reranking.
- **Bounded loops** (`PlanningLoop`, `PlanningTheorems`, `ResultProjection`, `RateLimiter`).

`Wrappers`, `Ordering` and `Texts` hold the option and result types, string order and the stable sort, and
Python's string operations.

Conventions: floats are reals; a SHA-256 digest is the value it digests (so equal digests mean equal
values); times are integers or reals; the empty string stands for a missing optional string where the
code treats both alike; ids that the code generates are parameters. External replies (model, reranker,
database faults, network) are parameters and range over everything.

## What the code does not give

- A summary cut to `max_tokens * 4` characters meets its token limit only without CJK text
  (`ContextItems.LimitSummaryMeetsLimit`).
- A cancellation can be followed by one more event when the executor has passed its last check or stands
  before its unchecked first append (`RunCancel.LateAppendExactly`); all such events but the handler's error
  can reopen the status (`RunCancel.ReopeningExactly`).
- After a cache write that failed, reads may be stale, and an append then overwrites newer events of the
  authority (`CachedStore.GetIsWrongExactly`, `CachedStore.AppendLosesExactly`).
- An active skill may break the promotion policy in two ways: a roll-back does not check it, and
  `request_approval` withdraws the approval of a version that stays active
  (`SkillTheorems.PolicyHoldsExactly`).
- A reflection job whose process dies during a pass stays running and is never retried
  (`ReflectionTheorems.DeathIsFinal`).
- A chunk's line numbers are those of its raw window, counted from the stripped section: blank lines that open
  the section and newlines stripped off the window put them off (`Chunker.LineNumbersAreRightExactly`). A blank
  window ends a section's chunks early (`Chunker.WindowsCoverExactly`).
- The index version ignores the chunking settings, and the chunk table is unique in corpus, document,
  ordinal and index version (`packages/storage/migrations/0010_authoritative_rag.sql:52`): re-indexing the
  same files with other settings fails (`IndexRuns.RechunkingFails`), and so does a corpus in which two
  files with chunks share a document id (`IndexRuns.CompletesExactly`).
- With a reranker fewer hits than requested are returned when its pool is smaller than the limit
  (`SearchTheorems.RerankedTop`).
- The required tool does not run when the model picks other tools in all six rounds
  (`PlanningTheorems.RequiredRunsOnce`), and calls to tools that are not allowed stay in the conversation
  without an answer (`PlanningTheorems.CallsAreAnsweredExactly`).
- With a limit of two or more the rate limiter needs a clock that does not go back
  (`RateLimiter.AnyClockExactly`).

## Model

| member | source | states |
|---|---|---|
| ContextTheorems.CompileIgnoresOrder | packages/context/compiler.py:178-325 | replay: compiling any rearrangement of the same items (unique ids) gives the same bundle, order and warnings included |
| ContextTheorems.EveryItemIsAccountedFor | packages/context/compiler.py:190-248 | conservation: every input id ends in exactly one place, among the model items (verbatim or compressed) or among the excluded ids |
| ContextTheorems.PreparedExactly | packages/context/compiler.py:190-204 | an input item reaches the budgeted selection exactly when none of the four stages before it excluded it |
| ContextTheorems.BudgetHolds | packages/context/compiler.py:206-248 | `tokens_used` is the sum of the chosen estimates and never exceeds the larger of the budget and the total of the pinned items |
| ContextTheorems.NothingThatFitsIsLeftOut | packages/context/compiler.py:214-248 | selective recall: a visible prepared item that is not chosen fits into the final remaining budget neither verbatim nor compressed |
| ContextTheorems.PinnedItemsReachTheModel | packages/context/compiler.py:214-220 | a pinned, visible item that survives de-duplication reaches the model exactly when the sliding window does not fold it away; only session items can be folded |
| ContextTheorems.WindowKeepsNewest | packages/context/compiler.py:496-544 | the window folds away the oldest session items, as many as exceed its size |
| ContextTheorems.WindowSplits | packages/context/compiler.py:496-544 | the window stage passes an item on exactly when it does not exclude it, excludes only its own inputs, and adds only its summary |
| ContextTheorems.HierarchySplits | packages/context/compiler.py:546-618 | the same for hierarchical compaction, whose most relevant item survives |
| ContextTheorems.ConflictsAreExactlyDisagreements | packages/context/compiler.py:422-459 | a conflict is disclosed for a fact exactly when two surviving items state it with different values, and it names every item that states it |
| ContextDedup.DedupKeepsChampions | packages/context/compiler.py:373-419 | the two stages keep, for each distinct content, exactly the item with the greatest (score, id), which is what a single pass keeps |
| ContextDedup.DedupExcludesTheRest | packages/context/compiler.py:373-419 | the excluded ids are exactly those of the items not kept |
| ContextDedup.DedupIgnoresOrder | packages/context/compiler.py:373-419 | arrival order changes neither the survivors, nor their order, nor the excluded ids |
| ContextDedup.KeepBestKeepsChampions | packages/context/compiler.py:403-419 | one pass over a dictionary keyed by content keeps exactly the champions |
| ContextDedup.KeepBestLoop | packages/context/compiler.py:403-418 | the updating loop computes that pass and the ids it gives up |
| ContextDedup.GroupByPrimary | packages/context/compiler.py:376-382 | the grouping loop collects the items of every (source_ref, version) in order and the others apart |
| ContextDedup.Deduplicate | packages/context/compiler.py:373-419 | `_deduplicate`, loop by loop, equals the specification whose survivors are characterised above |
| ContextItems.SortKeyOrder | packages/context/compiler.py:461-469 | the sort key orders any two items, and items it cannot order share their id |
| ContextItems.LimitSummaryCost | packages/context/compiler.py:675-678 | a limited summary never costs more than four times its limit |
| ContextItems.LimitSummaryMeetsLimit | packages/context/compiler.py:675-678 | it meets the limit itself exactly when nothing was cut, or a full cut holds no CJK character |
| ContextItems.LimitSummaryWorstCase | packages/context/compiler.py:675-678 | a long summary of CJK characters costs exactly four times the limit |
| ContextCompiler.FilterLoop | packages/context/compiler.py:328-370 | the filter loop: candidates and excluded ids, a hidden item being both a candidate and excluded |
| ContextCompiler.ParagraphLoop | packages/context/compiler.py:564-583 | the paragraph loop summarises the foldable items chunk by chunk |
| ContextCompiler.SelectOne | packages/context/compiler.py:214-248 | one round sends the item to exactly one side: chosen, verbatim or compressed, with its estimate added and within the budget unless pinned, or excluded by its id, and then no form of it fits |
| ContextCompiler.SelectLoop | packages/context/compiler.py:214-248 | the selection loop |
| ContextCompiler.CompileContext | packages/context/compiler.py:178-325 | `compile`, stage by stage, computes the bundle that the theorems are about |
| RunLog.AppendKeepsRetained | apps/api_gateway/agent_run_coordinator.py:442-480 | appending to a trimmed log gives the trimmed log of the longer history: the whole run, or `run.started` and the last events |
| RunLog.CancelKeepsRetained | apps/api_gateway/agent_run_coordinator.py:490-504 | the same for the lock section of `cancel`, which leaves a terminal status |
| RunLog.SequencesIdentifyEvents | apps/api_gateway/agent_run_coordinator.py:443-480 | sequence numbers identify the events of every run exactly when the log may hold at least two |
| RunLog.AgentRunCoordinator.CreateSession | apps/api_gateway/agent_run_coordinator.py:348-353 | stores the session and nothing else |
| RunLog.AgentRunCoordinator.StartRun | apps/api_gateway/agent_run_coordinator.py:363-399 | a message id that already names a run returns that run and changes nothing; otherwise one new run with its first event |
| RunLog.AgentRunCoordinator.AppendEvent | apps/api_gateway/agent_run_coordinator.py:433-440 | the event gets the next number of the whole history, trimmed or not |
| RunLog.AgentRunCoordinator.CancelRun | apps/api_gateway/agent_run_coordinator.py:490-504 | only the owner cancels; the run is flagged and the cancellation logged unless the status is terminal |
| RunCancel.FlagIsLogged | apps/api_gateway/agent_run_coordinator.py:490-509 | in every interleaving `cancel_requested` answers whether a cancellation was ever logged |
| RunCancel.AtMostOneLateAppend | apps/api_gateway/agent_run_coordinator.py:401-431 | in every interleaving of cancellations with the executor at most one event is appended after the first cancellation |
| RunCancel.CancellationIsPermanent | apps/api_gateway/agent_run_coordinator.py:490-509 | a cancellation request is never withdrawn |
| RunCancel.SeenCancellationSilences | apps/api_gateway/routers/agent.py:636-640 | once a check has seen the request the executor appends nothing more |
| RunCancel.LateAppendExactly | apps/api_gateway/agent_run_coordinator.py:401-431 | something is appended after a cancellation in some continuation exactly when the executor had already passed its last check, or needs none |
| RunCancel.ArmedRunsCanBeCancelled | apps/api_gateway/agent_run_coordinator.py:490-504 | a run whose status is not terminal can be cancelled wherever its executor stands |
| RunCancel.MoveReopensExactly | apps/api_gateway/agent_run_coordinator.py:481-487 | a terminal status is left exactly by appending an event of a status-carrying type with a status that is not terminal |
| RunCancel.ReopeningExactly | apps/api_gateway/agent_run_coordinator.py:401-431 | a cancelled run of terminal status can leave it exactly when the executor stands before its first append or has passed the check of an `emit` or of a projected event; the handler's late error cannot reopen it |
| RunCancel.LateAppendReopensRun | apps/api_gateway/agent_run_coordinator.py:401-414 | both bounds are reached: cancelling a queued run before the unchecked first append leaves one late event and lets a second cancellation be logged |
| RunCancel.PlayKeepsHistory | apps/api_gateway/agent_run_coordinator.py:442-504 | in every interleaving the log stays the trimmed form of the full history |
| RunStream.PollLoop | apps/api_gateway/routers/agent.py:707-712 | the polling loop sends what is beyond the cursor and moves the cursor along |
| RunStream.PollSkipsExactlyWhenLagging | apps/api_gateway/routers/agent.py:707-712 | a poll reaches the newest event, and skips one exactly when the reader lags by more than the retained tail |
| RunStream.PlayKeepsInv | apps/api_gateway/routers/agent.py:701-730 | over any appends, cancellations, polls, reads, disconnects and reconnects, what the client has and what is under way form one walk ending at the cursor |
| RunStream.DeliveryIsOrderedAndGapless | apps/api_gateway/routers/agent.py:701-730 | the client's event numbers strictly increase, belong to the run, and without lag are all numbers after the start |
| RunStream.ClosingSentEverything | apps/api_gateway/routers/agent.py:713-714 | the stream closes exactly at a terminal status, and then the client ends with every event up to that poll |
| RunStream.LoopResumes | apps/api_gateway/routers/agent.py:703-730 | whatever the log does and wherever the connection breaks, the polling server resumes after the number it is given |
| RunStream.StreamNeverRepeats | frontend/src/features/agentWorkflowClient.js:66-97 | against that server the reconnecting client hands on strictly increasing numbers, asks at most six times, and gives up only after five retries |
| RunStream.ReadChunks | frontend/src/features/agentWorkflowClient.js:79-89 | the inner loop hands on all frames of any answer, and ends at their last number where they walk on from the start |
| RunStream.StreamAgentRun | frontend/src/features/agentWorkflowClient.js:66-97 | the outer loop over requests, against any server |
| RunStream.LastSeenIsEnd | frontend/src/features/agentWorkflowClient.js:85 | ignoring a last number of zero loses nothing: where frames walk on, the last number seen is where they end |
| CachedStore.PlayKeepsAgreement | apps/api_gateway/agent_run_coordinator.py:131-217 | under any calls, faults and evictions a cached value differs from the authoritative one only if the last cache write of its key was reported as failed |
| CachedStore.AuthorityIsPlain | apps/api_gateway/agent_run_coordinator.py:141-201 | the authority always holds what a store without a cache would hold |
| CachedStore.EffectiveWritesAgree | apps/api_gateway/agent_run_coordinator.py:131-217 | where no cache write of a key loses its effect, the cached value is the authoritative one |
| CachedStore.CacheHoldsLastWrite | apps/api_gateway/agent_run_coordinator.py:131-217 | the cache holds for each key what a plain store held at the key's last effective cache write that was not evicted, and nothing where there is none |
| CachedStore.GetIsWrongExactly | apps/api_gateway/agent_run_coordinator.py:145-201 | a `get` is wrong exactly when the cache answers and the value has changed since that write; it raises exactly when neither side answers |
| CachedStore.GetRefinesPlainStore | apps/api_gateway/agent_run_coordinator.py:145-201 | in particular, where no cache write of the key fails, every `get` that returns at all returns what a plain store holds, whatever reads fail and whatever is evicted |
| CachedStore.LostWriteIsVisible | apps/api_gateway/agent_run_coordinator.py:211-217 | after any calls, a lost write makes the next answered `get` wrong exactly when another value was cached |
| CachedStore.AppendLosesExactly | apps/api_gateway/agent_run_coordinator.py:433-440 | reading, appending and saving through the cache extends the authority's log exactly when the cached one is not stale; otherwise what was saved in between is lost |
| CachedStore.CachedAgentRunStore.SaveRecord | apps/api_gateway/agent_run_coordinator.py:154-156 | authority first, whose failure propagates; then the cache, whose failure is swallowed |
| CachedStore.CachedAgentRunStore.GetRecord | apps/api_gateway/agent_run_coordinator.py:158-165 | cache first, then authority with a back-fill |
| MemoryTheorems.PlayKeepsInv | packages/memory/service.py:21-325 | every run of memory operations with fresh ids and no foreign links keeps the invariant behind the next results |
| MemoryTheorems.AtMostOneActiveFact | packages/memory/service.py:123-176 | each scope and fact key has at most one active memory, and supersession links stay inside both |
| MemoryTheorems.ChainGoesBackInTime | packages/memory/service.py:145-176 | the supersession graph is acyclic |
| MemoryTheorems.RollbackReachesTheOldest | packages/memory/service.py:217-259 | repeated rollback ends, at the oldest memory of the chain, which is then active |
| MemoryTheorems.RollbackUndoesPromotion | packages/memory/service.py:123-259 | a superseding promotion and its rollback make the predecessor the only active memory again; histories grow by the two events, no other row changes |
| MemoryTheorems.StepExtendsHistories | packages/memory/service.py:21-325 | every operation keeps what a memory says and only extends its history |
| MemoryTheorems.PromotionKeepsUniqueExactly | packages/memory/service.py:123-176 | in any state a promotion keeps active facts unique exactly when the superseded memory was the only rival |
| MemoryTheorems.ForeignLinkBreaksUniqueness | packages/memory/service.py:145-153 | a record that arrives with a link to another active memory does break uniqueness |
| MemoryService.Service.CreateCandidate | packages/memory/service.py:21-97 | idempotency, duplicate and conflict detection, in the code's order |
| MemoryService.Service.Validate | packages/memory/service.py:99-121 | candidate to validated, with the two errors |
| MemoryService.Service.Promote | packages/memory/service.py:123-176 | validated to active, superseding the linked memory |
| MemoryService.Service.ResolveConflict | packages/memory/service.py:185-215 | conflicted to validated with a link to the chosen active memory |
| MemoryService.Service.Rollback | packages/memory/service.py:217-259 | the superseding memory steps back for its predecessor |
| MemoryService.Service.Expire | packages/memory/service.py:261-273 | expiry from any status, keeping an earlier expiry time |
| MemoryService.Service.Delete | packages/memory/service.py:275-276 | the row is gone, and the answer tells whether it was there |
| MemoryService.Service.Search | packages/memory/service.py:309-318 | the recall loop counts every hit |
| SkillTheorems.OneActiveVersion | packages/skills/lifecycle_service.py:18-163 | in every run of skill operations, auto-promotion, roll-backs and curation included, a skill has at most one active version and every active version was evaluated |
| SkillTheorems.PlayKeepsInv | packages/skills/lifecycle_service.py:18-163 | the invariant behind it |
| SkillTheorems.ActivationReplacesActive | packages/skills/lifecycle_service.py:46-82 | activation moves the one active version to one that meets the policy, names the old one as base, and touches nothing else |
| SkillTheorems.RollbackMeetsPolicyExactly | packages/skills/lifecycle_service.py:84-115 | a roll-back keeps one active version, which meets the promotion policy exactly when it did before |
| SkillTheorems.StepKeepsPolicyExactly | packages/skills/lifecycle_service.py:18-163 | from a registry whose active versions meet the policy, an operation breaks that exactly when it rolls back to a version that breaks it or asks again for the approval of an active version that needs one |
| SkillTheorems.PolicyHoldsExactly | packages/skills/lifecycle_service.py:18-163 | the policy holds throughout a run exactly when no operation of it is one of these two |
| SkillTheorems.RollbackReachesBreach | packages/skills/lifecycle_service.py:84-115 | a never approved high-risk version becomes active by a roll-back |
| SkillTheorems.ReapprovalReachesBreach | packages/skills/lifecycle_service.py:117-159 | an active high-risk version asks for approval again and stays active when it is rejected |
| SkillTheorems.CurationIsComplete | packages/skills/curator.py:26-48 | after curation no active version is unused since the threshold, and a second run changes nothing |
| SkillTheorems.GreatestIsAbove | packages/reflection/service.py:566-568 | the greatest version is one of them and bounds all in tuple order |
| SkillTheorems.NextVersionIsAbove | packages/reflection/service.py:558-569 | the version of a learned skill is strictly above every existing one, so its key is new |
| SkillTheorems.LearnedDraftOverwritesNothing | packages/reflection/service.py:536-548 | storing a draft under it leaves all other versions alone |
| SkillService.Service.CreateDraft | packages/skills/lifecycle_service.py:18-31 | a known idempotency key returns the known skill; otherwise the draft is saved |
| SkillService.Service.ActivateAdmin | packages/skills/lifecycle_service.py:46-82 | the policy checks in order, the superseding loop, the activation |
| SkillService.Service.Evaluate | packages/skills/lifecycle_service.py:33-44 | evaluation and the auto-promotion of low-risk candidates |
| SkillService.Service.Rollback | packages/skills/lifecycle_service.py:84-115 | one version back, with the three errors |
| SkillService.Service.MarkStale | packages/skills/curator.py:26-48 | the curator's loop marks exactly the unused active versions |
| SkillService.MarkEachIsCurate | packages/skills/curator.py:26-48 | marking row by row has the effect of marking all at once |
| ReflectionTheorems.PassCountsFailures | packages/reflection/service.py:199-321 | a pass that fails at any step counts one attempt and ends the job exactly at the limit |
| ReflectionTheorems.JobEnds | packages/reflection/service.py:173-321 | whatever the schedule and the exceptions, a job fails at most `max_attempts` passes, and an ended job is not picked up again |
| ReflectionTheorems.DeathIsFinal | packages/reflection/service.py:180-208 | a process that dies during a pass leaves the job running for ever, unless its completion was stored |
| ReflectionTheorems.CreateTwice | packages/memory/service.py:23-29 | creating a memory under an idempotency key is idempotent, error included |
| ReflectionOnce.ExactlyOnce | packages/reflection/service.py:199-321 | after any interrupted passes at most one candidate, one memory and one skill version were added; other candidates and memories are unchanged, and of the older versions only the candidate's own draft and, with auto-promotion, the active ones that gave way to it; a completed job's candidate refers to an existing record |
| ReflectionOnce.WorkOnce | packages/reflection/service.py:173-197 | the invariant behind it, over every schedule |
| ReflectionOnce.PassOnce | packages/reflection/service.py:199-321 | one pass, cut short anywhere, keeps it |
| ReflectionOnce.MaterializeOnce | packages/reflection/service.py:457-556 | materialising twice stores once |
| ReflectionOnce.RememberOnce | packages/reflection/service.py:471-535 | the memory of a candidate is created at most once and found again by its key |
| ReflectionOnce.DraftOnce | packages/reflection/service.py:536-549 | so is its skill draft |
| ReflectionService.Service.MaterializeCandidate | packages/reflection/service.py:457-556 | `_materialize`, cut short before a given step |
| ReflectionService.Service.Attempt | packages/reflection/service.py:209-264 | the `try` of `_process` |
| ReflectionService.Service.Process | packages/reflection/service.py:199-321 | `_process` with its handler |
| Chunker.MakeSettings | packages/rag/ingestion.py:112-116 | small windows are refused and the overlap is clamped to half a window |
| Chunker.SectionsPartitionLines | packages/rag/ingestion.py:162-179 | the sections' lines in order are the document's lines, every section starts at its line number, and headings stand exactly at section starts |
| Chunker.SectionLoop | packages/rag/ingestion.py:162-179 | the line loop computes those sections |
| Chunker.WindowsCoverExactly | packages/rag/ingestion.py:127-158 | windows overlap by exactly the overlap, are as many as the formula says, and rebuild the section exactly when no window is blank; otherwise they stop short |
| Chunker.OuterWindowsAreNotBlank | packages/rag/ingestion.py:124-132 | the first and last windows of a stripped section are never blank |
| Chunker.CutsCount | packages/rag/ingestion.py:127-158 | a text longer than a window gets one window and one per further stride begun |
| Chunker.OrdinalsAreConsecutive | packages/rag/ingestion.py:133 | chunks are numbered through the document |
| Chunker.SectionsAreChunked | packages/rag/ingestion.py:123-132 | a section gets a chunk exactly when it is not blank, and a blank window that ends its chunks early stands between its first and last windows |
| Chunker.LineNumbersAreRightExactly | packages/rag/ingestion.py:138-148 | a chunk's first line is right exactly when its section does not open with a blank line and no newline was stripped off the front of its window, and its last line exactly when as many newlines were stripped off the back as blank lines open the section; otherwise both are off by these counts |
| Chunker.SecondWindowStartsEarly | packages/rag/ingestion.py:128-148 | a section with a heading of one window's length: the next chunk is said to start a line too early |
| Chunker.HeadedSectionsCanBeWrong | packages/rag/ingestion.py:138-148 | such a section exists |
| Chunker.WindowLoop | packages/rag/ingestion.py:125-159 | the cursor loop over one section; it terminates |
| Chunker.ChunkLoop | packages/rag/ingestion.py:118-160 | `chunk` |
| IndexTheorems.IndexEqualsCorpus | packages/rag/indexer.py:90-120 | after a successful run the active documents and the chunks search sees are exactly those of the files, a later file with the same document id replacing an earlier one, whatever the tables held |
| IndexTheorems.ReplaceEffect | packages/rag/postgres.py:150-247 | one replacement writes the new rows over the old table with the document's other chunks off, and fails exactly when a stored row keeps a chunk out |
| IndexTheorems.UpsertFailsExactly | packages/rag/postgres.py:194-247 | the row-by-row constraint check fails exactly when the old table blocks some chunk |
| IndexTheorems.UpsertIsUnion | packages/rag/postgres.py:194-247 | `ON CONFLICT` writes the whole new row: the columns it leaves alone are determined by the id |
| IndexTheorems.MarkingEffect | packages/rag/postgres.py:249-281 | marking turns off exactly the corpus's documents outside the run and their chunks |
| IndexTheorems.RunKeepsWellFormed | packages/rag/indexer.py:90-150 | every run, failed ones included, keeps the tables well formed, so a later run repairs them |
| IndexRuns.CompletesExactly | packages/rag/indexer.py:90-120 | a run over distinctly named files completes exactly when nothing raises, no stored row of this version blocks a chunk, and no two files with chunks share a document id |
| IndexRuns.ReindexChangesNothing | packages/rag/indexer.py:90-120 | indexing an unchanged corpus again succeeds and changes nothing in use |
| IndexRuns.RechunkingFails | packages/rag/indexer.py:152-162 | the index version does not digest the chunking settings: after changing them, files whose chunk texts differ can no longer be indexed |
| IndexRuns.OtherCorporaUntouched | packages/rag/postgres.py:249-281 | a run, successful or not, changes no row of another corpus |
| IndexRuns.ChunkInUseExactly | packages/rag/indexer.py:90-120 | after a successful run search sees a chunk exactly when a file supplies it that no later file with its document id replaces, and with that file's row |
| IndexRuns.LaterFileWins | packages/rag/postgres.py:150-192 | a file's document is the one in use exactly when no later file has its document id |
| IndexRuns.ReportCountsWhatIsWanted | packages/rag/indexer.py:86-120 | with distinct document ids the report's counts are those of the documents and chunks in use |
| IndexModel.EmbedInBatches | packages/rag/indexer.py:97-104 | every chunk gets its own vector whatever the batch size |
| IndexModel.RagRepository.ReplaceDocument | packages/rag/postgres.py:150-247 | the transaction: all of it, or nothing when a constraint breaks |
| IndexModel.RagRepository.MarkMissingDocuments | packages/rag/postgres.py:249-281 | the two updates |
| IndexModel.IndexDocument | packages/rag/indexer.py:91-115 | one turn of the document loop with its counters |
| IndexModel.IndexRoot | packages/rag/indexer.py:63-150 | `index_root`: tables and report, and what stays after a failure |
| HybridSearch.MergeIsRankFusion | packages/rag/search.py:72-91 | merging lists every chunk of either channel once, with the sum of its reciprocal ranks |
| HybridSearch.MergeLoop | packages/rag/search.py:72-91 | the merging loop over one channel |
| HybridSearch.BonusLoop | packages/rag/search.py:92-101 | the bonus loop |
| HybridSearch.HitLoop | packages/rag/search.py:133-158 | the results, numbered from one |
| HybridSearch.Search | packages/rag/search.py:41-168 | `search`, given what the two queries and the reranker return: hits, warnings, and the error of a score list of the wrong length |
| SearchTheorems.SearchKeyOrders | packages/rag/search.py:102-129 | both sort keys are total orders, and entries they cannot order share their chunk id |
| SearchTheorems.HitsAreRanked | packages/rag/search.py:58-158 | at most twenty hits, never more than asked for, ranked 1, 2, ..., all different chunks |
| SearchTheorems.EntryFusion | packages/rag/search.py:72-101 | a score is the reciprocal ranks in both channels plus the bonus |
| SearchTheorems.MergedScoresAreBest | packages/rag/search.py:82-87 | a merged chunk carries the greatest lexical and vector scores of its places in both channels |
| SearchTheorems.NothingBetterIsOmitted | packages/rag/search.py:102-134 | a failed reranker gives the hits of none, and then an omitted chunk is strictly worse than every returned one |
| SearchTheorems.ListedIsReturned | packages/rag/search.py:72-134 | without a reranker a chunk listed in either channel is left out only when the limit is used up |
| SearchTheorems.DominanceIsRespected | packages/rag/search.py:72-109 | a chunk that leads another in both channels with at least its bonus is returned first |
| SearchTheorems.PoolIsTheHead | packages/rag/search.py:112-113 | everything in the rerank pool beats everything behind it |
| SearchTheorems.RerankedTop | packages/rag/search.py:112-134 | reranked hits are the best of the pool, each with its own score, and nothing comes from outside it |
| Reranker.Rerank | packages/rag/reranker.py:43-81 | an answer is accepted exactly when it scores every text once with finite scores, and the scores are put back in text order; the errors in order |
| ResultProjection.CompactionKeepsTheHead | packages/agent_runtime_rpc/result_projection.py:24-72 | a compacted value is at most 5600 characters, holds the first dictionary hits, at least one, with only texts shortened, and one more would not have fitted |
| ResultProjection.CompactionGivesUpExactly | packages/agent_runtime_rpc/result_projection.py:46-72 | compaction gives up exactly when no leading hit is a dictionary, or the first one does not fit shortened, or it does not fit in full and the very first hit is no dictionary |
| ResultProjection.ShrinkFailsExactly | packages/agent_runtime_rpc/result_projection.py:63-72 | the shrinking loop gives up exactly when the first hit does not fit with the shortest text that halving leaves |
| ResultProjection.BoundedMeetsLimit | packages/agent_runtime_rpc/result_projection.py:11-21 | the model sees at most 6000 characters, or a pointer |
| ResultProjection.CollectedHits | packages/agent_runtime_rpc/result_projection.py:46-56 | the collecting loop takes a prefix of the dictionary hits, ending at one that does not fit |
| ResultProjection.ShrinkFits | packages/agent_runtime_rpc/result_projection.py:63-72 | the shrinking loop drops hits, then halves the last text, and stops as soon as the rest fits |
| ResultProjection.CompactedLen | packages/agent_runtime_rpc/result_projection.py:139-145 | the serialised length is additive in the hits and the count |
| ResultProjection.ClipShortens | packages/agent_runtime_rpc/result_projection.py:133-136 | clipping, also repeatedly, leaves the text or a prefix of it with an ellipsis |
| ResultProjection.CompactLoop | packages/agent_runtime_rpc/result_projection.py:46-72 | both loops; they terminate by hit count, then text length |
| PlanningTheorems.OnlyAllowedToolsRun | packages/agent_runtime_rpc/service.py:1254-1283 | whatever the model replies, only allowed tools run |
| PlanningTheorems.RequiredRunsOnce | packages/agent_runtime_rpc/service.py:412-646 | the required tool runs at most once, has run whenever the loop ends by `break`, and has not run exactly when every round selected other tools only |
| PlanningTheorems.ChoiceRunsRequired | packages/agent_runtime_rpc/service.py:432-483 | one round runs it exactly when it has not run and the model did not select only others |
| PlanningTheorems.ResultsMatchMessages | packages/agent_runtime_rpc/service.py:602-609 | one tool message for every result, in the same order and with the same tool |
| PlanningTheorems.CallsAreAnsweredExactly | packages/agent_runtime_rpc/service.py:438-529 | a round answers all the calls it wrote exactly when it rewrote them or all of them had an id and named an allowed tool |
| PlanningLoop.MangleRoundTrip | packages/agent_runtime_rpc/service.py:1242-1267 | replacing dots and back gives the id exactly when no underscore runs into an underscore or a dot |
| PlanningLoop.NameResolvesExactly | packages/agent_runtime_rpc/service.py:1264-1267 | when a function name resolves to the tool it was made from |
| PlanningLoop.RequiredTool | packages/agent_runtime_rpc/service.py:777-786 | only a search intent requires a tool, and only where that tool is allowed |
| PlanningLoop.SelectLoop | packages/agent_runtime_rpc/service.py:1254-1283 | `_selected_tool_calls` |
| PlanningLoop.FreshLoop | packages/agent_runtime_rpc/service.py:440-448 | the loop that drops repeats of the required tool |
| PlanningLoop.ChooseCalls | packages/agent_runtime_rpc/service.py:432-483 | what a round runs and what it writes as the model's calls |
| PlanningLoop.CallLoop | packages/agent_runtime_rpc/service.py:530-609 | the loop over the selected calls |
| PlanningLoop.PlanLoop | packages/agent_runtime_rpc/service.py:412-646 | the rounds, left by `break` |
| RateLimiter.PruningLosesNothing | packages/security/rate_limit.py:13 | what a later check sees survives every earlier pruning |
| RateLimiter.EveryWindowIsWithinLimit | packages/security/rate_limit.py:11-19 | in every run whose clock does not go back every half-open window holds at most `limit` accepted hits, and a check is refused exactly when the full history has `limit` hits in its window |
| RateLimiter.StepKeepsInv | packages/security/rate_limit.py:11-19 | one check keeps the stored hits equal to the recent part of the full history |
| RateLimiter.AnyClockExactly | packages/security/rate_limit.py:11-19 | for every clock, forward or not, all windows stay within the limit and checks are decided by the full history, exactly when the limit is at most one |
| RateLimiter.BackwardsClockOverflows | packages/security/rate_limit.py:11-19 | for every larger limit and every window a run whose clock goes back once accepts one hit too many |
| RateLimiter.InMemoryRateLimiter.Check | packages/security/rate_limit.py:11-19 | `check`: the whole new state, whatever the clock does |
| RateLimiter.PruneLoop | packages/security/rate_limit.py:13 | the list comprehension |

## Left out

- RunLog.AgentRunCoordinator.AppendEvent: the class assumes `max_events` of at least two; with one, numbers repeat, as RunLog.SequencesIdentifyEvents says.
- RunLog.AgentRunCoordinator.StartRun: submitting the executor is not part of it; the executor is RunCancel's second process.
- RunStream.DeliveryIsOrderedAndGapless: one client and one run; the polling delay and the text of a frame are left out.
- RunStream.StreamNeverRepeats: an abort of the request by the user, and the delay between retries, are left out.
- CachedStore.GetRefinesPlainStore: the three record kinds are one key space; the in-memory store's trimming is an eviction.
- ContextCompiler.CompileContext: `_render`, the snapshot hash, provider failures, cache hits and the runtime label are passed through or functions of what is modelled, so they are not part of the bundle; the summariser is a function of its items; a paragraph's retrieval time, taken from the wall clock in the code, is the request's.
- ContextTheorems.ConflictsAreExactlyDisagreements: which fact an item states is a parameter.
- MemoryTheorems.AtMostOneActiveFact: memory ids are not reused and new records carry no supersession link; MemoryTheorems.ForeignLinkBreaksUniqueness shows that the second is needed.
- MemoryService.Service.Search: how the repository scores and limits hits is a parameter; embeddings, summaries and `updated_at` are left out.
- SkillTheorems.NextVersionIsAbove: the text of a version is parsed already; a version that is not numeric makes the operation fail.
- SkillTheorems.CurationIsComplete: the report of duplicate packages is left out.
- ReflectionOnce.ExactlyOnce: one job and one worker, with the same traces at every pass; enqueueing, human review, events and metrics are left out. An exception inside the exception handler is a death of the process for ReflectionTheorems.DeathIsFinal.
- Chunker.ChunkLoop: the text is given as its lines, and the chunk's ids and token counts, which are functions of its fields, are left out.
- IndexModel.IndexRoot: files are loaded already, apart from failures; listing the directory, the run log table and descriptive columns are left out, and an interrupted process, as opposed to an exception, is not modelled.
- IndexModel.RagRepository.ReplaceDocument: the uniqueness of corpus and source path cannot break, because the document id is a function of the path, so it is not checked.
- HybridSearch.Search: the two queries' results and the term matchers are parameters; scores are not rounded, and `rrf_constant` is not negative.
- Reranker.Rerank: the request itself; a score or index that cannot be converted is a missing one.
- ResultProjection.BoundedMeetsLimit: a pointer's length depends on its ids, which nothing bounds.
- PlanningLoop.PlanLoop: what tools return, their hooks, observations and trace events, the arguments' JSON and an exception from the model are left out.
- RateLimiter.EveryWindowIsWithinLimit: windows are positive.
- HTTP, gRPC, the user interface, model adapters, Redis, DBOS and PostgreSQL clients, daemon control and configuration: input and output.
- The in-memory and Redis stores behind the coordinator: maps.
- Regular expressions, embeddings, cosine scores, intent keywords, prompts and labels: parameters or lookups.
