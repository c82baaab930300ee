# Verified model of the drone gateway, beacon and coordinator cores

A Dafny model of the parts of the repository whose correctness depends on loops, arithmetic and
interleavings: splitting an outbound message under two budgets, keeping the wiki index in step with the
wiki, serial dispatch and locking on promise chains, request tables, chunking of code and text, merging of
configuration layers, ranking of search results, substitution of secrets, and disambiguating suggestions.

Code that changes things step by step is modelled by methods and classes, each proved against a
specification function or a step of a state machine; what the code promises is then proved about that
function, for all inputs, or about every run of the machine. Text is UTF-16 code units where lengths and
offsets matter (`Text.dfy`).

| files | what they model |
|---|---|
| `Text`, `Headings`, `PackChunks`, `SplitMessage`, `SplitTheorems`, `SplitCounterexamples` | the outbound message splitter |
| `WikiStore`, `WikiIndexer`, `WikiTheorems` | the incremental wiki index over its four tables, with stops at any statement |
| `WikiReindex` | debounce timer and in-flight flag of re-indexing |
| `DispatchTail`, `Batching`, `GatewayEngine` | serial dispatch, message batching and routing of the gateway engine |
| `KeyedLock` | per-key promise chains |
| `AgentSession`, `BeaconCommands` | the request slot of agent processes and the command table of beacons |
| `CodeChunker`, `SearchChunker`, `Whitespace` | chunking along syntax trees, at paragraphs, headings, lines and sentences |
| `DeepMerge`, `Uniqueness` | layered configuration merge |
| `MemoryFusion` | fusion and ranking of search results |
| `ConfigResolve` | secret references and the distribution payload |
| `SuggestContext` | the context block suggested for an ambiguous match |
| `Runs`, `Options`, `Numbers`, `Sequences` | shared: runs of state machines, optional values and outcomes, minimum and maximum, stretches of sequences |

## Where the comments and the code differ

The model follows the code. Each difference below is proved by the member named.

- The splitter's reservation loop is said to move towards its fixed point from below and never to
  oscillate (`drone-gateway/src/split-message.ts:165-169`). A window of line breaks that is skipped can let a
  larger reservation get by with fewer chunks: for one text of 110 characters, a chunk budget of 13 and the
  default markers the loop swings between 10 and 9 until its 64 turns are used up
  (`ReservationCanSwing`). The number of windows does grow with the reservation on every text
  (`WindowsMonotone`), and the number of chunks does on every text in which no four line feeds stand in a row
  and each line feed behind a heading line stands alone (`PlainCountMonotone`), those in which no window is
  ever skipped among them (`SpacedIsPlain`); there the comment is right (`PlainTextsAreSplitAsPromised`). Neither half of that condition can be relaxed: there are texts with four
  line feeds in a row and no heading, and with two line feeds behind a heading, that a larger reservation
  packs into fewer chunks (`FourBreaksCanShrink`, `BreakBehindHeadingCanShrink`).
- "The marker can never push a chunk over budget" (`drone-gateway/src/split-message.ts:71-72`) fails
  for the same text of 110 characters: its second message is one character too long
  (`MarkerCanPushAMessageOverBudget`). It holds for the default markers on texts as above when the chunk
  budget is wider than the markers of as many messages as the text has characters
  (`PlainTextsAreSplitAsPromised`).
- The truncated tail is said to be as long as the budget allows
  (`drone-gateway/src/split-message.ts:190-194`). For 111 letters and both budgets 60 it is 11 letters with
  100 reported as dropped, where 12 beside a report of 99 would have fitted (`TailCanBeTooShort`). With
  `r` characters left and a budget of `b` this happens exactly if `r + 47 + k - b` is `10^k` for some
  positive `k` and no more than `r` (`TailIsLongestUnlessPowerOfTen`).
- The plan walk's comment says that both cost terms grow with the plan size
  (`drone-gateway/src/split-message.ts:215-218`). The tail's marker can shrink; stopping at the first
  infeasible size is right all the same, below a hundred million characters (`WalkFindsLargestPlan`).
- A wiki update that stops between its page transaction and its keyword rows leaves the old keyword rows
  through any number of passes over the new version, because the repair only looks for missing rows
  (`drone-beacon/src/wiki-indexer.ts:194-218`; `StoppedUpdateStaysStale`). An indexing that stops before its
  last statement leaves no trigram row in the same way, because only the stemmed table is looked at
  (`StoppedIndexingStaysWithoutTrigrams`). These are the only two such places
  (`StoppedStepKeepsKeywordsCurrent`).
- A wiki page without text is meant to be removed from the index
  (`drone-beacon/src/wiki-indexer.ts:229-233`), but chunking blank markdown gives one empty chunk, not
  none (`BlankMarkdownIsOneEmptyChunk`).
- "A conversation never runs two agent turns at once" (`drone-gateway/src/engine.ts:66-70`) holds per
  record. A conversation whose record serves only some senders while its adapter has a wildcard uses two
  tails, and a run can have functions with its messages running on both; no other conversation can
  (`TurnsOverlapExactlyWhenSplit`, `SplitSendersRunTogether`).
- Splitting a node at its block drops whatever follows the block, such as the `else` of an `if` or the
  `catch` of a `try` (`drone-beacon/src/code-chunker.ts:183-193`;
  `CoversUnlessSomethingFollowsABlock`).
- A request whose write throws is rejected but keeps its session's slot
  (`drone-gateway/src/local-spawn-backend.ts:240-259`; `FailedWriteBlocksSlot`, `FailedWriteBlocksNextRequest`).
  This can happen to imports, whose data is turned to JSON inside the write.
- A suggested context is said to be missing only when no unique block exists
  (`drone-core/src/position-types.ts:27-33`). Only single lines are examined; a block of common lines in an
  order of its own is missed (`BlocksWithoutUniqueLinesAreMissed`).
- It is also said to be the smallest block that still disambiguates
  (`drone-core/src/position-types.ts:57-65`). It is the shortest that joins the match to a unique line
  (`BlockIsShortest`); a shorter one without a unique line may do as well (`SmallerBlocksAreMissed`).

## Model

| member | source | states |
|---|---|---|
| Headings.HeadingLineIsAtx | drone-gateway/src/split-message.ts:40-53 | the heading test by measured runs accepts exactly the lines that some split into at most three spaces, one to six hashes and an end, tab or space makes an ATX opening in the sense of section 4.2 of the CommonMark Spec |
| Headings.JudgeHeading | drone-gateway/src/split-message.ts:47-53 | the judgement made on demand at an offset is the one the ruled text has for it |
| Headings.EndsWithHeadingLineMeans | drone-gateway/src/split-message.ts:47-53 | a chunk ending at an offset ends on a heading if and only if, one closing line feed aside, some stretch up to there holds no line feed, starts the text or stands behind a line feed, and opens a heading in the sense of section 4.2 of the CommonMark Spec |
| Headings.RuledMeans | drone-gateway/src/split-message.ts:47-53 | the ruled text marks exactly these offsets |
| PackChunks.CutsAtLastUsableBreak | drone-gateway/src/split-message.ts:117-152 | a window is cut at its last usable paragraph break, else at its last usable line break, else at the budget; a usable break never ends a heading line, and exactly one break character is dropped |
| PackChunks.ScanParagraphBreak | drone-gateway/src/split-message.ts:119-130 | the backward loop finds the last paragraph break of the window that does not end a heading, or none |
| PackChunks.ScanLineBreak | drone-gateway/src/split-message.ts:135-144 | the backward loop finds the last line break of the window that does not end a heading, or none |
| PackChunks.PackWindow | drone-gateway/src/split-message.ts:106-160 | one turn of the packing loop keeps or skips the window and resumes where the specification says |
| PackChunks.PackLoop | drone-gateway/src/split-message.ts:102-163 | the packing loop computes the specified chunks |
| PackChunks.PackTiles | drone-gateway/src/split-message.ts:102-163 | packed chunks are non-empty, in order, disjoint slices of the text, and every character in none of them is a line break |
| PackChunks.PackSizes | drone-gateway/src/split-message.ts:106-114 | the first chunk fits the whole budget and every other one the budget less the reserved marker width |
| PackChunks.TilesConserve | drone-gateway/src/split-message.ts:102-163 | the first so many chunks hold, in order, every character that is no line break up to where they end |
| PackChunks.ChunksEndRight | drone-gateway/src/split-message.ts:102-163 | of every text each chunk ends at the last usable paragraph break of its window, else at its last usable line break, else at its budget, or at the end of the text; a break is usable if it ends no heading line |
| PackChunks.HeadingsStayWithTheirText | drone-gateway/src/split-message.ts:40-46 | of every text a chunk that ends on a heading line is the last or was cut at its budget because its window has no usable break |
| PackChunks.ResumeMonotone | drone-gateway/src/split-message.ts:106-160 | a later start or a larger budget never gives an earlier resume point |
| PackChunks.WindowsMonotone | drone-gateway/src/split-message.ts:165-169 | a larger reservation never visits fewer windows, on any text |
| PackChunks.CountFallsOnlyBySkipping | drone-gateway/src/split-message.ts:153-169 | since windows never get fewer, a larger reservation can pack fewer chunks only by skipping more windows than it adds |
| PackChunks.CountMonotone | drone-gateway/src/split-message.ts:165-169 | where the larger reservation skips no window it packs at least as many chunks |
| PackChunks.PlainCountMonotone | drone-gateway/src/split-message.ts:165-169 | for every text in which no four line feeds stand in a row and those behind heading lines stand alone, a larger reservation never packs fewer chunks, whether windows are skipped or not |
| PackChunks.NoWindowIsSkippedExactlyWhenSpaced | drone-gateway/src/split-message.ts:117-160 | no budgets make the loop skip a window if and only if the text is a single character or has no line feed at its start, behind another one or behind a heading line |
| SplitMessage.ReserveLoop | drone-gateway/src/split-message.ts:170-178 | the reservation loop with its 64 turns computes the specified packing |
| SplitMessage.FullChunksCost | drone-gateway/src/split-message.ts:180-188 | the cost loop sums bodies and the continuation markers of messages 2 onwards |
| SplitMessage.PlanWalk | drone-gateway/src/split-message.ts:219-231 | the walk over plan sizes stops before the first infeasible size |
| SplitMessage.TruncatedTail | drone-gateway/src/split-message.ts:195-213 | the tail loop computes the specified cut, and cut and dropped count add up to the rest of the text |
| SplitMessage.SplitMessage | drone-gateway/src/split-message.ts:77-267 | the whole split, with its two range errors, the empty and the short text, computes the specified messages |
| SplitTheorems.Conservation | drone-gateway/src/split-message.ts:102-163 | without their markers the messages hold in order every non-break character of a prefix of the text, the whole text unless truncated, and the truncation marker reports exactly the number of characters after it |
| SplitTheorems.TailFits | drone-gateway/src/split-message.ts:204-211 | at every turn of the tail loop the cut and the marker it implies fit the tail's budget |
| SplitTheorems.TotalWithinCeiling | drone-gateway/src/split-message.ts:57-76 | with a truncation marker that fits both budgets for the whole text, the messages total at most the ceiling |
| SplitTheorems.MessagesWithinBudget | drone-gateway/src/split-message.ts:66-71 | where the markers sent are no wider than those reserved for, as with a self-consistent count, each message with its marker fits the chunk budget |
| SplitTheorems.DefaultMarkersHaveDefaultWidths | drone-gateway/src/split-message.ts:90-94 | the default markers are 4 and 46 units wide plus their decimal numerals |
| SplitTheorems.DefaultMarkersSay | drone-gateway/src/split-message.ts:90-94 | the default markers are their words around the decimal numerals of the message, the total and the characters dropped, in this order |
| SplitTheorems.ChosenMarkersAreSent | drone-gateway/src/split-message.ts:90-94 | the markers sent are the ones given, and the default ones where none is |
| SplitTheorems.ShortTextIsSentAsItIs | drone-gateway/src/split-message.ts:85-88 | a text within both budgets, the empty one included, is sent as it is |
| SplitTheorems.FailsExactlyOnBudgetsBelowOne | drone-gateway/src/split-message.ts:78-84 | a split fails if and only if a budget is below one, the chunk budget being looked at first |
| SplitTheorems.CutsOffOnlyWhatDoesNotFit | drone-gateway/src/split-message.ts:233-240 | a truncated plan is sent exactly when neither the text itself nor all its chunks fit |
| SplitTheorems.WalkFindsLargestPlan | drone-gateway/src/split-message.ts:215-231 | with the default widths the walk ends on the largest truncated plan of which some tail fits with its marker |
| SplitTheorems.FeasibleMeansSomeTailFits | drone-gateway/src/split-message.ts:215-231 | the walk's test accepts a plan size if and only if some cut of its tail fits the tail's budget together with its marker |
| SplitTheorems.TruncatedPlanIsBest | drone-gateway/src/split-message.ts:215-257 | the messages of a plan that is cut off are as many as of the largest such plan with a tail that fits, and the last one is cut for exactly what the chunk budget and the other messages leave |
| SplitTheorems.TailSettles | drone-gateway/src/split-message.ts:204-211 | the tail loop reaches its fixed point once it has a turn for every unit the marker can lose |
| SplitTheorems.TailCutIsLeastSettled | drone-gateway/src/split-message.ts:195-213 | the tail loop ends on the least cut that the marker it implies confirms, and the two fit the budget |
| SplitTheorems.TailIsLongestUnlessPowerOfTen | drone-gateway/src/split-message.ts:190-213 | the tail is the longest that fits its budget unless, for the characters left and the budget, dropping a power of ten above one leaves exactly the room its marker takes; then it is not |
| SplitTheorems.ClimbSettles | drone-gateway/src/split-message.ts:170-177 | from below a loop over a count that only grows with its number of digits reaches the least fixed point, with at most one turn per digit gained and two more |
| SplitTheorems.ReservationIsLeastSelfConsistent | drone-gateway/src/split-message.ts:165-177 | where the count grows with the reservation the loop ends on the least self-consistent count |
| SplitTheorems.GrowingMessagesFit | drone-gateway/src/split-message.ts:66-72 | where the count grows with the reservation and the widest marker is narrower than the chunk budget, every message with its marker fits that budget |
| SplitTheorems.UnskippedMessagesFit | drone-gateway/src/split-message.ts:66-72 | where no window is skipped and the widest marker is narrower than the chunk budget, every message with its marker fits that budget |
| SplitTheorems.PlainTextsAreSplitAsPromised | drone-gateway/src/split-message.ts:66-72 | for a text in which no four line feeds stand in a row and those behind heading lines stand alone, every message fits the chunk budget and the reservation is the least self-consistent one |
| SplitCounterexamples.CountCanFall | drone-gateway/src/split-message.ts:165-169 | a larger reservation can pack fewer chunks |
| SplitCounterexamples.FourBreaksCanShrink | drone-gateway/src/split-message.ts:165-169 | with four line feeds in a row and no heading a larger reservation can pack fewer chunks |
| SplitCounterexamples.BreakBehindHeadingCanShrink | drone-gateway/src/split-message.ts:165-169 | so it can with two line feeds behind a heading line and never more than two in a row |
| SplitCounterexamples.ReservationCanSwing | drone-gateway/src/split-message.ts:165-178 | with the default markers the loop can swing for ever and end on ten chunks packed for nine |
| SplitCounterexamples.MarkerCanPushAMessageOverBudget | drone-gateway/src/split-message.ts:68-71 | with the default markers a message can exceed the chunk budget |
| SplitCounterexamples.TailCanBeTooShort | drone-gateway/src/split-message.ts:190-213 | 111 letters with both budgets 60 are sent as 11 and a report of 100, though 12 and a report of 99 would fit |
| WikiStore.Database.RemoveWikiSource | drone-beacon/src/db/wiki-chunks.ts:56-62 | removal leaves no row of the page in any table and touches no other page |
| WikiStore.Database.ReplaceWikiPage | drone-beacon/src/db/wiki-chunks.ts:154-169 | the transaction replaces source row and chunks of one page and nothing else |
| WikiStore.Database.ReplaceWikiFtsRows | drone-swarm-common/src/wiki-fts.ts:145-167 | the four statements leave exactly one keyword row and one trigram row of the page |
| WikiStore.Database.GetWikiSourcesWithChunkCounts | drone-beacon/src/db/wiki-chunks.ts:171-180 | the snapshot has each source row's hash and number of chunks |
| WikiIndexer.Indexer.Reconcile | drone-beacon/src/wiki-indexer.ts:163-172 | the loop removes exactly the stored pages in scope that were not collected, and counts them |
| WikiIndexer.Indexer.IndexPage | drone-beacon/src/wiki-indexer.ts:184-274 | one page is skipped, repaired, emptied, indexed or failed as specified, and no other page changes |
| WikiIndexer.Indexer.IndexWiki | drone-beacon/src/wiki-indexer.ts:143-280 | a pass computes the specified store and report; without a model it does nothing |
| WikiIndexer.StepDecides | drone-beacon/src/wiki-indexer.ts:184-273 | a page is skipped if and only if the snapshot has chunks of it under the hash of this very fingerprint, page and time of update, repaired if it then has chunks but no keyword rows, emptied if its body has no texts, indexed if they embed; and it fails otherwise |
| WikiIndexer.IndexingWrites | drone-beacon/src/wiki-indexer.ts:227-264 | an indexed page has a chunk for each text of its body, in order and embedded under its title, its source row, and keyword and trigram rows with its title, its pitch, its tags joined by spaces and its chunks' texts joined by blank lines |
| WikiIndexer.RepairWrites | drone-beacon/src/wiki-indexer.ts:196-214 | a repaired page keeps its source row and chunks and has such keyword and trigram rows of its chunks |
| WikiIndexer.JoinedJoins | drone-beacon/src/wiki-indexer.ts:209-211 | joining puts the separator between neighbours and nowhere else |
| WikiIndexer.PassReports | drone-beacon/src/wiki-indexer.ts:27-34 | the report counts pages by what came of them, and the pages removed because they were not collected |
| WikiTheorems.SourceKeyIsInjective | drone-beacon/src/wiki-indexer.ts:317-323 | two pages share a lookup string only if they are the same page |
| WikiTheorems.HashIdentifiesVersion | drone-beacon/src/wiki-indexer.ts:36-47 | with an injective digest and fingerprints without NUL, equal hashes of a page mean the same fingerprint and time of update |
| WikiTheorems.PageEndsFresh | drone-beacon/src/wiki-indexer.ts:184-274 | a page that does not fail ends with the source row and chunks of a rebuild and with keyword rows; all its rows are the rebuild's exactly when it was not skipped over others |
| WikiTheorems.ReachableStoresAreSound | drone-beacon/src/wiki-indexer.ts:163-274 | after any history of operations stopped at any statement, chunks are only ever those of a completed write, and no row outlives its source row |
| WikiTheorems.VisitedPage | drone-beacon/src/wiki-indexer.ts:174-182 | with each page collected once, the snapshot says of every page what a live lookup would |
| WikiTheorems.PassLeavesOthers | drone-beacon/src/wiki-indexer.ts:133-172 | a page that was not collected is removed if its origin is in scope and untouched otherwise |
| WikiTheorems.PassFromNothingRebuilds | drone-beacon/src/wiki-indexer.ts:143-280 | indexing into empty tables leaves exactly the collected pages, indexed from scratch |
| WikiTheorems.CollectedPagesAreRebuilt | drone-beacon/src/wiki-indexer.ts:143-280 | page by page: a failed page keeps its rows, any other has the rebuild's source row and chunks and has keyword rows |
| WikiTheorems.IncrementalEqualsRebuild | drone-beacon/src/wiki-indexer.ts:82-87 | from every sound store with current keyword rows, a pass over both origins in which nothing fails leaves exactly the rebuilt index |
| WikiTheorems.PassKeepsKeywordsCurrent | drone-beacon/src/wiki-indexer.ts:184-274 | a completed pass keeps keyword rows current, whatever fails in it |
| WikiTheorems.StoppedStepKeepsKeywordsCurrent | drone-beacon/src/wiki-indexer.ts:194-264 | stopping a page's step leaves keyword rows that are not current exactly after the page transaction of a changed page and before the last insert |
| WikiTheorems.StoppedUpdateStaysStale | drone-beacon/src/wiki-indexer.ts:196-218 | an update stopped after its page transaction keeps the old version's keyword rows after any sequence of passes over the new version |
| WikiTheorems.StoppedIndexingStaysWithoutTrigrams | drone-swarm-common/src/wiki-fts.ts:291-302 | an indexing stopped before its last insert has no trigram rows after any sequence of passes over that version |
| WikiTheorems.SecondVisitChangesNothing | drone-beacon/src/wiki-indexer.ts:194-218 | a page that did not fail is left as it is by the next pass |
| WikiTheorems.PassContinuesHistory | drone-beacon/src/wiki-indexer.ts:143-280 | what a pass leaves is again a store that some history of operations reaches |
| WikiTheorems.UnreachableCoordinatorKeepsItsPages | drone-beacon/src/wiki-index-support.ts:23-72 | a coordinator listing that could not be fetched changes no row of the coordinator's pages |
| WikiReindex.CyclesNeverOverlap | drone-beacon/src/wiki-indexer.ts:116-131 | on every run an indexer's flag is set exactly while a cycle of its runs, and no two of its cycles overlap |
| WikiReindex.NoWriteIsLost | drone-beacon/src/wiki-index-support.ts:93-118 | on every run with an indexer registered and no throwing cycle, each write is covered by a completed later cycle, or the timer is armed, a re-arm pending, or a later cycle running |
| WikiReindex.CoverageIsHistory | drone-beacon/src/wiki-index-support.ts:93-118 | on every run what a cycle counts as seen, and a completed one as covered, is the number of writes before the firing or sweep that started it |
| WikiReindex.IdleIndexersStart | drone-beacon/src/wiki-indexer.ts:116-131 | a sweep, or the timer for the registered indexer, starts a cycle unless one of that indexer is running; a sweep is then dropped and the timer re-armed |
| WikiReindex.DrainCovers | drone-beacon/src/wiki-index-support.ts:98-116 | without new writes, ending the running cycles, running the re-arms and one firing of the timer cover every write |
| WikiReindex.ThrowLosesUnlessArmed | drone-beacon/src/wiki-index-support.ts:104-115 | when a cycle throws, no write is lost exactly if the timer is armed, a re-arm is pending, all writes are covered or another running cycle has seen them all |
| WikiReindex.FiringLosesUnlessRemembered | drone-beacon/src/wiki-index-support.ts:93-118 | a timer that fires with no indexer loses no write exactly if a re-arm is pending, all writes are covered or a running cycle has seen them all |
| WikiReindex.ThrowingCycleLosesItsWrite | drone-beacon/src/wiki-index-support.ts:104-115 | a cycle that throws can lose the write that started it |
| WikiReindex.Reindexer.OnTimer | drone-beacon/src/wiki-index-support.ts:100-111 | the timer callback starts a cycle, or leaves a re-arm pending when the flag is set |
| WikiReindex.Reindexer.RunCycle | drone-beacon/src/wiki-indexer.ts:120-126 | a cycle starts exactly when the indexer's flag is clear, and sets it |
| WikiReindex.Reindexer.CycleSettles | drone-beacon/src/wiki-indexer.ts:126-130 | the flag is cleared whether the cycle succeeds or throws |
| DispatchTail.Dispatcher.RunOnTail | drone-gateway/src/engine.ts:71-81 | a dispatched function waits for the tail it found and its own tail becomes the record's |
| DispatchTail.DispatchIsSerial | drone-gateway/src/engine.ts:66-81 | on every run: tails are chained, a function starts only when all earlier ones of its record are done, and each starts at most once, in order |
| DispatchTail.AtMostOneRuns | drone-gateway/src/engine.ts:66-81 | two running functions are of different records |
| DispatchTail.RecordCanProceed | drone-gateway/src/engine.ts:75-79 | while a function is not done some step of its own record is possible, whatever other records do and whatever failed before |
| DispatchTail.StepsRunOut | drone-gateway/src/engine.ts:71-81 | without new submissions only finitely many steps are possible |
| DispatchTail.EveryJobRanOnce | drone-gateway/src/engine.ts:71-81 | when no step is left every function has run exactly once |
| DispatchTail.StepKeepsHands | drone-gateway/src/engine.ts:71-81 | a record's surface is handed exactly its submissions up to the next to start, in order |
| Batching.MessageBatcher.Push | drone-gateway/src/batcher.ts:19-24 | a push appends to the buffer and arms the timer; flushed batches and buffer stay what was pushed |
| Batching.MessageBatcher.Fire | drone-gateway/src/batcher.ts:26-32 | the timer flushes the whole buffer as one batch and leaves it empty |
| Batching.MessageBatcher.Dispose | drone-gateway/src/batcher.ts:35-39 | disposal drops buffer and timer |
| GatewayEngine.HandleMessage | drone-gateway/src/engine.ts:204-241 | routing of a message to a buffer, to a tail with its candidates, or nowhere |
| GatewayEngine.RouteMeans | drone-gateway/src/engine.ts:213-241 | a message is buffered if and only if its record serves the sender, is no wildcard and has one surface, which handles batches; dropped if and only if its record does not serve the sender and there is no wildcard; and otherwise queued for the record's surfaces, if it serves the sender, before the wildcard's |
| GatewayEngine.AskCandidates | drone-gateway/src/engine.ts:243-261 | candidates are asked in order up to the first that handles the message, or all |
| GatewayEngine.OneTailUnlessSendersAreSplit | drone-gateway/src/engine.ts:213-241 | the messages of one conversation share a tail exactly when its record does not send some senders on to a wildcard while serving others |
| GatewayEngine.TurnsOverlapOnlyWhenSplit | drone-gateway/src/engine.ts:66-81 | on every run two dispatched functions with messages of one conversation run at once only if its senders are so split |
| GatewayEngine.SplitSendersRunTogether | drone-gateway/src/engine.ts:213-241 | a run on which a message of a sender the record serves and one of a sender it does not serve run at once |
| GatewayEngine.TurnsOverlapExactlyWhenSplit | drone-gateway/src/engine.ts:66-81 | some run has two functions with messages of a conversation running at once if and only if its senders are split |
| GatewayEngine.BatchedMessagesArriveInOrder | drone-gateway/src/engine.ts:204-293 | on every run a batching record's surface has been handed, in order and none twice, a first part of the messages pushed, and until the stop the others are in queued batches or the buffer |
| KeyedLock.Locks.WithKeyLock | drone-swarm-common/src/keyed-lock.ts:14-20 | a task is chained behind the entry of its key, if any, and becomes the entry |
| KeyedLock.Locks.CleanUp | drone-swarm-common/src/keyed-lock.ts:21-25 | the entry is deleted only if it is still the task's own |
| KeyedLock.LockHolds | drone-swarm-common/src/keyed-lock.ts:8-26 | on every run tasks of a key start in order of arrival, each after all earlier ones have settled, and entries name the last task |
| KeyedLock.SameKeyTasksDoNotOverlap | drone-swarm-common/src/keyed-lock.ts:3-7 | while a task runs every later one of its key waits |
| KeyedLock.AbsentKeyIsIdle | drone-swarm-common/src/keyed-lock.ts:18-25 | a key absent from the map has no unsettled task |
| KeyedLock.CleanupDeletesOnlyLast | drone-swarm-common/src/keyed-lock.ts:23-25 | a cleanup deletes an entry exactly when its task is the last of the key |
| KeyedLock.KeyCanProceed | drone-swarm-common/src/keyed-lock.ts:18-19 | an unsettled task always leaves a step of its own key possible, after rejections too |
| KeyedLock.MapDoesNotLeak | drone-swarm-common/src/keyed-lock.ts:21-25 | once all tasks are cleaned up after, the map is empty |
| CodeChunker.SplitOversized | drone-beacon/src/code-chunker.ts:173-217 | the recursive split computes the texts of the specified pieces |
| CodeChunker.EmitGroup | drone-beacon/src/code-chunker.ts:219-227 | a group within the budget is one chunk, otherwise its first child is split |
| CodeChunker.TextsHoldTheStretches | drone-beacon/src/code-chunker.ts:178-226 | each text is the headers of its piece, one line feed behind each, and its body, all stretches of the file without the white space at their ends; the other characters are, in order, those of the stretches |
| CodeChunker.SplitInOrder | drone-beacon/src/code-chunker.ts:164-217 | chunks and headers are stretches of the node, in the order of the file and disjoint |
| CodeChunker.BodiesFit | drone-beacon/src/code-chunker.ts:164-227 | apart from headers every chunk is within the budget or a single childless node of the tree that is split |
| CodeChunker.GroupsArePacked | drone-beacon/src/code-chunker.ts:200-227 | the children are emitted in consecutive groups that cover them all; a group over the budget is a single child, and no group had room for the next child |
| CodeChunker.SplitCovers | drone-beacon/src/code-chunker.ts:183-216 | where nothing named follows a block, every childless descendant lies in a chunk or header |
| CodeChunker.CoversUnlessSomethingFollowsABlock | drone-beacon/src/code-chunker.ts:183-216 | every childless descendant of positive width is kept if and only if nothing named follows the block of a node that is split |
| CodeChunker.LastBlocksHideNothing | drone-beacon/src/code-chunker.ts:169-172 | blocks that are always the last named child hide nothing |
| DeepMerge.DeepMerge | drone-core/src/deep-merge.ts:46-113 | the loop over a layer's keys, in any order, computes the specified merge or the type error |
| DeepMerge.MergeField | drone-core/src/deep-merge.ts:59-109 | the rules are tried in the code's order |
| DeepMerge.MergeEntries | drone-core/src/deep-merge.ts:71-79 | the loop over a map's entries deletes on null, skips undefined and sets the rest |
| DeepMerge.UnmentionedFieldStays | drone-core/src/deep-merge.ts:51-55 | a field that the layer lacks or has undefined keeps the base's value |
| DeepMerge.ReplacedFieldIsLayers | drone-core/src/deep-merge.ts:59-63 | a field listed as replaced takes the layer's value, null included, however else it is listed |
| DeepMerge.MapFieldIsMerged | drone-core/src/deep-merge.ts:64-82 | a field listed as a map is cleared by null, merged entry by entry with a record, and replaced by anything else |
| DeepMerge.ArrayFieldIsUnited | drone-core/src/deep-merge.ts:83-87 | a list of a field listed as an array is united with the base's without duplicates, the base's items first |
| DeepMerge.RecordFieldIsSpread | drone-core/src/deep-merge.ts:88-105 | a record of a field listed for merging, or for no rule that fits, has the layer's value on every path through its own fields and the base's on every other |
| DeepMerge.NestedFieldIsMerged | drone-core/src/deep-merge.ts:93-99 | a record of a field with a nested specification is merged by it |
| DeepMerge.OtherFieldIsLayers | drone-core/src/deep-merge.ts:106-109 | any other value replaces the base's |
| DeepMerge.ThrowsExactlyWhenAFieldDoes | drone-core/src/deep-merge.ts:59-105 | a merge throws if and only if it reads a field of null or undefined, or spreads what is no list into a merged array, here or in a nested merge |
| DeepMerge.MergeEffect | drone-core/src/deep-merge.ts:32-45 | after a merge every path holds what the layer's effect on it makes of the value before; unmentioned paths are untouched |
| DeepMerge.LastMentionWins | drone-core/src/config-types.ts:831-836 | folding any layers gives a path the value of the last layer that mentions it, with null entries deleted and null maps cleared |
| DeepMerge.ArraysAreUnited | drone-core/src/deep-merge.ts:83-87 | merged arrays are the duplicate-free union of the base and all layers |
| DeepMerge.CascadeSucceeds | drone-core/src/deep-merge.ts:93-99 | on bases that carry the nested records, layers that respect the rules merge without a type error |
| Uniqueness.DedupKeepsFirst | drone-core/src/deep-merge.ts:85-87 | removing duplicates keeps the same elements, each once |
| Uniqueness.DedupInOrder | drone-core/src/deep-merge.ts:85-87 | of two elements kept, the one that occurs first comes first |
| SearchChunker.ChunkText | drone-swarm-common/src/search-chunker.ts:5-44 | the loops over paragraphs and oversized chunks compute the specified chunks |
| SearchChunker.ChunkMarkdown | drone-swarm-common/src/search-chunker.ts:53-113 | the loops over lines, sections, paragraphs and oversized chunks compute the specified chunks |
| SearchChunker.ChunkLines | drone-swarm-common/src/search-chunker.ts:120-145 | the sliding window computes the specified chunks |
| SearchChunker.SplitBySentences | drone-swarm-common/src/search-chunker.ts:152-171 | the loop over sentences computes the specified packing |
| SearchChunker.BlankLinesMeans | drone-swarm-common/src/search-chunker.ts:8-9 | paragraphs of text are parted at two line feeds or more, all that stand in a row |
| SearchChunker.BlankStretchMeans | drone-swarm-common/src/search-chunker.ts:83-86 | paragraphs of markdown are parted at white space from one line feed to the last one it reaches |
| SearchChunker.StartsHeadingMeans | drone-swarm-common/src/search-chunker.ts:66-68 | a section starts at one to six hashes at the start of a line and white space behind them |
| SearchChunker.SplitIsParted | drone-swarm-common/src/search-chunker.ts:9-9 | text is the pieces and the separators between them, and no separator starts inside a piece |
| SearchChunker.SplitIntoLines | drone-swarm-common/src/search-chunker.ts:66-66 | lines hold no line feed and joined by line feeds are the text |
| SearchChunker.ChunksAreStrung | drone-swarm-common/src/search-chunker.ts:14-31 | chunks are runs of trimmed paragraphs with a blank line between them, or of trimmed sentences with a space, and the runs are all of them in order |
| SearchChunker.ShortParagraphsArePacked | drone-swarm-common/src/search-chunker.ts:5-44 | where every paragraph fits four characters a token so does every chunk, and no two in a row would fit together |
| SearchChunker.ShortSectionsAreChunks | drone-swarm-common/src/search-chunker.ts:53-81 | where every section fits four characters a token the chunks of markdown are its sections |
| SearchChunker.ChunksAreBounded | drone-swarm-common/src/search-chunker.ts:5-113 | every chunk is within the budget unless it is one trimmed sentence of a single paragraph, for markdown of a section, that is over it |
| SearchChunker.SentencesAreSentences | drone-swarm-common/src/search-chunker.ts:152-157 | the sentences hold no line feed and no stop but at their end, or nothing else where there is no sentence |
| SearchChunker.LineChunksAreBounded | drone-swarm-common/src/search-chunker.ts:115-145 | chunks of lines are within the budget unless they are one trimmed sentence of a window's text that is over it |
| SearchChunker.LinesAreWindowed | drone-swarm-common/src/search-chunker.ts:126-145 | the chunks are those of windows of so many lines, the first at the first line and each the size less the overlap, but at least one line, behind the one before |
| SearchChunker.TextSurvives | drone-swarm-common/src/search-chunker.ts:5-44 | chunks of text hold, in order, every character but white space and stops |
| SearchChunker.MarkdownSurvives | drone-swarm-common/src/search-chunker.ts:53-113 | chunks of markdown hold, in order, every character but white space and stops |
| SearchChunker.PackIsGreedy | drone-swarm-common/src/search-chunker.ts:14-27 | no two chunks in a row would fit together |
| SearchChunker.GroupsSplitAtHeadings | drone-swarm-common/src/search-chunker.ts:56-74 | sections hold all lines in order, begin at headings and hold no other heading |
| SearchChunker.SectionsAreGroups | drone-swarm-common/src/search-chunker.ts:56-74 | each section is its lines joined and trimmed |
| SearchChunker.BlankMarkdownIsOneEmptyChunk | drone-swarm-common/src/search-chunker.ts:59-81 | blank markdown has exactly one chunk, and that is empty |
| SearchChunker.WindowsCoverUnlessTheyJump | drone-swarm-common/src/search-chunker.ts:128-135 | every line is in a window exactly when the window moves by no more than its size or takes all lines |
| SearchChunker.CoveredLinesSurvive | drone-swarm-common/src/search-chunker.ts:120-145 | a line in a window stands in the chunks: all characters of that window's lines but white space and stops stand in them in one stretch, in order |
| SearchChunker.UncoveredLinesAreLost | drone-swarm-common/src/search-chunker.ts:128-145 | a line in no window leaves no trace: the chunks are the same whatever it holds |
| SearchChunker.OverlappingWindowsKeepLines | drone-swarm-common/src/search-chunker.ts:120-145 | with non-empty windows and no negative overlap every line so stands in the chunks |
| SearchChunker.OverlappingWindowsCover | drone-swarm-common/src/search-chunker.ts:120-135 | with non-empty windows and no negative overlap every line is in a window |
| SearchChunker.WindowSurvives | drone-swarm-common/src/search-chunker.ts:131-142 | a window's chunks hold what its lines do but white space and stops |
| AgentSession.LocalSpawnBackend.SpawnSession | drone-gateway/src/local-spawn-backend.ts:41-65 | a caller gets the session, or shares the start in flight, or starts one |
| AgentSession.LocalSpawnBackend.Request | drone-gateway/src/local-spawn-backend.ts:240-259 | a request is accepted exactly when the slot is free, and takes it |
| AgentSession.LocalSpawnBackend.HandleLine | drone-gateway/src/local-spawn-backend.ts:162-218 | a line updates the last message or settles the pending request of its kind |
| AgentSession.LocalSpawnBackend.FailPending | drone-gateway/src/local-spawn-backend.ts:224-229 | a failure empties the slot and rejects its request |
| AgentSession.StartsDoNotOverlap | drone-gateway/src/local-spawn-backend.ts:51-64 | on every run no two starts of one conversation are in progress together |
| AgentSession.LateCallersShare | drone-gateway/src/local-spawn-backend.ts:51-56 | a caller during a start begins nothing and waits for that start |
| AgentSession.OneRequestInFlight | drone-gateway/src/local-spawn-backend.ts:157-161 | on every run at most one request of a session is open |
| AgentSession.FirstReplyAnswers | drone-gateway/src/local-spawn-backend.ts:162-259 | on every run an accepted request has the outcome of the first event after it that is a reply of its kind or a failure of its session, a chat's reply being the last assistant message between; or none if there is no such event |
| AgentSession.FirstLineDecides | drone-gateway/src/local-spawn-backend.ts:174-229 | on every run the first line of its kind or failure of its session after an accepted request decides its outcome: an export resolves with the context or rejects with the error, an import resolves with nothing or rejects with the error, a chat resolves with the last assistant message since, and a failure rejects |
| AgentSession.UndecidedStaysOpen | drone-gateway/src/local-spawn-backend.ts:174-229 | with no such line or failure the request stays open |
| AgentSession.RepliesFitRequests | drone-gateway/src/local-spawn-backend.ts:174-218 | on every run a request is answered only by a reply of its kind, and a chat by the last assistant message heard while it was open |
| AgentSession.RequestsSettleOnce | drone-gateway/src/local-spawn-backend.ts:209-229 | a settled request keeps its outcome; an open one hears exactly its session's messages and settles only by a reply or a failure of its session |
| AgentSession.FailureSettles | drone-gateway/src/local-spawn-backend.ts:224-229 | a failure of the session settles its open request |
| AgentSession.FailedWriteBlocksSlot | drone-gateway/src/local-spawn-backend.ts:240-259 | a session without an open request refuses the next one exactly when a write that threw holds its slot |
| AgentSession.FailedWriteBlocksNextRequest | drone-gateway/src/local-spawn-backend.ts:240-259 | a run of four events, with an import whose data cannot be serialised, reaches such a session, whose next request is refused |
| BeaconCommands.Channel.SendBeaconCommand | drone-coordinator/src/beacon-ws.ts:425-460 | a command to a connected beacon enters the table with its timer; others are rejected and leave no trace |
| BeaconCommands.Channel.DispatchResponse | drone-coordinator/src/beacon-ws.ts:259-267 | a response settles and removes the command pending under its id |
| BeaconCommands.Channel.OnTimeout | drone-coordinator/src/beacon-ws.ts:442-445 | a timeout settles its command and removes its id |
| BeaconCommands.Channel.OnSendEnd | drone-coordinator/src/beacon-ws.ts:452-458 | a send error settles its command and removes its id |
| BeaconCommands.TableHoldsUnsettled | drone-coordinator/src/beacon-ws.ts:117-118 | on every run the table holds exactly the unsettled commands, each under its id |
| BeaconCommands.FirstDecisionSettles | drone-coordinator/src/beacon-ws.ts:425-460 | on every run a command's outcome is the first matching response, timeout or send error after it was sent, and there is none while there is no such event |
| BeaconCommands.FirstEventDecides | drone-coordinator/src/beacon-ws.ts:259-267 | on every run the first response with its id, timeout or send error after its sending decides a command's outcome; a response is a success only if it says so, and its status and body are passed on |
| MemoryFusion.FuseMemoryResults | drone-swarm-common/src/memory-fusion.ts:111-166 | the loops compute the specified list |
| MemoryFusion.CollectedRepresents | drone-swarm-common/src/memory-fusion.ts:118-146 | there is one entry per document hit, and it is one of its best hits |
| MemoryFusion.FusionRanks | drone-swarm-common/src/memory-fusion.ts:105-166 | one entry per document, each a best hit with its boosts, best first, above the floor, at most topK, and nothing omitted that qualifies outscores a returned one |
| MemoryFusion.ScoresAddUp | drone-swarm-common/src/memory-fusion.ts:84-160 | the score of a ranked entry is that of its best hit, plus the keyword boost times the page's coverage, plus the tag boost for each anchor that is one of its tags and the title boost for each that stands in its title, cases aside |
| MemoryFusion.QualifiedAreListedOrOutscored | drone-swarm-common/src/memory-fusion.ts:162-165 | a qualifying document is returned, or the list is full of others that score no less |
| MemoryFusion.SortIsStable | drone-swarm-common/src/memory-fusion.ts:164-164 | equal scores keep the order in which documents were found |
| MemoryFusion.ScoresIgnoreOrder | drone-swarm-common/src/memory-fusion.ts:9-9 | scores depend on neither order nor repetition of the candidates if and only if equal best hits of a document get equal anchor boosts |
| MemoryFusion.RankedScoresIgnoreOrder | drone-swarm-common/src/memory-fusion.ts:162-165 | then a document returned for both orders has the same score in both lists |
| MemoryFusion.FirstOfEqualHitsWins | drone-swarm-common/src/memory-fusion.ts:123-124 | of two equal hits of a document the first one's title and tags decide the anchor boosts |
| ConfigResolve.RefersMeansReference | drone-core/src/config-keys.ts:147-147 | the scanner matches at an offset exactly where the text of a reference with a non-empty name stands |
| ConfigResolve.RefersWhereWritten | drone-core/src/config-keys.ts:147-147 | the scanner matches at an offset if and only if a dollar sign, a brace, `secret:`, a non-empty name and a closing brace stand there |
| ConfigResolve.NoReferenceInside | drone-core/src/config-keys.ts:147-147 | no reference starts inside another |
| ConfigResolve.PiecesRoundTrip | drone-coordinator/src/config-resolve.ts:24-27 | reading a value into characters and references loses nothing |
| ConfigResolve.NamesAreOfAllReferences | drone-core/src/config-keys.ts:154-162 | the names read are those of all references, wherever they stand |
| ConfigResolve.ExtractSecretRefs | drone-core/src/config-keys.ts:154-162 | the scan finds each referenced name once, in the order of first occurrence |
| ConfigResolve.ResolvesExactlyKnownReferences | drone-coordinator/src/config-resolve.ts:12-29 | a value resolves exactly when all its references are known, then to its text with each secret itself in the place of its reference and inserted text not read again; otherwise the unknown names are reported |
| ConfigResolve.BuildDistributionEntries | drone-coordinator/src/config-resolve.ts:46-96 | for a store that does not change the cached loop builds what direct lookups would |
| ConfigResolve.GatheredResolves | drone-coordinator/src/config-resolve.ts:76-80 | with the gathered secrets a row always resolves, and as with the whole store |
| ConfigResolve.DistributionPartitions | drone-coordinator/src/config-resolve.ts:38-45 | entries and dropped rows partition the rows in order; a row is kept exactly when all its references are known |
| SuggestContext.SuggestContext | drone-core/src/position-types.ts:66-137 | the loops over window sizes, lines and rivals compute the specified suggestion |
| SuggestContext.WindowIsNeighbourhood | drone-core/src/position-types.ts:81-83 | a window is the stretch of the file's lines that are no further from the match than its size |
| SuggestContext.UniqueMeansDistinctive | drone-core/src/position-types.ts:86-113 | a line counts as unique if and only if it is not blank and no window of another match in a readable file has it, white space around it aside |
| SuggestContext.SuggestionDisambiguates | drone-core/src/position-types.ts:57-65 | the suggestion comes from the smallest window with a unique line, has the match's line and occurs in no rival's window of that size; there is none exactly when no window has a unique line |
| SuggestContext.BlockIsShortest | drone-core/src/position-types.ts:115-132 | no shorter stretch of the window joins the match's line to a unique line |
| SuggestContext.BlockJoins | drone-core/src/position-types.ts:121-132 | the block is the stretch of the window between the match's line and a unique line |
| SuggestContext.BlocksWithoutUniqueLinesAreMissed | drone-core/src/position-types.ts:27-33 | a distinguishing block without a unique line is not found |
| SuggestContext.SmallerBlocksAreMissed | drone-core/src/position-types.ts:57-65 | three lines are suggested where two of them, with the match's, would distinguish it |

## Left out

- SplitTheorems.PlainTextsAreSplitAsPromised: one direction only; a text outside this class can be split as promised under some budgets, and which budgets those are is not characterised.
- PackChunks.PlainCountMonotone: one direction only; a text outside the class need not have budgets under which its count falls, though neither half of the condition can be relaxed.
- SplitTheorems.MessagesWithinBudget: the condition is sufficient, not necessary; messages packed for narrower markers can still happen to fit.
- PackChunks.CountMonotone: one direction only; skipping a window need not cost a chunk.
- SplitTheorems.WalkFindsLargestPlan: like `TruncatedPlanIsBest` for the default marker widths and texts below 10^8 characters; wider-shrinking custom markers can make a later plan feasible again.
- WikiTheorems.IncrementalEqualsRebuild: assumes that a page is determined by id, origin and time of update, that fingerprints name the model and hold no NUL, an injective digest, and pages collected once.
- WikiReindex.NoWriteIsLost: says nothing about runs in which a cycle throws or the timer fires with no indexer; `ThrowLosesUnlessArmed` and `FiringLosesUnlessRemembered` say when these lose a write.
- GatewayEngine.TurnsOverlapExactlyWhenSplit: counts dispatched functions; one whose sender the wildcard does not admit either tries no surface.
- KeyedLock.LockHolds: callers' cleanups may be delayed at will, which allows more runs than the microtask queue does; resolving and lower-casing of paths is left out.
- CodeChunker.BodiesFit: headers are not counted; a chunk with headers can exceed the budget, in the code too.
- DeepMerge.LastMentionWins: for paths that no layer leaves partly set; a record of which layers set some fields is described by its fields' paths.
- ConfigResolve.BuildDistributionEntries: the secret store does not change during the loop; description and time of rows are not modelled.
- SuggestContext.SuggestionDisambiguates: the match's line lies in its file, and files do not change between readings.
- HTTP, WebSocket, TLS, SQLite, child processes, timers' durations and logging: their results are inputs or steps in any order.
- Embedding, digests and lower-casing are functions about which nothing is assumed but what a statement says.
- The vector table of the wiki store, which mirrors the chunk rows; chunk ids; errors of single statements other than as stops.
- What the gateway's surfaces answer, its adapters and start-up; stopping is one step; messages that arrive while it is under way.
- Wildcard surfaces can be reached from several tails, so nothing is claimed per surface.
- Late exit or close events of an old process or socket, which remove the new entry: no claim that one live process or socket exists per conversation or beacon.
- The stderr tail of early-exit errors, termination and signals of agent processes, and the reset of the command table.
- Merging of top-level units and comments in the code chunker, and syntax-tree parsing: a well-formed tree is the input.
- Key order of merged objects, keys inherited from `Object.prototype`, spreading of strings and arrays into objects, and object identity in merged arrays.
- A negative number of lines per chunk.
- Shortening of pitches, and floating-point rounding of scores, which are real numbers here.
- Building of ambiguous matches around the suggestion.
