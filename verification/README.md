# Token-budgeted context engine

The agent builder answers with a language model, and this project models the code that decides what the
model gets to see: which document chunks and which conversation turns fit a token budget, and whether
the accounts kept about them are right. It has five parts.

* **Hybrid selection** (`Hybrid*.dfy`): chunks from two searches are merged by key, scored, sorted,
  deduplicated by content hash, put into priority tiers, and fitted to a budget in two passes, one
  reserve per tier and a fill with the rest.
* **Segmentation** (`Segments`, `SegmentGuarantees`, `MultiPass`): a sliding window over a document's
  chunks, each segment opening with an overlap, and a model call per segment.
* **Session memory** (`Trimming`, `ShortTerm`, `ShortTermRaces`, `WorkingMemory`, `Similarity`,
  `MemoryService`): conversations trimmed message by message, the documents at hand, and one budget split
  over both and long-term memory.
* **Cache** (`Cache`, `CacheRaces`, `CacheGuarantees`, `CacheForgetting`): a map with times to live, and the caching wrapper.
* **Retrieval** (`Paging`, `Merge`, `Rendering`, `Formatter`, `Autonomous`): paged fetching, the simpler
  keyed merge, the prompt formatter and autonomous retrieval.

`Text`, `Chunks`, `Budgets`, `Keyed`, `Sessions` and `Wrappers` hold what they share: byte lengths and the token
estimate, weighted sums, greedy scans, longest prefixes, sorting, merging by key.

Each operation is a method with the source's loops, proved against a function or predicate that says what
it computes; the properties below are proved of those, for all inputs, all runs or all interleavings. The
stores are classes whose methods update a map in place. Where clients may interleave (conversation
updates, the cache), every read, write and locked section is one step of a state machine, and the
theorems range over all sequences of steps.

## What is true, and what is not

Some claims one would expect are false of the code. Each is kept as the code has it, with inputs that
show it and the exact condition under which it holds:

* "Every segment fits the segment size" holds for all chunk lists with chunks of at most M tokens, with an
  overlap and M at least 1, exactly when overlap + 2M <= size + 1; without an overlap, or for M = 0, exactly
  when M <= size (`SegmentsFitExactly`).
* "No chunk is selected twice" holds exactly when no two tiers share a name that has a reserve
  (`RepetitionExactly`), "the breakdown is exact" exactly when no two share a name with a token in reserve
  (`BreakdownExactly`): for all lists as scoring and tier assignment hand them over, sorted, with distinct
  keys and every chunk in a tier its score belongs to. With weight on the vector score the same holds of
  what the stages make of actual search results (`RepetitionEndToEnd`, `BreakdownEndToEnd`).
* "A tier's reserve is never cut" holds of a tier exactly when its reserve fits the budget together with
  the earlier ones, or is empty (`ReserveKeptExactly`); shares that sum to at most one see to that for
  every tier (`SharesAreKept`).
* "A chunk is left out only for want of room" has exactly one exception, an empty chunk whose tier has no
  reserve behind a first pass that used the whole budget (`LeftOutIsTooLarge`). It takes a negative
  percentage (`EmptyChunkLeftOut`); without one there is none (`LeftOutIsTooLargeAlways`).
* "Source is both exactly for keys both searches returned" holds exactly when the full documents repeat no
  key that the vector search did not return (`SourceBothExactly`, `SourceBothUnseen`).
* The hybrid chunk key of a chunk without an ID is the document ID, an underscore and the chunk number
  converted to a character, not to decimal; when two chunks share a key is `ChunkKeyCollision`, and
  `ChunkKeysCollide` has examples. The other merge prints the number and is injective (`MergeKeyInjective`).
* "The formatted context stays within its limit" holds of a result exactly when the bytes of what is
  included do (`WithinLimitExactly`). How far results go beyond it is exact as well, for every limit of at
  least the header's 6 tokens, every number of chunks from 1 on, and every number of bytes spent on
  headings (`OvershootExactly`).
* "No message is lost" is false of overlapping calls (`OverlappingAddsLoseOne`). An add that needs no
  trimming loses nothing exactly when the conversation is still what it read (`AddLosesExactly`); a whole
  schedule is at all times as good as sequential exactly when every finishing call writes what it would
  have written had it read only then (`SequentialExactly`), which without trimming means that it finds the
  conversation as it read it (`NothingLostExactly`). With trimming the latter still suffices
  (`UndisturbedIsSequential`), as does a lock for each conversation (`TurnsAreUndisturbed`).
* "What was set is cached until it expires" is false (`FreshEntryForgotten`). The cache holds exactly the
  entries in force that no late delete has hit since their store (`CachedExactly`); and an entry can be
  forgotten exactly when some client is about to delete under its key or holds an older entry for it that
  expires first (`ForgottenExactly`).
* "A hit is no older than the last invalidation" is false (`StaleAfterInvalidation`); it holds of a hit
  exactly when no matching invalidation came between the fetch and the store of its value
  (`HitIsCurrentExactly`).
* "The chunks of autonomous retrieval, estimated again, stay within the limit" holds for all searches, for
  limits from 0 on, exactly when no second step is allowed or the limit is at most one token
  (`ReestimateFitsExactly`). Otherwise they exceed it by up to 15 tokens and no more: how large results get
  is exact for every configuration (`ReestimateExactly`), and so is by how much each exceeds what is
  recorded (`ReestimateIs`).
* The memory context is over budget, when trimming works, exactly for a negative budget
  (`GetFormattedMemory`).

The code's comments differ from the code in three places, and the model follows the code: the token
estimate counts bytes, not characters (services/impl/document_context_impl.go:799-806); keeping the higher
scoring duplicate (services/impl/hybrid_context.go:252-255) never happens, because the input is sorted; and
a full-document chunk whose key "exists from vector search" (services/impl/hybrid_context.go:134) may exist
from an earlier full-document chunk as well.

## Model

| member | source | states |
|---|---|---|
| HybridModel.ChunkKeyCollision | services/impl/hybrid_context.go:168-174 | Exactly when two chunks share a key: with IDs, equal IDs; without, equal document and equal character of the number, below 0xD800 equal number; one with and one without, when the ID spells out the other's key. |
| HybridModel.RuneTextMeans | services/impl/hybrid_context.go:173 | How a chunk number renders: as itself when it is a code point, else as U+FFFD, with 32 bits of it counting. |
| HybridModel.ChunkKeysCollide | services/impl/hybrid_context.go:168-174 | Three collisions: numbers that are no code points, numbers 2^32 apart, and an ID against a derived key. |
| HybridScoring.OwnKeyRescored | services/impl/hybrid_context.go:128-151 | Whatever came before, one more full-document chunk sets the full-document score and source of its own key's candidate, or makes a candidate of its own. |
| HybridScoring.MergedStep | services/impl/hybrid_context.go:128-152 | Updating one map entry in place is the same as merging the lists with one chunk more: no other key's candidate changes. |
| HybridScoring.SourceBothExactly | services/impl/hybrid_context.go:119-135 | The source reads "both" for exactly the keys in both searches if and only if full documents repeat no key absent from the vector search. |
| HybridScoring.SourceBothUnseen | services/impl/hybrid_context.go:133-137 | A chunk that the full documents hold twice reads "both" though the vector search never saw it. |
| HybridScoring.ScoreAllChunks | services/impl/hybrid_context.go:102-166 | Best score first, one entry for each key of either search and no other, each the surviving chunk scored from its own vector score and the last full-document chunk of the key, in whatever order the map is listed. |
| HybridScores.WeightEffect | services/impl/hybrid_context.go:229-239 | Raising one of the three weights by d raises a score by d times that weight's own part, boosted, and without weights the score is 0. |
| HybridScores.CandidateWeightEffect | services/impl/hybrid_context.go:102-166 | The same of what a key ends up with, of which nothing else depends on the weights. |
| HybridScores.WeightlessParts | services/impl/hybrid_context.go:229-239 | With no weight on it the full-document search cannot change a vector key's score, nor can number and total change one that only the vector search found. |
| HybridScores.PositionEffect | services/impl/hybrid_context.go:177-183 | 1 at number 0, 0 at the total, equal steps between, so earlier chunks score more; an unknown total counts as 100. |
| HybridScores.FullDocEffect | services/impl/hybrid_context.go:186-206 | One half, and 0.3, 0.2 and 0.3 exactly for an early number, a true header flag and a true summary flag; other metadata count nothing. |
| HybridScores.BoostEffect | services/impl/hybrid_context.go:209-226 | The boost applies exactly to summaries and the three named chunk types, and only when summaries are included. |
| HybridScores.CandidateParts | services/impl/hybrid_context.go:112-152 | A vector key takes the last chunk returned there and its score, any other key the first of the full documents; the full-document score is that of the last one there. |
| HybridScores.SourceMeans | services/impl/hybrid_context.go:119-145 | A key counts for the vector search if that returned it or the full documents hold it twice, and for the full documents exactly if they hold it. |
| HybridStages.DeduplicateByContent | services/impl/hybrid_context.go:242-264 | For any input, in the order in which hashes first occur, the first of the best scoring chunks of each; kept plus removed is all; on sorted input exactly the first occurrences, so the replacement never fires. |
| HybridStages.FirstBestIsBest | services/impl/hybrid_context.go:248-261 | The chunk kept for a hash scores more than every earlier one with the hash and no less than every later one. |
| HybridStages.FirstOccurrencesThin | services/impl/hybrid_context.go:242-264 | Deduplication invents no chunk, repeats no key more often than the input, and keeps the order by score. |
| HybridStages.FirstOccurrencesDistinct | services/impl/hybrid_context.go:242-264 | Deduplication keeps keys distinct. |
| HybridStages.AssignPriorityTiers | services/impl/hybrid_context.go:274-306 | Nothing but the tier changes, and each chunk gets a tier with the highest bar its score clears, or the lowest bar when it clears none, or "default" without tiers. |
| HybridStages.TiersAreMonotone | services/impl/hybrid_context.go:283-303 | A better score never lands in a tier with a lower bar. |
| HybridAllocation.TierBudgets | services/impl/hybrid_context.go:318-325 | The reserves by name, a later tier of the same name winning. |
| HybridGuarantees.ReserveIsShare | services/impl/hybrid_context.go:318-325 | A reserve is the share in whole tokens, toward zero, cut to the tier's maximum where it has one. |
| HybridGuarantees.MaximumHolds | services/impl/hybrid_context.go:321-353 | A tier's first-pass take never exceeds its maximum, where it has one. |
| HybridAllocation.GroupByTier | services/impl/hybrid_context.go:327-331 | Each group is the subsequence of the chunks with that tier. |
| Budgets.TakeWhatFits | services/impl/hybrid_context.go:346-353 | The running total picks the greedy subsequence under the budget and reports its exact weight. |
| Budgets.GreedyBounds | services/impl/hybrid_context.go:346-353 | The greedy scan stays in budget, takes only what it is offered, and skips only what is larger than the room it leaves at the end. |
| Budgets.GreedyDecides | services/impl/hybrid_context.go:346-353 | Each element is decided on its own turn by what fits then; later ones change nothing. |
| HybridAllocation.AllocateReserves | services/impl/hybrid_context.go:339-358 | The first pass, tier by tier, with the remaining budget carried along, is the tiers' successive greedy takes. |
| HybridAllocation.FillLeftovers | services/impl/hybrid_context.go:361-377 | The second pass adds, in order, each unused key that fits, booking it on its own tier, with set of used keys and remaining budget kept in step. |
| HybridGuarantees.FillDecides | services/impl/hybrid_context.go:367-376 | The second pass decides each chunk on its own turn; what is offered later changes nothing for it. |
| HybridAllocation.TokensAddUp | services/impl/hybrid_context.go:341-376 | A chunk counts with its estimated tokens, and under its own tier alone. |
| Budgets.SortBy | services/impl/hybrid_context.go:380-382 | A sorted permutation, which is all that callers of an unstable sort may use. |
| HybridAllocation.FitToTokenBudget | services/impl/hybrid_context.go:309-385 | Without a budget everything passes; otherwise a sorted permutation of what the two passes allot, with their bookings. |
| HybridGuarantees.WithinBudget | services/impl/hybrid_context.go:339-377 | For all chunks and configurations the allotment is drawn from the chunks, keeps the first pass's choice, and never exceeds the budget. |
| HybridGuarantees.NoChunkTwice | services/impl/hybrid_context.go:339-377 | With distinct chunk keys, and no two tiers sharing a name that has a reserve, no chunk is selected twice: the selection is a sub-multiset of the input. |
| HybridGuarantees.RepetitionExactly | services/impl/hybrid_context.go:334-358 | That condition is necessary as well: for any percentages, no repetition for every sorted list of distinct chunks in tiers their scores belong to, if and only if no two tiers share a name that has a reserve. |
| HybridGuarantees.BreakdownIsExact | services/impl/hybrid_context.go:355-376 | For every tier name the breakdown is the token sum of the selected chunks of that tier, through both passes, unless two tiers share a name with a token in reserve. |
| HybridGuarantees.BreakdownExactly | services/impl/hybrid_context.go:339-376 | The breakdown is exact for every such list and every tier name if and only if no two tiers share a name with a token in reserve. |
| HybridGuarantees.LeftOutIsTooLarge | services/impl/hybrid_context.go:345-377 | For any percentages: a chunk that would fit the room left is left out if and only if it is empty, its tier has no reserve, and the first pass used the whole budget. |
| HybridGuarantees.EmptyChunkLeftOut | services/impl/hybrid_context.go:318-361 | A configuration and two chunks, with the scores, tiers and estimates the code gives them, for which that exception occurs. |
| HybridGuarantees.LeftOutIsTooLargeAlways | services/impl/hybrid_context.go:345-377 | With nonnegative percentages every chunk left out has more tokens than the budget minus the tokens selected. |
| HybridGuarantees.EverythingFits | services/impl/hybrid_context.go:339-377 | If all chunks together fit the budget, exactly all of them are selected. |
| HybridGuarantees.ReserveIsNeverCut | services/impl/hybrid_context.go:318-358 | A floored reserve that fits the budget together with the earlier ones never meets the remaining-budget cap: the tier's take depends on its own chunks and reserve alone. |
| HybridGuarantees.SharesAreKept | services/impl/hybrid_context.go:318-358 | When shares sum to at most one, that goes for every tier. |
| HybridGuarantees.ReserveKeptExactly | services/impl/hybrid_context.go:318-358 | For all lists as tier assignment hands them over, a tier's take is that of its own reserve alone if and only if its reserve fits the budget together with the earlier ones or is empty. |
| HybridGuarantees.NoStarvation | services/impl/hybrid_context.go:318-358 | Then a tier keeps every chunk its reserve selects, and all its chunks if they fit the reserve, whatever other tiers hold. |
| HybridGuarantees.DefaultTiersReserve | models/document_context.go:242-246 | The default tiers satisfy the reservation theorem's conditions, their shares summing to exactly one. |
| HybridPipeline.SelectionIsFaithful | services/impl/hybrid_context.go:38-52 | The selected chunks are their keys' candidates in their tiers, with unique keys and, when deduplicating, unique content hashes. |
| HybridPipeline.SelectionIsBalanced | services/impl/hybrid_context.go:51-52 | After the final re-sort the selection is in budget and every tier's entry is exact. |
| HybridPipeline.SelectionIsComplete | services/impl/hybrid_context.go:38-52 | For every retrieved key its candidate, or a no worse duplicate of it, is selected or larger than all the room left. |
| HybridPipeline.NoTierStarves | services/impl/hybrid_context.go:51-52 | In the final selection a staged tier that fits its own reserve is complete, whatever the other tiers hold, if the reserve fits the budget together with the earlier ones. |
| HybridPipeline.RepetitionEndToEnd | services/impl/hybrid_context.go:38-52 | With weight on the vector score: the allocation of what the stages make of any search results repeats no chunk if and only if no two tiers share a name that has a reserve. |
| HybridPipeline.BreakdownEndToEnd | services/impl/hybrid_context.go:38-52 | Likewise, its breakdown is exact for every tier name if and only if no two tiers share a name with a token in reserve. |
| HybridPipeline.Stages | services/impl/hybrid_context.go:38-49 | The stages compose: sorted, unique, every key spoken for, and kept plus removed is the number of distinct keys. |
| HybridPipeline.Assemble | services/impl/hybrid_context.go:54-77 | The reported chunks, token total and per-search counts are those of the selection. |
| HybridPipeline.HitsMean | services/impl/hybrid_context.go:60-77 | Which of the two counts a selected key raises. |
| HybridPipeline.BuildHybridContext | services/impl/hybrid_context.go:29-99 | End to end: sorted in both the limited and the unlimited case, faithful, balanced, complete and correctly reported; fitted from chunks staged as above, which together with the duplicates reported as removed number the distinct keys. |
| Segments.FormatSegment | services/impl/multipass_service_impl.go:182-217 | The text is the rendering of the chunks, the counts are of the chunks and of the distinct nonempty documents in them, the tokens their sum. |
| Segments.GetOverlapChunks | services/impl/multipass_service_impl.go:220-236 | The backward loop yields the suffix from the overlap start, nothing for no overlap. |
| Segments.SegmentDocuments | services/impl/multipass_service_impl.go:137-179 | The segments are the contiguous slices of the cuts, each formatted with its recomputed token sum. |
| SegmentGuarantees.NeighboursOverlap | services/impl/multipass_service_impl.go:150-168 | Ends strictly increase, and each segment opens with the shortest suffix of the one before that reaches the overlap, or with all of it. |
| SegmentGuarantees.OverlapIsShortest | services/impl/multipass_service_impl.go:228-233 | Walking back stops at the shortest suffix reaching the overlap. |
| SegmentGuarantees.SegmentsAreMaximal | services/impl/multipass_service_impl.go:150-176 | A segment ends only where the next chunk does not fit or chunks run out, and exceeds the size only when it adds a single chunk to its overlap. |
| SegmentGuarantees.SegmentsReconstruct | services/impl/multipass_service_impl.go:137-179 | Dropping the overlaps of the first n segments and concatenating gives back exactly the input up to where the nth ends. |
| SegmentGuarantees.AllSegmentsReconstruct | services/impl/multipass_service_impl.go:137-179 | All segments without their overlaps give back the input; no chunk is lost or repeated. |
| SegmentGuarantees.SegmentSizeBound | services/impl/multipass_service_impl.go:150-176 | With chunks of at most M tokens no segment exceeds the larger of the size and overlap - 1 + 2M, or of the size and M without overlap. |
| SegmentGuarantees.WorstOverflows | services/impl/multipass_service_impl.go:150-170 | With an overlap, for any size below that bound a document exists with a segment over the size. |
| SegmentGuarantees.SingleOverflows | services/impl/multipass_service_impl.go:145-176 | With any overlap or none, a single chunk larger than the size is a segment over the size. |
| SegmentGuarantees.SegmentsFitExactly | services/impl/multipass_service_impl.go:150-176 | For every size, overlap and M: all segments of all documents with chunks up to M fit the size if and only if overlap + 2M <= size + 1, or M <= size when there is no overlap or M is 0. |
| MultiPass.LimitedSegments | services/impl/multipass_service_impl.go:42-53 | Exactly the first maxPasses segments when there are more cuts than that, else one for each; none only for no chunks. |
| MultiPass.RunPasses | services/impl/multipass_service_impl.go:55-91 | One result a segment in order, the model's reply to that segment; it ends early exactly at the first refusal; the tokens are the replies' sum. |
| MultiPass.TokensAddUp | services/impl/multipass_service_impl.go:58-91 | A result counts with the tokens its reply used. |
| MultiPass.ExecuteMultiPass | services/impl/multipass_service_impl.go:29-119 | Which of the outcomes occurs and why; a completed run has exactly maxPasses results when there are more cuts, else one for each, each the model's reply to its own slice, together covering the document up to where the last slice ends. |
| MultiPass.PassesCoverAPrefix | services/impl/multipass_service_impl.go:42-53 | The processed segments cover a prefix of the document, and all of it exactly when the limit cuts nothing off. |
| Trimming.TrimMemory | services/memory/short_term.go:178-192 | Both popping loops together leave the longest suffix within both limits, and the running total exact. |
| Trimming.TrimTokens | services/memory/short_term.go:141-146 | Popping by tokens leaves the token-trimmed suffix with an exact total. |
| Trimming.KeepIsLongest | services/memory/short_term.go:178-192 | What trimming keeps is a suffix within the limits, and no longer suffix is within them. |
| Trimming.KeepIncremental | services/memory/short_term.go:89-96 | Trimming after each message gives what trimming the whole history once would. |
| Trimming.KeepThenTokens | services/memory/short_term.go:137-146 | Trimming to limits and then to a budget is trimming to the tighter of the two. |
| ShortTerm.RunIsLongestSuffix | services/memory/short_term.go:69-112 | After any run without explicit trims since the last clear or expiry, entries are exactly the longest suffix of the whole history within both limits. |
| ShortTerm.RunIsSuffix | services/memory/short_term.go:69-169 | After any run at all, entries are a suffix of the history, hence gapless and in order, within both limits. |
| ShortTerm.TrimAfterRun | services/memory/short_term.go:131-163 | An explicit trim then leaves the longest suffix under the tighter token limit. |
| ShortTerm.StampedMeans | services/memory/short_term.go:78-88 | What a message brings stays; a missing ID and an unset time are filled in. |
| ShortTerm.TokensAddUp | services/memory/short_term.go:91-93 | A message counts with its own token count. |
| ShortTerm.ShortTermMemoryService.GetConversation | services/memory/short_term.go:39-66 | The stored entries with an exact total; an absent conversation is empty. |
| ShortTerm.ShortTermMemoryService.AddMessage | services/memory/short_term.go:69-112 | On success one step of the run for this key, on failure no change; other keys untouched; totals stay exact and limits respected. |
| ShortTerm.ShortTermMemoryService.TrimToTokenLimit | services/memory/short_term.go:131-163 | On success one trim step for this key; no write, hence no write failure, when nothing is over. |
| ShortTerm.ShortTermMemoryService.GetRecentMessages | services/memory/short_term.go:115-128 | The longest suffix of the conversation with at most the given number of entries. |
| ShortTerm.ShortTermMemoryService.ClearConversation | services/memory/short_term.go:166-169 | The key is emptied, or on failure nothing changes. |
| ShortTerm.ShortTermMemoryService.ExpireConversation | services/memory/short_term.go:171-175 | The store dropping an expired conversation empties that key only. |
| ShortTermRaces.NextKeepsInvariant | services/memory/short_term.go:69-169 | Every read step, write step, failure, clear or expiry keeps every stored and every pending conversation sound. |
| ShortTermRaces.EveryScheduleIsSound | services/memory/short_term.go:69-169 | Under every interleaving: exact totals, both limits, only messages really sent to that conversation, in order, none twice. |
| ShortTermRaces.UndisturbedAddIsAtomic | services/memory/short_term.go:69-112 | An add that finds the conversation as it read it leaves the longest suffix of what is stored plus its message. |
| ShortTermRaces.UndisturbedIsSequential | services/memory/short_term.go:69-169 | A schedule in which every finishing call finds the conversation as it read it leaves what the calls, run one after the other, leave. |
| ShortTermRaces.UndisturbedKeepsLongestSuffix | services/memory/short_term.go:69-169 | It then holds the longest suffix, within both limits, of all messages added since the last clear. |
| ShortTermRaces.TurnsAreUndisturbed | services/memory/short_term.go:69-169 | If no call begins and nothing is cleared while another call is under way on the conversation, every finishing call finds it as it read it. |
| ShortTermRaces.AddLosesExactly | services/memory/short_term.go:73-109 | With room for the message, an add leaves what is stored plus its message if and only if what is stored is what it read. |
| ShortTermRaces.SequentialExactly | services/memory/short_term.go:69-169 | For every schedule: each conversation is after every event what the finished calls, one after the other, leave, if and only if every finishing call writes what it would have written had it read only then. |
| ShortTermRaces.NothingLostExactly | services/memory/short_term.go:69-112 | A schedule that needs no trimming leaves after every event what the finished calls, one after the other, leave, if and only if no call finishes on a conversation changed since it read it. |
| ShortTermRaces.OverlappingAddsLoseOne | services/memory/short_term.go:69-112 | Two overlapping adds both succeed and one message is gone. |
| WorkingMemory.WorkingMemoryService.TrimChunks | services/memory/working_memory.go:228-244 | The longest prefix of the chunks within the limit, with its exact total. |
| WorkingMemory.WorkingMemoryService.SetDocumentContext | services/memory/working_memory.go:70-101 | Holds the longest prefix of the given chunks within the limit, and changes neither the documents nor other keys. |
| WorkingMemory.WorkingMemoryService.LoadDocument | services/memory/working_memory.go:104-130 | A loaded document is replaced in place; a new one goes last, the oldest making room at the maximum. |
| WorkingMemory.WorkingMemoryService.UnloadDocument | services/memory/working_memory.go:133-165 | Removes the document and exactly its chunks with the total recomputed; an unknown document changes nothing. |
| WorkingMemory.WorkingMemoryService.UpdateLastQuery | services/memory/working_memory.go:168-180 | Changes the last query of this key only. |
| WorkingMemory.WorkingMemoryService.ClearWorkingMemory | services/memory/working_memory.go:206-209 | Empties this key only, or on failure nothing. |
| WorkingMemory.WorkingMemoryService.IsContextStale | services/memory/working_memory.go:183-203 | Fresh exactly when there is a previous query, there are chunks, and the similarity reaches the threshold. |
| WorkingMemory.UnloadMeans | services/memory/working_memory.go:133-165 | Unloading a loaded document takes it and exactly its chunks, leaves the rest in order and the query, and recounts the tokens; unloading any other changes nothing. |
| WorkingMemory.SetMeans | services/memory/working_memory.go:70-101 | Setting the context holds the longest fitting prefix and leaves documents and query; updating the query leaves all else; clearing leaves nothing. |
| WorkingMemory.LoadMeans | services/memory/working_memory.go:104-130 | Loading leaves chunks, tokens and query; a loaded document is replaced in its place, a new one put last with its time, the first going when there were as many as may be. |
| WorkingMemory.EveryRunIsSound | services/memory/working_memory.go:70-209 | Over every run: distinct loaded documents, at most the maximum, an exact token total within the limit. |
| WorkingMemory.LoadedInInsertionOrder | services/memory/working_memory.go:104-165 | Over every run the documents stand in the order they were inserted, so eviction takes the one inserted first. |
| WorkingMemory.UnloadPartitions | services/memory/working_memory.go:145-152 | The chunks kept and the document's own are together exactly the chunks before. |
| WorkingMemory.UnloadConserves | services/memory/working_memory.go:154-158 | The tokens freed are those of the document's own chunks. |
| WorkingMemory.StaleOnlyByDrift | services/memory/working_memory.go:183-203 | If the query drift over a run is within one minus the threshold, the last query is still similar enough to the first. |
| Similarity.SplitWords | services/memory/working_memory.go:309-326 | The scanning loop computes the words that the next three rows characterise. |
| Similarity.SplitAtDelimiter | services/memory/working_memory.go:309-326 | Splitting distributes over joining two strings with any delimiter. |
| Similarity.WordsAreWords | services/memory/working_memory.go:309-326 | Pieces are nonempty and free of delimiters, and a word splits to itself. |
| Similarity.SplitJoined | services/memory/working_memory.go:309-326 | Splitting joined words gives the words back. |
| Similarity.WordsPart | services/memory/working_memory.go:309-326 | Space, tab, newline, full stop and comma part words, and no other character does. |
| Similarity.CalculateSimpleSimilarity | services/memory/working_memory.go:277-306 | Shared words over all words of the two word sets, zero for two empty ones. |
| Similarity.OverlapMeans | services/memory/working_memory.go:296-305 | With s words shared and x and y on either side only, the similarity is s / (s + x + y). |
| Similarity.SimilarityOfJoined | services/memory/working_memory.go:277-306 | The similarity of queries made of words is the overlap of those words. |
| Similarity.SimilarityRange | services/memory/working_memory.go:277-306 | Symmetric, within [0, 1], and 1 exactly for equal nonempty word sets. |
| Similarity.SimilarityTriangle | services/memory/working_memory.go:277-306 | One minus similarity satisfies the triangle inequality for all three queries. |
| Similarity.DriftIsAdditive | services/memory/working_memory.go:183-203 | Over a run of queries, distance from first to last is at most the sum of the steps. |
| MemoryService.SplitFits | services/memory/memory_service.go:122-124 | The three floored shares never exceed a nonnegative budget and are never positive for a negative one. |
| MemoryService.SplitIsExact | services/memory/memory_service.go:122-124 | Each share is the largest whole number within a half, 35 and 15 hundredths of the budget, toward zero. |
| MemoryService.TokensAddUp | services/memory/memory_service.go:157-162 | A long-term entry counts with its own token count. |
| MemoryService.MemoryServiceImpl.TakeLongTerm | services/memory/memory_service.go:153-165 | The longest prefix of the entries within the budget. |
| MemoryService.MemoryServiceImpl.GetFormattedMemory | services/memory/memory_service.go:113-171 | Total is the sum of the parts; when trimming works it is over budget only for a negative budget; what each part holds; the stored conversation is left trimmed to the half budget. |
| MemoryService.ContextIsLongestSuffix | services/memory/memory_service.go:129-139 | The conversation shown is the longest suffix of the whole history within entry limit, token limit and half budget. |
| MemoryService.MemoryServiceImpl.AddMemory | services/memory/memory_service.go:174-191 | A new entry with its estimated tokens goes through the same trimming, or nothing changes. |
| MemoryService.MemoryServiceImpl.ClearSession | services/memory/memory_service.go:256-268 | Both memories of the session are emptied; if the first clear fails neither changes, if the second fails working memory does not. |
| Cache.PrefixIsTransparent | services/impl/cache_service_impl.go:251-274 | The key prefix keeps distinct keys distinct, and prefixed patterns match prefixed keys exactly when the bare ones do. |
| Cache.PatternsMatch | services/impl/cache_service_impl.go:251-258 | A pattern ending in an asterisk matches what begins with the rest of it, any other matches itself alone. |
| Cache.ServiceTTLMeans | services/impl/cache_service_impl.go:311-320 | The service's time to live is the given one when positive, else the default. |
| Cache.EffectiveTTL | services/impl/cache_service_impl.go:176-182 | The time to live in force: the caller's when positive, else the configured one when positive, else the default; always positive. |
| Cache.LiveIsLatestSet | services/impl/cache_service_impl.go:202-248 | An entry is in force exactly when some set is the latest for its key with no matching invalidation since, and is that set's. |
| Cache.CacheService.GetCachedContext | services/impl/cache_service_impl.go:139-163 | Without interference a hit is exactly an unexpired entry in force; expired ones are dropped, nothing else changes. |
| Cache.CacheService.SetCachedContext | services/impl/cache_service_impl.go:166-209 | Adds exactly one set to the log of writes, expiring after the time to live in force; a disabled cache ignores it. |
| Cache.CacheService.InvalidateCache | services/impl/cache_service_impl.go:212-248 | Whatever the order of keys, exactly the matching entries go. |
| Cache.Retrieve | services/impl/cache_service_impl.go:323-411 | A hit is the stored chunks and token total, with the stored metadata and exactly two marks, and writes nothing; a miss is the delegate's answer as it came, stored unmarked and timed when the delegate has answered; errors and empty results are not stored. |
| CacheRaces.EveryRunIsHonest | services/impl/cache_service_impl.go:139-248 | Under every interleaving of look-up, expiry check, late delete, fetch, store and invalidation, cache, clients and answers agree with the log of writes. |
| CacheGuarantees.NeverLies | services/impl/cache_service_impl.go:323-411 | Every hit has the chunks, tokens and metadata last set for that key at the read, but for the two marks, with no invalidation since, within its time to live, and given by the delegate for that very key; every other answer is the one the delegate gave in that very retrieval, after its look-up. |
| CacheGuarantees.CallsStayApart | services/impl/cache_service_impl.go:323-351 | Under every interleaving the delegate answers a retrieval at most once, and a retrieval is completed at most once. |
| CacheForgetting.CachedExactly | services/impl/cache_service_impl.go:139-248 | Under every interleaving the cache holds exactly the entries in force, with their values, that no late delete has hit since their store. |
| CacheForgetting.ForgottenExactly | services/impl/cache_service_impl.go:139-163 | Some run loses an entry that neither expires nor is replaced or invalidated, if and only if some client is about to delete under its key or holds an older entry for it that expires first. |
| CacheForgetting.UnobservedStoreLasts | services/impl/cache_service_impl.go:139-209 | A store made while nobody else has looked the key up or is about to delete it keeps its entry until expiry, replacement or invalidation. |
| CacheGuarantees.HitIsCurrentExactly | services/impl/cache_service_impl.go:323-351 | A hit's value was fetched after every matching invalidation before its read if and only if none came between its fetch and its store. |
| CacheForgetting.FreshEntryForgotten | services/impl/cache_service_impl.go:148-154 | A run exists in which the late delete removes an entry just stored: the cache may forget. |
| CacheForgetting.StaleAfterInvalidation | services/impl/cache_service_impl.go:340-348 | A run exists in which a hit after an invalidation carries a value fetched before it. |
| Text.EstimateConcat | services/impl/document_context_impl.go:799-806 | Estimating two pieces separately loses at most one token against their concatenation. |
| Text.BytesAreEncoded | services/impl/document_context_impl.go:799-806 | The estimate takes four bytes of the UTF-8 encoding for a token, rounded down. |
| Text.Utf8Bytes | services/impl/document_context_impl.go:799-806 | A character's width is the number of its bytes in UTF-8, from which it can be read back. |
| Text.DigitsReadBack | services/impl/document_context_impl.go:624 | The decimal rendering reads back as the number, without leading zeros. |
| Text.FirstDifference | services/impl/document_context_impl.go:249-250 | In the order of document IDs the first difference decides, and without one the shorter comes first. |
| Chunks.TokensAddUp | services/impl/document_context_impl.go:242 | A chunk counts with a token for every four bytes of its content. |
| Paging.FetchChunksForFile | services/impl/document_context_impl.go:283-359 | For any page server: at most 100 requests, ending at the first page that exceeds the budget, fails, has no chunks or no next, or is the hundredth, whose count is reported; the longest prefix within 50000 tokens of the pages up to the stopping page; exactly when it fails. |
| Paging.RetrieveFullDocuments | services/impl/document_context_impl.go:193-267 | Whatever the servers' fetches brought, nothing for a failed one and all chunks of any other: a permutation of that, sorted by document and chunk number, the total exact and at most 50000 a file. |
| Paging.ConvertedAt | services/impl/document_context_impl.go:226-237 | A returned chunk has the stored one's ID, content, number, type and metadata, and its file as document. |
| Paging.PagesInOrder | services/impl/document_context_impl.go:298-344 | In what is fetched every page stands whole after the pages before it. |
| Paging.SortedMeans | services/impl/document_context_impl.go:247-253 | A document's chunks stand together, their numbers ascending, and documents follow in the order of their IDs. |
| Paging.TokensAddUp | services/impl/document_context_impl.go:330-338 | A stored chunk counts with a token for every four bytes. |
| Paging.FilesWithinBudget | services/impl/document_context_impl.go:204-215 | Every file contributes at most 50000 tokens, however many there are. |
| Paging.DocumentOrderIsPreorder | services/impl/document_context_impl.go:247-253 | The comparison by document and number is total and transitive, so the sort is well defined. |
| Merge.MergeKeyInjective | services/impl/document_context_impl.go:624-632 | Keys are equal exactly when document and chunk number are, whatever characters the document ID has. |
| Merge.MergeAndRankChunks | services/impl/document_context_impl.go:614-655 | One chunk a key, best score first, each what the next four rows say. |
| Merge.MergedFromVector | services/impl/document_context_impl.go:623-637 | A vector key keeps the last chunk returned there, scored with its own score times the vector weight plus one share of its position for every full-document chunk of the key. |
| Merge.MergedFromFullDoc | services/impl/document_context_impl.go:629-642 | Any other key keeps the first full-document chunk, scored with the shares alone. |
| Merge.ShareEffect | services/impl/document_context_impl.go:636-640 | A share is the whole full-document weight at number 0, nothing at 100, and loses a hundredth of the weight a step. |
| Merge.ScaledMeans | services/impl/document_context_impl.go:625 | Scaling is by the weight: nothing at 0, the score at 1, in proportion. |
| Merge.SharesAreEqual | services/impl/document_context_impl.go:634-637 | What the full documents add is the number of chunks with that key times the share of its position. |
| Formatter.FormatContextForInjection | services/impl/document_context_impl.go:724-796 | Includes the longest prefix that fits after the header, all without a limit; counts, text and truncation describe exactly that prefix. |
| Formatter.FormattedBytes | services/impl/document_context_impl.go:741-780 | The length of the text is that of the frame, contents, headings and one newline a chunk. |
| Formatter.OvershootBound | services/impl/document_context_impl.go:744-782 | The reported tokens exceed a limit of at least 6 by at most k + 6 + S/4 for k chunks and S bytes of headings. |
| Formatter.OvershootIsReached | services/impl/document_context_impl.go:744-782 | The bound is reached at every limit from 6 on, for every number of chunks from 1 on and with a heading of any length. |
| Formatter.OvershootExactly | services/impl/document_context_impl.go:744-782 | All results with at most k chunks and S bytes of headings report at most B tokens if and only if limit + k + 6 + S/4 <= B, for limits from 6 on and k from 1 on; below 20 bytes there is no heading and S counts as 0. |
| Formatter.WithinLimitExactly | services/impl/document_context_impl.go:741-782 | A result stays within the limit if and only if the bytes of its frame, contents, headings and newlines do. |
| Rendering.WriteNext | services/impl/document_context_impl.go:758-775 | One turn of the formatting loops keeps text, current document and document set those of the chunks written. |
| Rendering.RenderedReads | services/impl/document_context_impl.go:758-775 | A chunk adds its content and a newline, under its document's name, or ID without one, when the document changes, with a blank line between documents. |
| Rendering.CurrentIsLast | services/impl/document_context_impl.go:758-768 | The document compared with is that of the last chunk that names one. |
| Autonomous.RetrieveMCPContext | services/impl/mcp_context_impl.go:396-510 | The greedy choice of hits, then at most three summaries for different documents of those hits in the order these first appear, everyone before the last settled; recorded tokens stay within the limit. |
| Autonomous.AddSummaries | services/impl/mcp_context_impl.go:448-487 | With fewer than three summaries every other document lacked a summary or room for it. |
| Autonomous.WantsMeans | services/impl/mcp_context_impl.go:453 | Summaries are sought exactly when one token more still is within four fifths of the limit, there are hits, and a second step is allowed. |
| Autonomous.AsChunksMeans | services/impl/mcp_context_impl.go:463-474 | A summary chunk has its document, the title before the text, and score 1. |
| Autonomous.SummariesAddUp | services/impl/mcp_context_impl.go:467-475 | A summary is recorded without its title. |
| Autonomous.SkippedHitsAreTooLarge | services/impl/mcp_context_impl.go:422-433 | Every skipped hit was larger than the room the search step left. |
| Autonomous.ReestimateBound | services/impl/mcp_context_impl.go:458-480 | Estimated again with their titles, the returned chunks exceed the limit by at most 15 tokens. |
| Autonomous.ReestimateIsReached | services/impl/mcp_context_impl.go:448-480 | At every limit from 2 on some retrieval's chunks, estimated again, exceed it by exactly 15. |
| Autonomous.ReestimateIs | services/impl/mcp_context_impl.go:458-480 | Estimated again, a result's chunks weigh what is recorded plus 4 or 5 tokens for each summary's title, 4 when the summary ends on a full token; so it fits exactly when these do. |
| Autonomous.ReestimateExactly | services/impl/mcp_context_impl.go:422-480 | For every limit and step count, all results estimated again stay within a bound if and only if the limit does, with 15 tokens more when summaries may be added. |
| Autonomous.ReestimateFitsExactly | services/impl/mcp_context_impl.go:448-480 | For limits from 0 on, all results estimated again stay within the limit if and only if no second step is allowed or the limit is at most one token. |

## Left out

Not modelled:

- HTTP, JSON, authentication, database, request handlers and the transport of the model router: foreign calls are parameters (functions, or flags saying whether a store operation succeeds), and encoding is the identity on the modelled fields.
- Redis mode of the cache and its fallback to memory: after partial failures a fallback read can be stale, so the cache theorems are about the in-memory mode.
- Hashed cache keys, the invalidation of an agent's or a session's keys, and the wrapper's uncached pass-through methods: results are stated per key.
- Long-term memory and consolidation: only the search result enters the budget split; the consolidation that AddMemory may start in the background is not modelled.
- Retrieval for a whole tenant when no file IDs are given, the sum of the files' reported counts, and the parsing of the page server's answers.
- Logging, elapsed times, prompt texts, page numbers and the other chunk fields that the modelled code only copies.
- Working memory chunks are not tied to loaded documents: the code does not maintain it, so it is not stated.
- The failed-search path of autonomous retrieval, which dereferences a missing result.

Abstractions:

- Floats are reals and integers are unbounded: rounding of scores and overflow of 64-bit sums and products are not captured. Conversion to int truncates and integer division truncates, as in Go.
- Strings are sequences of code points with their UTF-8 byte lengths; strings that are not valid UTF-8 are not covered.
- Scored chunks and merged chunks, held by pointer in a map in the source, are values in a map; each is reached through the map alone, so no aliasing is lost.
- An absent (nil) metadata map, breakdown or chunk list is an empty one.
- The content hash is any function of the content; equal hashes count as duplicates, as in the code.
- Maps are ranged over in any order, and sorting promises a sorted permutation only.
- In the interleaving models a store operation, or a locked section, is one atomic step. A message is named by its place in the log of calls, standing for its random identifier. The time to live is the wrapper's, the cache is enabled, and the clock never goes back.
- Failing reads in the working memory service are not separate from failing writes: either leaves the store as it was. A failing read in IsContextStale, which reports stale with the error, is left out.

Weaker than, or conditional on, what the source says:

- HybridGuarantees.EverythingFits: chunk keys must be distinct and no two tiers may share a name that has a reserve; RepetitionExactly shows that the latter is needed.
- Trimming.TrimMemory: the entry limit is not negative; with a negative one the source's loop fails on an empty conversation.
- ShortTerm.ShortTermMemoryService.GetRecentMessages: the limit is not negative; the source fails on a negative one.
- WorkingMemory.WorkingMemoryService.LoadDocument: the maximum number of documents is at least one; with less the source fails when it makes room in an empty list.
- MultiPass.ExecuteMultiPass: the pass limit is at least one, as configuration validation demands; prompt building is part of the model parameter.
- MemoryService.MemoryServiceImpl.GetFormattedMemory: the parts are what would be formatted, not their text; the read after a successful trim is taken to succeed.
- MemoryService.MemoryServiceImpl.AddMemory: a generated identifier is taken to be nonempty and the current time not to be the zero time.
- Similarity.SimilarityTriangle: over reals, so up to rounding in the source.
