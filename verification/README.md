# NexusKV: a verified model of the paged KV cache

NexusKV serves language models from a paged key/value cache. This project models its four algorithmic
components and proves what they keep over whole runs:

- the **block-space manager** (`src/memory/block_manager.rs`): a pool of reference-counted blocks with a
  last-in-first-out free stack, page tables that share blocks by prefix hit or by fork, and an append-only trie
  from token chunks to blocks;
- the **speculative verifier** (`src/engine/speculative.rs`): accept the agreeing part of a draft plus one
  correction, then cut the page table back;
- the **continuous scheduler** (`src/engine/scheduler.rs`): waiting, running and finished sequences, driving
  the manager;
- the **paged attention gather** (`src/kernels/paged_attention.rs`, `csrc/paged_attention.cu`) and the table
  export that feeds it.

## How it is built

The source changes its state in place, and so do the classes `BlockSpaceManager`, `SpeculativeVerifier` and
`ContinuousScheduler` and the kernel methods: same fields, loops and early returns, with one helper method per
loop or branch where the original is long. Each method is proved equal
to a function on the abstract value of the object (`Model()`), and the properties are proved about those
functions:

| files | contents |
|---|---|
| `Prelude`, `BlockSpace` | arithmetic, the manager's state as a value, one function per operation |
| `PrefixTrie`, `PrefixMatching` | the trie as a map from chunk paths to blocks; what a match does to it |
| `Accounting`, `Runs`, `ReferenceCounts` | reference counting, operation by operation and over runs |
| `PrefixSharing`, `SharingRuns`, `MatchSound`, `AdmissionSharing`, `DistinctPages`, `WriteExclusive`, `ReachableSharing` | soundness of sharing, write isolation |
| `Counterexamples` | runs in which sharing, writing or undoing goes wrong |
| `RollbackInverse`, `PageCounts` | what a rollback undoes; when a table has the pages its tokens need |
| `AppendOutcomes`, `ReleaseOutcomes` | what an append, a rollback, a free and a fork return and leave; the page limit |
| `BlockSpaceManager` | the manager as a class |
| `Speculative` | losslessness, exact memory, the verifier as a class |
| `Scheduling`, `SchedulerCoherence`, `SchedulerLifecycle`, `AdmissionCounts`, `SchedulerCompletion`, `DrainedPool`, `SchedulerReplies`, `ContinuousScheduler` | the scheduler |
| `Addresses`, `PagedAttention`, `AttentionKernels`, `TableExport` | offsets, the gather, the loops and the kernel, the export |

`State` and `Sched` carry history next to the program's fields; no operation reads it. `loose` lists the
references that no page table holds: blocks taken before a failed call gave up, overwritten tables, and blocks
taken directly. `valid` holds the trie nodes whose block has not gone back to the pool since the node was made.
`prompts` holds the prompt tokens a table still covers. `failedSteps`, `submitted`, `admitted` and `withdrawn`
record the scheduler's calls.

The *books are in order* when every count equals the references to the block and no free block has any. A call is
*disciplined* when its prefix hits are on blocks in use, *careful* when they are on nodes that still stand for
their block, and either frees directly only what was taken directly. A careful call is *guarded* when it is no fork
or rollback after which a sequence would write into a block that is not its own.

## What the proofs brought to light

The code is modelled as it is. Where a natural property fails, it is proved under the exact condition for it.

- A trie node keeps naming its block after the block went back to the pool (lines 151-159 and 205-215 of the
  manager). A match keeps counts equal to references *if and only if* its hits land on blocks in use
  (`Runs.MatchAccounted`); `ReferenceCounts.StaleHitMapsFreeBlock` ends with a mapped block on the free stack,
  `SchedulerCompletion.SequenceIsLost` with a submitted sequence in no pool.
- Hits on blocks in use are not enough for sharing: a recycled block is in use again
  (`Counterexamples.LiveHitSharesWrongly`). The program's fields tell the nodes that still stand for their block
  (`PrefixSharing.ValidIffCurrent`), and a hit on another node shares wrongly with exactly those sequences that
  hold its block at that page (`AdmissionSharing.AdmissionSharesRightly`).
- The scheduler admits only when nothing runs, so without stranded references it never shares a prefix
  (`SchedulerCompletion.SchedulerHitsAreDead`). Sharing is a property of the manager's own interface, as its tests
  use it.
- Failed matches and appends strand the references they had taken. Counts then exceed table multiplicities, but
  as long as hits are live no mapped block is ever free and no rollback or free fails (`ReferenceCounts.RunsKeepTheBooks`,
  `ReferenceCounts.NoDoubleFree`).
- The documentation speaks of copy-on-write; no block is ever copied. An append writes into blocks of its sequence
  alone *if and only if* the held pages it writes to are private (`WriteExclusive.AppendWritesAloneIff`). After a
  fork that means a block boundary (`WriteExclusive.ForkedAppendAlone`, `WriteExclusive.FullAtBoundary`), after a
  rollback that the page cut in two, if any, is neither shared nor cached (`WriteExclusive.RolledBackAppendAlone`).
  `Counterexamples.ForkedTailIsShared` and `Counterexamples.CutSharedPageIsShared` write into shared blocks; in the
  second the fork is at a boundary and nothing is rolled back below a prompt.
- A rollback may name a length above the current one and then leaves a table without the pages its tokens need.
  On such a table append then rollback is no inverse (`Counterexamples.UndoneAppendDiffers`). The tables come back
  *if and only if* the table had those pages; free stack and trie then come back too, and the block records if and
  only if the blocks taken carried blank records (`RollbackInverse.AppendThenRollback`), which they do in order
  books. Tables have their pages over whole runs as long as no rollback goes past the pages held, and no other call
  breaks this (`PageCounts.StepShaped`).
- An append is refused if and only if it would bring its sequence over `max_blocks_per_seq` pages
  (`AppendOutcomes.AppendRefused`). Admission ignores the limit, and a rollback may name any length, so these two, and
  forks of what they leave, are the only ways over it (`AppendOutcomes.StepOver`, `AppendOutcomes.RunsKeepLimit`).
  Tokens past the limit are looked up outside the sequence's row (`TableExport.OwnRowIffWithinLimit`,
  `TableExport.AdmissionOverLimit`).
- An admission that hits a block on the free stack is not lost for that alone. From any state the scheduler can
  reach, an admitted sequence with room for its tokens is filed on time, unless one of its hits lies among the free
  blocks it is going to take; exactly then its last step loses it
  (`SchedulerCompletion.AdmittedCompletesUnlessHitsAhead`).
- A failed admission is final. It leaves no free block (`SchedulerLifecycle.FailedAdmission`), and the blocks it took
  are in no table, so in order books and without a dead hit no later scheduler call ever frees one: from then on a
  sequence is admitted if and only if the trie holds its whole prompt, and a running one grows if and only if that
  needs no page (`DrainedPool.FailedAdmissionIsFinal`).
- The documentation calls rollback and freeing constant-time; the code loops over the dropped blocks and scans the
  free stack. No cost is claimed here.

## Model

| member | source | states |
|---|---|---|
| Manager.BlockSpaceManager.constructor | src/memory/block_manager.rs:95-125 | a new manager is the empty pool: ids pushed from the last to the first, one bare trie root, no tables; the pool invariant holds |
| Manager.BlockSpaceManager.AllocateBlock | src/memory/block_manager.rs:128-136 | pops the top of the free stack and resets that record, or reports out of memory and changes nothing; keeps the pool and trie invariant |
| Manager.BlockSpaceManager.FreeBlock | src/memory/block_manager.rs:139-162 | drops one reference, returns the block on the last one without pushing it twice, reports a double free for ids out of range or with count zero |
| Manager.BlockSpaceManager.RegisterSequence | src/memory/block_manager.rs:165-175 | an empty table replaces whatever was there |
| Manager.BlockSpaceManager.MatchOrAllocatePrefix | src/memory/block_manager.rs:178-253 | the loop over chunks in place computes the specification function, new state and result, including the early returns that strand references |
| Manager.BlockSpaceManager.VisitChunks | src/memory/block_manager.rs:189-234 | the `for` loop over full chunks equals the recursive walk; once it fails it stays failed |
| Manager.BlockSpaceManager.VisitChunk | src/memory/block_manager.rs:195-233 | one iteration: hit, insertion of a new leaf, or failure |
| Manager.BlockSpaceManager.AppendTokens | src/memory/block_manager.rs:256-292 | unknown id, page limit, allocation loop, and the table update or the stranded blocks, in this order of precedence |
| Manager.BlockSpaceManager.ForkSequenceCow | src/memory/block_manager.rs:296-317 | bumps each block once per occurrence and stores a copy of the table under the child |
| Manager.BlockSpaceManager.RollbackSequence | src/memory/block_manager.rs:321-348 | pops pages past the retained length, last first, then frees them in that order, stopping at the first error |
| Manager.BlockSpaceManager.PopBlocks | src/memory/block_manager.rs:335-340 | the `while` loop splits the list into the kept prefix and the reversed rest |
| Manager.BlockSpaceManager.FreeSequence | src/memory/block_manager.rs:351-358 | removes the table and frees its blocks front to back |
| Manager.BlockSpaceManager.ExportCudaBlockTables | src/memory/block_manager.rs:368-386 | the flat array is the concatenation of the rows, each the 32-bit ids that fit followed by -1; the lengths are the 32-bit token counts |
| Manager.BlockSpaceManager.FreeBlocksCount | src/memory/block_manager.rs:406-408 | the clamp never acts: the count is the length of the free stack |
| Manager.BlockSpaceManager.AllocatedBlocksCount | src/memory/block_manager.rs:410-412 | the subtraction never saturates: allocated and free blocks make up the pool |
| BlockSpace.FreeBlock | src/memory/block_manager.rs:139-162 | freeing any id in any well-formed state keeps pool, trie and tables well formed |
| BlockSpace.MatchOrAllocatePrefix | src/memory/block_manager.rs:178-253 | matching keeps pool, trie and tables well formed, whatever its result and wherever its hits land |
| BlockSpace.AppendTokens | src/memory/block_manager.rs:256-292 | appending keeps them well formed on all four outcomes |
| BlockSpace.ForkSequence | src/memory/block_manager.rs:296-317 | forking keeps them well formed, onto a fresh or an existing id |
| BlockSpace.RollbackSequence | src/memory/block_manager.rs:321-348 | rolling back to any length keeps them well formed |
| BlockSpace.FreeSequence | src/memory/block_manager.rs:351-358 | freeing a sequence keeps them well formed even when it stops half way |
| BlockSpace.InsertChildOk | src/memory/block_manager.rs:223-233 | pushing a node and hanging it under the cursor keeps the arena a tree |
| ReferenceCounts.PoolIntegrity | src/memory/block_manager.rs:95-162 | any run of any calls with any results: no duplicate or out-of-range id on the free stack, `is_free` exactly for the ids on it, count zero only there, and the clamps of both counters never act |
| Accounting.FreeAccounted | src/memory/block_manager.rs:139-162 | giving back a counted reference succeeds, pushes the block exactly when no reference is left, and ends the validity of exactly its nodes then |
| Accounting.FreeAllAccounted | src/memory/block_manager.rs:343-345 | giving back a counted list succeeds and releases each block as often as listed |
| Accounting.TakePromptBalanced | src/memory/block_manager.rs:189-242 | taking the blocks of a prompt keeps counts equal to references, on success and on failure, if and only if every hit lands on a block in use |
| Runs.MatchAccounted | src/memory/block_manager.rs:178-253 | a match call keeps the books in order if and only if its hits are live; references it strands on failure stay counted |
| Runs.AppendAccounted | src/memory/block_manager.rs:256-292 | an append keeps the books in order, also when it fails half way |
| Runs.ForkAccounted | src/memory/block_manager.rs:296-317 | a fork keeps the books in order |
| Runs.RollbackAccounted | src/memory/block_manager.rs:321-348 | a rollback of a known sequence never fails and releases exactly the dropped references |
| Runs.FreeSequenceAccounted | src/memory/block_manager.rs:351-358 | freeing a sequence never fails and releases exactly its references |
| Runs.StepAccounted | src/memory/block_manager.rs:128-358 | one call of any kind keeps the books in order if and only if it is disciplined: hits live, direct frees of blocks taken directly |
| ReferenceCounts.RunsKeepTheBooks | src/memory/block_manager.rs:128-358 | after any disciplined run, errors included: count = multiplicity over all tables + stranded references; on the free stack exactly when the count is zero; so at least the table multiplicity, and no mapped block is free |
| ReferenceCounts.CleanRunsBalance | src/memory/block_manager.rs:128-358 | after disciplined successful calls on fresh ids: count = table multiplicity, a block is free exactly when unmapped, free + distinct mapped = total |
| ReferenceCounts.NoDoubleFree | src/memory/block_manager.rs:321-358 | in order books neither rollback nor free reports a double free |
| ReferenceCounts.FreeAllSucceeds | src/memory/block_manager.rs:343-355 | in any state, freeing a list succeeds if and only if no block is listed more often than it is counted |
| ReferenceCounts.StaleHitMapsFreeBlock | src/memory/block_manager.rs:205-215 | the hypothesis on hits cannot be dropped: three calls after which a table maps a block that lies on the free stack |
| PrefixTrie.PathsAreNodes | src/memory/block_manager.rs:48-66 | nodes and cached chunk paths correspond one to one |
| PrefixTrie.FindPrefixClosed | src/memory/block_manager.rs:200-214 | cached paths are closed under prefixes |
| PrefixTrie.FindAfterInsert | src/memory/block_manager.rs:223-233 | a new leaf adds exactly its own path to the map |
| PrefixTrie.CachedPrefixIsLongest | src/memory/block_manager.rs:194-216 | the walk hits exactly the longest cached prefix of the path |
| PrefixTrie.WalkHits | src/memory/block_manager.rs:205-215 | while everything is cached the loop only bumps the blocks on the path, once each, and moves the cursor along it |
| PrefixTrie.WalkMisses | src/memory/block_manager.rs:218-234 | from the first miss on every chunk takes the top of the free stack and hangs a new node under the previous one, until the stack is empty |
| PrefixTrie.FindAfterWalk | src/memory/block_manager.rs:194-234 | the loop adds exactly the prefixes from the first missing to the last paid for, under consecutive node ids |
| PrefixMatching.MatchOutcome | src/memory/block_manager.rs:178-253 | a match succeeds if and only if the free stack covers the shortfall, whatever the page limit; it then returns the number of hits and stores hits followed by the top of the stack; otherwise it drains the pool and adds at most an empty table |
| PrefixMatching.ReportsLongestPrefix | src/memory/block_manager.rs:211-252 | the number returned is the length of the longest block-prefix cached before the call |
| PrefixMatching.MatchCounters | src/memory/block_manager.rs:195-216 | the hit counter grows by the number of found chunks, the lookup counter by the number of chunks up to the first one that finds no block |
| PrefixMatching.FreshPoolInOrder | src/memory/block_manager.rs:95-101 | a fresh pool hands out its blocks in ascending order: page i of the first admitted table is block i |
| AdmissionCounts.MatchRecorded | src/memory/block_manager.rs:205-242 | every block record after a match, successful or not: a block from the pool is counted once and mapped to the sequence, cached if and only if taken for a full chunk; any other block is counted once more per hit, and if hit mapped to the sequence and cached |
| PrefixMatching.TrieRefinesMap | src/memory/block_manager.rs:194-234 | the arena refines a map from chunk paths to blocks: a call adds the missing paid-for prefixes with the blocks taken for them and leaves every other entry as it was |
| PrefixMatching.PrefixesPresent | src/memory/block_manager.rs:194-252 | afterwards exactly the prefixes up to the failing chunk are cached; on success all of them |
| PrefixMatching.TableFollowsTrie | src/memory/block_manager.rs:205-250 | page i of an admitted table is the block the trie then has for the first i + 1 chunks |
| PrefixMatching.OneParent | src/memory/block_manager.rs:223-232 | each node but the root has exactly one parent, earlier in the arena, under its own chunk |
| PrefixSharing.SharingIsExact | src/memory/block_manager.rs:187-250 | in a sound state two covered tables hold the same block at full chunk i if and only if their prompts agree on the first (i + 1) * block_size tokens |
| PrefixSharing.ChunksAgree | src/memory/block_manager.rs:196-198 | two prompts have the same first k chunks if and only if they agree on the first k * block_size tokens |
| PrefixSharing.CountsDominate | src/memory/block_manager.rs:194-234 | a valid node's block is counted at least as often as the blocks of its valid children together |
| PrefixSharing.AncestorsAreValid | src/memory/block_manager.rs:321-358 | valid nodes are closed under ancestors: once a cached block has gone back, the blocks of all descendants have too |
| MatchSound.MatchKeepsSound | src/memory/block_manager.rs:178-253 | a match whose hits are valid keeps the cache sound, on failure too |
| PrefixSharing.ValidIffCurrent | src/memory/block_manager.rs:205-215 | in a sound state a node's block never went back to the pool if and only if the block is flagged as cached and no later node names it, which the program's own fields tell |
| AdmissionSharing.AdmissionSharesRightly | src/memory/block_manager.rs:205-250 | a successful admission and an admitted sequence hold the same block at a full chunk exactly when their prompts agree that far, if and only if the hit there, if any, is not on a node that lost its block to that sequence |
| AdmissionSharing.AdmissionIsSoundIffHitsCurrent | src/memory/block_manager.rs:205-250 | a successful admission keeps the soundness invariant if and only if every hit is on a node that still stands for its block |
| Counterexamples.LiveHitSharesWrongly | src/memory/block_manager.rs:205-215 | after a careful run of three calls an admission hits only a block in use, and two sequences with different prompts share it |
| DistinctPages.StepNoRepeats | src/memory/block_manager.rs:128-358 | no careful call makes a table list a block twice |
| DistinctPages.CarefulRunsAreSound | src/memory/block_manager.rs:128-358 | after any careful run from the empty pool: books in order, cache sound, no table with a repetition |
| MatchSound.ValidHitsAreLive | src/memory/block_manager.rs:205-215 | valid hits are hits on blocks in use |
| MatchSound.StepSound | src/memory/block_manager.rs:128-358 | every careful call, failed or not, keeps books and cache sound |
| SharingRuns.ForkSound | src/memory/block_manager.rs:296-317 | a fork keeps the cache sound |
| SharingRuns.AppendSound | src/memory/block_manager.rs:256-292 | an append keeps the cache sound |
| SharingRuns.RollbackSound | src/memory/block_manager.rs:321-348 | a rollback to any length keeps the cache sound |
| SharingRuns.FreeSequenceSound | src/memory/block_manager.rs:351-358 | freeing a sequence keeps the cache sound: when the call ends, every valid node still has a counted block of its own and a valid parent |
| ReachableSharing.AdmittedTablesShare | src/memory/block_manager.rs:468-501 | over whole runs from the empty pool: any careful calls, admit one sequence, any careful calls, admit another, any careful calls, none of which replaces, removes or rolls the two back below their prompts' full blocks; the tables share a full chunk's block if and only if the prompts agree that far |
| ReachableSharing.RunKeepsPrompt | src/memory/block_manager.rs:244-250 | the full chunks a table covers last until it is replaced, removed or rolled back below them |
| WriteExclusive.AppendWritesAloneIff | src/memory/block_manager.rs:268-289 | in a sound state a successful append puts every token into a block that is counted once, in no other table and in no valid node, if and only if the held pages it writes to are private before it |
| WriteExclusive.ForkedAppendAlone | src/memory/block_manager.rs:296-317 | after a fork an append to parent or child writes alone if and only if the forked table held no page for its next token |
| WriteExclusive.FullAtBoundary | src/memory/block_manager.rs:303-314 | with as many pages as its tokens need, a table holds none for its next token exactly at a block boundary |
| WriteExclusive.RolledBackAppendAlone | src/memory/block_manager.rs:321-348 | after a rollback an append writes alone if and only if the page cut in two, if there is one, has no reference but this table's and is not cached |
| Counterexamples.ForkedTailIsShared | src/memory/block_manager.rs:303-314 | a fork inside a block: the child's next token goes into its parent's block |
| Counterexamples.CutSharedPageIsShared | src/memory/block_manager.rs:336-339 | a fork at a boundary and a rollback into the last shared block, no prompt involved: the child's next token goes into its parent's block |
| WriteExclusive.ForkExclusive | src/memory/block_manager.rs:296-317 | a fork keeps all pages that any sequence will write to private if and only if the forked table held none |
| WriteExclusive.RollbackExclusive | src/memory/block_manager.rs:321-348 | a rollback keeps them private if and only if it does not cut into a shared or cached block |
| WriteExclusive.StepExclusive | src/memory/block_manager.rs:128-358 | a careful call of any kind keeps them private if and only if it is no fork or rollback that the two lines above exclude |
| WriteExclusive.AppendWritesAlone | src/memory/block_manager.rs:268-289 | while they are private, every newly appended token lands in a block of its sequence alone |
| ReachableSharing.NewTokensAreAlone | src/memory/block_manager.rs:236-317 | the same after any guarded run from the empty pool |
| ReachableSharing.ForksWriteAloneAtBoundaries | src/memory/block_manager.rs:303-314 | after any careful run that rolls no sequence past its pages, an append after a fork writes alone if and only if the fork is at a block boundary |
| RollbackInverse.AppendThenRollback | src/memory/block_manager.rs:256-348 | for every successful append in any state: a rollback to the old length restores the tables if and only if the table had the pages its tokens need; then trie and free stack in its order too; everything the program stores, if and only if moreover the blocks taken carried blank records |
| RollbackInverse.AppendThenRollbackAccounted | src/memory/block_manager.rs:256-348 | in order books the restoration is exact, telemetry labels included, if and only if the table had the pages its tokens need |
| Counterexamples.UndoneAppendDiffers | src/memory/block_manager.rs:336-339 | a careful run of two calls, register and rollback to one token, after which an append undone by a rollback leaves another table |
| AppendOutcomes.AppendRefused | src/memory/block_manager.rs:256-277 | in any state: not found if and only if the id is unknown, over capacity if and only if tokens + n > max_blocks_per_seq * block_size; both change nothing |
| AppendOutcomes.AppendOutcome | src/memory/block_manager.rs:275-289 | within the limit, with the least number of pages that make room: success if and only if so many blocks are free; table, stack and every block record after it, and after a failure |
| AppendOutcomes.StepOver | src/memory/block_manager.rs:128-358 | for a call of any kind, exactly which sequences are over the page limit after it: no append brings one there, only an admission, a rollback to a longer length and a fork of such a table |
| AppendOutcomes.RunsKeepLimit | src/memory/block_manager.rs:275-277 | over any run with any results, no table is over the limit unless an admission or a rollback names a length that is |
| ReleaseOutcomes.FreeAllStopsAt | src/memory/block_manager.rs:343-355 | a free loop that fails stops at the first position up to which some block is listed more often than counted, reports that block as a double free, and has released exactly what comes before |
| ReleaseOutcomes.FreedInOrder | src/memory/block_manager.rs:343-355 | giving back a counted list without repetition pushes exactly its blocks counted once, in the list's order |
| ReleaseOutcomes.FreeSequenceOutcome | src/memory/block_manager.rs:351-358 | in order books: the table goes and its unshared blocks go back front to back |
| ReleaseOutcomes.RollbackTables | src/memory/block_manager.rs:321-348 | in any books: a known sequence is left with the length named and the first of its pages, as many as that length needs or as there are, and no other table changes |
| ReleaseOutcomes.RollbackSucceeds | src/memory/block_manager.rs:343-345 | in any books, a rollback succeeds if and only if no dropped page is listed more often than counted |
| ReleaseOutcomes.RollbackOrder | src/memory/block_manager.rs:335-345 | in order books the unshared dropped pages go back last page first |
| ReleaseOutcomes.ForkOutcome | src/memory/block_manager.rs:296-317 | the child gets the parent's length and pages, each page is counted once more per occurrence, nothing else changes; an unknown parent is reported and changes nothing |
| PageCounts.StepShaped | src/memory/block_manager.rs:128-358 | one call of any kind with any result keeps in every table exactly the pages its tokens need, if and only if it is no rollback of a known sequence to a length for which it does not hold the pages |
| PageCounts.ReachableShaped | src/memory/block_manager.rs:128-358 | so over all runs from the empty pool without such a rollback, whatever the hits and results |
| PageCounts.RunsUndoAppends | src/memory/block_manager.rs:256-348 | after every such run that is disciplined, an append undone by a rollback restores everything the program stores |
| RollbackInverse.RollbackTwice | src/memory/block_manager.rs:321-348 | two successive rollbacks, the second further, equal the second alone, in every field |
| Speculative.CommonPrefixIsLongest | src/engine/speculative.rs:99-109 | the agreeing prefix is the longest one |
| Speculative.AcceptedIff | src/engine/speculative.rs:95-109 | a list is what a round accepts if and only if it is target tokens, all before the last in agreement with the draft, the last one the first divergence or the end of the draft |
| Speculative.RoundIsGreedy | src/engine/speculative.rs:95-112 | one round accepts a prefix of greedy decoding, at least one token of it |
| Speculative.DecodingIsLossless | src/engine/speculative.rs:95-112 | any number of rounds with any drafts produces a prefix of pure greedy decoding, with at least one new token per non-empty draft |
| Speculative.RoundOutcome | src/engine/speculative.rs:84-134 | in any books: the counters grow by the draft and the accepted tokens even if the rollback fails; a known sequence is left with baseline + accepted tokens on the first of its pages; verified if and only if no dropped page is listed more often than counted; the report has the accepted tokens, the draft tokens from the first divergence on as rejected, and the quotient of the counters |
| Speculative.MismatchChangesNothing | src/engine/speculative.rs:91-93 | a length mismatch is reported if and only if the lengths differ, and changes nothing |
| Speculative.VerifyLeavesExactMemory | src/engine/speculative.rs:111-120 | in order books, from baseline + draft tokens and a table without repetition with the pages for them, a round is verified, the table keeps baseline + accepted tokens and exactly the pages for those, the first of the old ones, and the free pool grows by exactly the dropped blocks whose count was one |
| Speculative.RoundsLeaveExactMemory | src/engine/speculative.rs:111-120 | the same after every careful run from the empty pool that rolls no sequence past its pages |
| Speculative.FreedCount | src/memory/block_manager.rs:343-355 | freeing a counted list grows the free pool by exactly its blocks without another reference |
| Speculative.SpeculativeVerifier.VerifyAndRollback | src/engine/speculative.rs:84-134 | verdict, counters and manager state for every input are those of the specification function that `Speculative.RoundOutcome` describes; accepted never exceeds proposed |
| Speculative.SpeculativeVerifier.Compare | src/engine/speculative.rs:95-109 | the comparison loop returns the accepted tokens and the first divergence |
| Speculative.SpeculativeVerifier.OverallAcceptanceRate | src/engine/speculative.rs:136-142 | 0.85 before any sample, otherwise the exact quotient, which lies in [0, 1] |
| Scheduler.ContinuousScheduler.constructor | src/engine/scheduler.rs:107-115 | empty pools around the given manager |
| Scheduler.ContinuousScheduler.SubmitSequence | src/engine/scheduler.rs:118-120 | the sequence goes to the back of the queue |
| Scheduler.ContinuousScheduler.ScheduleIteration | src/engine/scheduler.rs:123-167 | a decode batch whenever anything runs, else admission of the head of the queue; a failed admission frees what it registered and puts the head back |
| Scheduler.ContinuousScheduler.AdmitNext | src/engine/scheduler.rs:142-163 | admission of the head; on failure what was registered is freed and the head goes back to the front |
| Scheduler.ContinuousScheduler.StepSequence | src/engine/scheduler.rs:170-200 | the token is pushed before the append that may fail; a finishing sequence leaves the running pool before the free that may fail |
| Scheduler.ContinuousScheduler.AbortSequence | src/engine/scheduler.rs:203-229 | running, waiting, finished, unknown, in this order |
| Scheduler.ContinuousScheduler.FindWaiting | src/engine/scheduler.rs:214 | the search loop finds the first waiting entry with the id |
| SchedulerCoherence.AlwaysCoherent | src/engine/scheduler.rs:123-229 | every reachable state, errors included: table ids = running ids, each running table has the pages of its tokens, its length + failed steps = total tokens, and at most min(1, max_num_seqs) sequences run |
| SchedulerReplies.ScheduleReply | src/engine/scheduler.rs:123-167 | in every coherent state: while a sequence runs nothing changes and the reply is the decode batch of exactly that sequence with all its tokens; none is scheduled if and only if nothing runs and nobody waits or no sequence is allowed; else the head is prefilled if and only if the pool covers its shortfall, or put back out of memory |
| SchedulerReplies.OutputsAreGiven | src/engine/scheduler.rs:183-184 | in every reachable state a running sequence has exactly the tokens given to it since it began to run, those whose page could not be had included |
| SchedulerReplies.DecodeCountsTokens | src/engine/scheduler.rs:125-139 | so every decode batch has its length: that of the prompt it was submitted with plus the number of those tokens |
| SchedulerReplies.StepReply | src/engine/scheduler.rs:170-200 | in every coherent state: not found if and only if the sequence does not run; over capacity if and only if one more token is over the page limit; out of memory if and only if it is not, the tokens end on a page boundary and nothing is free; another error if and only if the step loses its sequence |
| SchedulerReplies.ReasonsAreDue | src/engine/scheduler.rs:186-197 | in every reachable state each filed sequence was filed by a call its reason names: a step without stop token at the token limit, a step with one, or an abort; the last output is that step's token |
| SchedulerReplies.AbortReply | src/engine/scheduler.rs:203-229 | in any state: done if and only if the id runs or waits, then filed as aborted with the tokens it had, the first waiting entry if it does not run; otherwise nothing changes, and already finished if and only if something is filed under the id |
| SchedulerReplies.AbortedForGood | src/engine/scheduler.rs:203-211 | a running sequence that is aborted stays filed so, and any later abort of it is told that it has finished |
| SchedulerReplies.NeverSubmitted | src/engine/scheduler.rs:173-176 | over any run an id that was never submitted is not found, by a step or an abort |
| SchedulerLifecycle.NextConserves | src/engine/scheduler.rs:118-229 | with unique ids, a call keeps each submitted sequence in exactly one pool if and only if it is not a finishing step whose free fails |
| SchedulerLifecycle.LosesIffOverlisted | src/engine/scheduler.rs:193-197 | such a step loses its sequence if and only if, before it, the table and the blocks about to be taken list a block more often than it is counted |
| SchedulerLifecycle.AccountedLosesNothing | src/engine/scheduler.rs:193-197 | in order books no finishing step loses its sequence |
| SchedulerLifecycle.OnePool | src/engine/scheduler.rs:98-104 | under conservation an id is once in one pool or nowhere |
| SchedulerLifecycle.NextInOrder | src/engine/scheduler.rs:143-151 | whatever the calls and their results, admissions are submissions minus those aborted while waiting, in order |
| SchedulerLifecycle.NextStatus | src/engine/scheduler.rs:20-32 | pools and status agree, and each entry is filed under its own id |
| SchedulerLifecycle.NextMoves | src/engine/scheduler.rs:118-229 | with unique ids, a call moves every id only from absent to waiting, waiting to running or aborted, running to finished, if and only if it does not lose that very sequence |
| SchedulerLifecycle.FailedAdmission | src/engine/scheduler.rs:148-152 | a failed admission leaves the three pools and the page tables as they were, and the free stack empty |
| DrainedPool.FailedAdmissionDrains | src/engine/scheduler.rs:148-152 | in order books and without a dead hit, every block then has a reference that no table holds |
| DrainedPool.DrainedForever | src/engine/scheduler.rs:118-229 | no scheduler call gives such a reference back, so this lasts over any later calls, all of whose hits are then live |
| DrainedPool.FailedAdmissionIsFinal | src/engine/scheduler.rs:123-229 | after one such failure and any later calls nothing is free; an admission succeeds if and only if the trie holds the whole prompt, and a step gets its page if and only if it needs none |
| SchedulerLifecycle.RunsConserve | src/engine/scheduler.rs:118-229 | with unique ids and live hits, in every reachable state: conservation, first in first out, status, books in order |
| SchedulerCompletion.SequenceIsLost | src/engine/scheduler.rs:193-197 | live hits cannot be dropped: six calls after which a submitted sequence is in no pool |
| SchedulerCompletion.SchedulerHitsAreDead | src/engine/scheduler.rs:125-148 | without stranded references the scheduler never shares a prefix: an admission has only live hits if and only if it has no hits |
| SchedulerCompletion.AdmittedIsOnCourse | src/engine/scheduler.rs:142-163 | an admission whose pages and tokens fit puts its sequence on course |
| SchedulerCompletion.CompletesUnlessDoomed | src/engine/scheduler.rs:123-229 | in books in whatever order: a running sequence with room for its tokens, among any other calls, without abort or stop token: with fewer than max(1, max_tokens) tokens it runs with exactly those given to it; with that token it is filed with exactly those, and stays so, unless from the start its table and the free blocks it will take list a block more often than counted; then nothing new is ever filed under its id |
| SchedulerCompletion.CompletesOnTime | src/engine/scheduler.rs:123-229 | in order books that never happens: the sequence is filed on time |
| AdmissionCounts.MatchCounted | src/memory/block_manager.rs:205-242 | after a successful match a block taken from the pool is counted once, even if it was hit before, and every other block once more per hit |
| SchedulerCompletion.AdmittedCompletesUnlessHitsAhead | src/engine/scheduler.rs:123-229 | from the scheduling round, in any coherent state: a sequence whose pages fit is admitted and filed on time, or lost at its last step, the latter if and only if one of its hits lies among the free blocks it will take |
| SchedulerCompletion.AdmittedCompletes | src/engine/scheduler.rs:123-229 | in order books a sequence with live hits is never lost that way |
| SchedulerReplies.AdmittedDecodes | src/engine/scheduler.rs:125-139 | between the admission and the last step every scheduling round decodes the sequence, with its prompt and the tokens the calls gave it |
| SchedulerReplies.StopFiles | src/engine/scheduler.rs:186-197 | in books in whatever order and among any other calls: a stop token before the last step files the sequence with exactly the tokens given up to and including it, as stopped, for good, unless its table and the blocks for those tokens list a block more often than counted |
| SchedulerReplies.AdmittedStopFiles | src/engine/scheduler.rs:142-197 | from the scheduling round: it is lost if and only if a hit lies among the free blocks taken up to the stop token |
| SchedulerCompletion.DrainsCompletely | src/engine/scheduler.rs:170-211 | after any run that never ran out of blocks and had no dead hit, page limits hit or not, once nothing runs no block is allocated |
| SchedulerCompletion.IdleIsEmpty | src/engine/scheduler.rs:170-211 | in order books with nothing stranded and nothing running, all blocks are free with count zero |
| Addresses.OutOffsetInjective | csrc/paged_attention.cu:67-69 | distinct (sequence, head, dimension) write distinct output cells |
| Addresses.OutOffsetOnto | csrc/paged_attention.cu:86-87 | every output cell belongs to a thread of the launch grid |
| Addresses.OutOffsetDigits | csrc/paged_attention.cu:14-15 | output and query offsets are those of the row-major layout [sequence][head][dimension] |
| Addresses.KvOffsetDigits | csrc/paged_attention.cu:16-17 | cache offsets are those of the row-major layout [block][slot][head][dimension] |
| Addresses.KvOffsetBound | csrc/paged_attention.cu:54-57 | cache offsets of in-range blocks stay below total_blocks * block_size * num_heads * head_dim |
| Addresses.KvOffsetInjective | csrc/paged_attention.cu:54-57 | distinct (block, slot, head, dimension) have distinct cache cells |
| Addresses.KvOffsetExact | csrc/paged_attention.cu:54-57 | no step of the 32-bit computation overflows when the cache has at most 2^31 cells |
| Addresses.OutOffsetExact | csrc/paged_attention.cu:39 | nor does the output or query offset |
| Addresses.CastWraps | src/memory/block_manager.rs:374-378 | out of range, a 32-bit cast changes a value by a multiple of 2^32, into the range |
| TableExport.ExportAt | src/memory/block_manager.rs:372-379 | entry j of row i lies at i * max_blocks_per_seq + j |
| TableExport.ExportedCells | src/memory/block_manager.rs:368-386 | every exported cell: the 32-bit id of that page of that sequence, or -1 where there is none; and every exported length |
| TableExport.EntryIsOwnPage | src/memory/block_manager.rs:372-379 | every token below an exported length finds the id of its own page, not -1, in its own row |
| TableExport.OwnRowIffWithinLimit | src/memory/block_manager.rs:376-378 | all tokens are looked up in their own row if and only if the sequence keeps to the page limit |
| TableExport.AdmissionOverLimit | src/memory/block_manager.rs:188-252 | a prompt over the limit is admitted, and one of its tokens is looked up in the next row |
| TableExport.ExportIsSafe | src/memory/block_manager.rs:368-386 | with well-shaped tables and caches sized for the pool everything the loops read is in range, and no 32-bit index overflows |
| TableExport.ReachableExportIsSafe | src/memory/block_manager.rs:368-386 | the same for the tables of any run from the empty pool that rolls no sequence past its pages, as long as they keep to the page limit |
| TableExport.ExportWithinLimitIsSafe | src/memory/block_manager.rs:368-386 | the same without looking at the state, for runs that name no length over the page limit |
| AttentionKernels.RunPagedAttentionCpuRef | src/kernels/paged_attention.rs:71-123 | the nested loops leave what the grid's threads leave when run in that order; rows of empty sequences are untouched |
| AttentionKernels.AttendCell | src/kernels/paged_attention.rs:94-119 | the token loop of one cell computes the cell value |
| AttentionKernels.PagedAttentionV1Kernel | csrc/paged_attention.cu:13-70 | one thread with 32-bit indices writes exactly its own cell, or nothing outside the grid or for an empty sequence |
| AttentionKernels.LaunchPagedAttention | csrc/paged_attention.cu:72-98 | the grid's threads in any order leave the output of the nested loops |
| AttentionKernels.RunPagedAttention | src/kernels/paged_attention.rs:25-67 | the length checks in order, whatever tables and caches; an error writes nothing; otherwise, given good tables, the output of the nested loops |
| PagedAttention.CellAfterRun | csrc/paged_attention.cu:27-69 | a cell holds its thread's value if that thread ran, whatever else ran, and its old value otherwise |
| PagedAttention.OrderDoesNotMatter | csrc/paged_attention.cu:86-95 | two runs of the same threads, in any order and with repetitions, leave the same output |
| PagedAttention.GridMembers | csrc/paged_attention.cu:86-87 | the launch grid is exactly the set of threads that pass the kernel's bounds check |
| PagedAttention.PagedEqualsContiguous | src/kernels/paged_attention.rs:86-119 | with caches laid out [block][slot][head][dimension] that hold a logical array through the tables, the gather equals the same loop over that contiguous array, for the query at [sequence][head][dimension] times the scale |
| PagedAttention.OutputIsContiguous | src/kernels/paged_attention.rs:71-123 | after all threads of the grid, in any order: the output cell at [sequence][head][dimension] holds that contiguous value, or its old one if the sequence is empty |
| PagedAttention.PlacementDoesNotMatter | src/kernels/paged_attention.rs:86-122 | two placements of the same logical arrays give the same output |
| PagedAttention.RenamingDoesNotMatter | src/kernels/paged_attention.rs:104-112 | renaming the physical blocks, table entries and cache cells together, changes no output |

## Left out

- HTTP, server-sent events, JSON, timers and token text (`src/server/`, `src/main.rs`): only their unique sequence ids matter here, as the hypothesis `FreshCall`.
- Locks and threads: each manager, scheduler or verifier call is one atomic step, because the code holds the write lock for the whole operation. Nothing is said about deadlock.
- The kernel's threads are atomic steps: each reads only inputs that no thread writes and stores one cell of its own. Launch limits of the device and `cudaDeviceSynchronize` are not modelled.
- Time stamps, time to first token, inter-token latency, and the clamped usage and hit ratios.
- Rounding: `f32` operations are uninterpreted functions applied in the same order by all programs; acceptance rates are exact quotients.
- Softmax: the code multiplies a score by a mean of values, so nothing is claimed about softmax attention.
- `usize` overflow of counts and sums: they are unbounded naturals. 32-bit casts and index arithmetic are modelled.
- `block_size` 0, with which the program panics on division: the constructor requires a positive block size.
- Negative lengths and missing table entries in the CPU reference, with which it panics: a precondition.
- `SpeculativeTree` and `DraftNode`: an append-only list the verifier never uses. `reset_metrics` sets two counters to zero.
- `set_block_speculative`, `get_block_inspect_info`, `get_sequence_blocks`, `get_sequence`: telemetry and plain getters. `RadixPrefixCache::clear` has no caller.
- `block_id` and `seq_id` inside records: they equal the index and the key.
- The order in which a decode batch lists sequences is that of a hash map; the batch is a map here.
- `scripts/`, `build.rs` and the dashboard.
- AttentionKernels.RunPagedAttention: once the lengths pass, good tables and caches are assumed, because the host checks only the three lengths and a kernel that reads outside its buffers has no defined behaviour; `TableExport.ExportIsSafe` shows when exported tables are good.
- ReachableSharing.AdmittedTablesShare: needs hits on nodes that still stand for their block, because others make it false.
