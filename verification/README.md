# Models of two in-memory inventory ledgers

Two Postgres extensions keep inventory costs in shared memory and write them to durable
tables behind the callers' backs. The *ledger extension* (`poc/ledger-extension`) has an
arena of FIFO cost-layer rings, a weighted-average balance table and two "H" arenas whose
cells are changed by compare-and-swap at once and taken back on abort. The *queue
extension* (`poc/queue-extension-v21`) routes enqueued envelopes into SuperBatches and
lets committers apply them. This project models the in-memory part of both and proves
what their transaction layers, background workers and costing code keep.

`dafny verify dfyconfig.toml` checks everything. The modules are:

| module | what it models |
|---|---|
| `LayerRing` | the ring of cost layers and the list of pending drains of one FIFO pool |
| `FifoTransaction`, `FifoCells`, `FifoApply`, `FifoShortage` | shadows, recorded operations, savepoint frames, replay at commit; first on values, then as the mutable cells and the stack, then put together over the arena's buckets; and which batches go through, by quantity |
| `FifoDurable` | the ring against the durable layer rows, with inline and background drains |
| `FifoPaths`, `FifoStream` | the in-order list walk and the cell-grouped ring walk of one batch, and what they decide and charge by the units a pool receives |
| `ProbeTable` | the open-addressing tables of the arenas |
| `BalancePair`, `BalancePending`, `BalanceTransaction`, `BalanceExactness` | staged deltas, two-pass commit and lazy seeds of the balance table, for any number of backends |
| `BalanceDrain`, `BalanceRows`, `BalanceRefinement` | one balance cell: swapping writers against drain ticks, by sequence number; that its row only moves forward; and how its atomic steps are the steps of `BalanceTransaction` |
| `HGroups`, `HStaged`, `HLayers`, `HIssues`, `HIssueCosts`, `HWalk` | the H arenas, what their totals make of the staged deltas, the issue walk over them with its costs, and the walk as a run of the arena |
| `UnionFind`, `Grouping`, `Affinity` | the router's grouping of envelopes that share a pool key |
| `StagingQueue`, `SlotProtocol`, `SlotSafety`, `SlotAccounts`, `SlotLeftovers` | the staging queue; the slot protocol of enqueuers, router and committers: nothing twice, nothing lost, and when a slot is left behind |
| `CostMethods`, `CommitterStep4`, `CommitterRun` | the three cost methods and Step 4 of a SuperBatch; first on values, then as the loops over mutable pools and row vectors |
| `EventOutcomes`, `EnvelopeOutcomes`, `RowOrigins`, `LayerBooks`, `LayerReferences`, `FifoConservation`, `WorkOrder`, `AvgRounding`, `AvgSuperBatch` | what Step 4 decides, writes and keeps |
| `SpilloverArena` | the byte-array allocator |
| `Collections`, `Int64`, `Sorting` | optional values and lists without repetition; 64-bit wrap-around, saturation and truncating division; stable sorting and filtering |

How to read it:

- Code that updates fields or arrays is a class or a method with loops, tied by its
  `ensures` to a function on values. The theorems are about those functions.
- Code that several backends or workers execute at once is a state machine. Its events are
  single atomic operations (a load, a swap, a flag change, a lock-protected section), and
  the theorems quantify over every list of events. An event that is not enabled changes
  nothing. Atomics are sequentially consistent; the shared and exclusive modes of the
  lightweight locks are real exclusion.
- Integers are unbounded. Where the code's arithmetic on quantities, costs, amounts,
  balances and account numbers wraps (`Wrap`), saturates (`Sat`), is checked or truncates
  (`TruncDiv`), the model says so; the exceptions are named under "Left out".
- The hash functions are arbitrary. Table, ring and queue sizes are constants or parameters.
- Durable tables are maps or row lists, and clocks, row ids and query results are parameters.

Where the code differs from its comments, the model follows the code and the difference is
stated as an if-and-only-if or with a witness:

- `expand_wo_complete_payload` says the output always sorts after the components. Its sort
  key is the constant 1 000 000, so this holds exactly up to 1 000 001 components
  (`WorkOrder.OutputIsLastIff`).
- It also says the output's issue id is distinct from every component's: exactly up to
  99 999 components (`WorkOrder.OutputIdIsOwnIff`).
- The account numbers of pools and of work orders overlap: SKU wo + 6000 at location op
  has the number of work order wo, operation op. A line on such a pool debits and credits
  the work order's account alike, so the account is left with something other than the
  rounding residue (`WorkOrder.CollisionLosesResidue`). `WorkOrder.ResidueIsRemainder`
  gives the exact amount and says exactly when it is the residue.
- A receipt of quantity zero into an empty average-cost pool sets the average to zero,
  below every receipt cost (`AvgRounding.AverageIsBetweenIff`, `AvgRounding.EmptyReceiptResets`).
- The total quantity of an average-cost pool is cut to 64 bits without a check. The stored
  quantity is the stock exactly as long as every receipt fits beside it
  (`AvgRounding.StockIsRightIff`); one unit more breaks the rounding bound
  (`AvgRounding.OverflowBreaksRounding`).
- `alloc` rounds up and adds the header in unchecked 32-bit arithmetic. It hands out a
  large enough block of its own exactly up to 2^32 - 16 bytes
  (`SpilloverArena.AllocIsSafeIff`, `SpilloverArena.LargeSizesFail`).
- Offset 0 is both the header of the first block and the end mark of the free list, so
  freed blocks are all reusable exactly as long as that block was never freed
  (`SpilloverArena.AllListedIffZeroKept`).
- After a failed durable update the drain tick puts its entries back; none is lost exactly
  when they fit beside those staged meanwhile (`FifoDurable.RestageKeepsOwedIff`).
- `effective_qty` of a group can become negative when a receipt is taken back after
  another backend has consumed it (`HGroups.AbortCanGoNegative`), and taking back an issue
  wraps it round once the receipts staged for the group reach 2^63
  (`HGroups.ReversalCanOverflow`).
- Staged balance deltas are added with saturation. A stored delta is the sum exactly when
  the sum fits in 64 bits (`BalanceExactness.StageIsExactIff`,
  `BalanceExactness.MergeIsExactIff`), and a committed delta can vanish otherwise
  (`BalanceExactness.SaturationLosesADelta`). The same holds for the deltas staged for a
  group (`HStaged.StageIsExactIff`, `HStaged.SaturationLosesAUnit`).
- The slot-leak audit calls a stamped slot without a queue entry something that should
  never happen in clean operation. It can: when the router stamps a slot between the two
  attempts of a committer to free it, both fail, and the slot and its blocks stay although
  everybody is done (`SlotLeftovers.AStampCanCrossACleanUp`). A slot is missed exactly when
  it carries the stamp at the second attempt (`SlotLeftovers.MissedIff`), and never when
  committers clean up after the router is done stamping (`SlotLeftovers.NoSlotIsLeftBehind`).

## Model

| member | source | states |
|---|---|---|
| `LayerRing.RingFields.PushLayer` | poc/ledger-extension/src/fifo.rs:668-676 | Appends as newest layer unless all `MAX_LAYERS` places are taken, in which case nothing changes; pending drains untouched; stated on the unrolled ring, whatever the head position |
| `LayerRing.RingFields.PushPendingDrain` | poc/ledger-extension/src/fifo.rs:703-714 | Appends one pending drain or refuses exactly when the list is full; layers untouched |
| `LayerRing.RingFields.DrainPendingInto` | poc/ledger-extension/src/fifo.rs:720-730 | Hands over all pending drains in order and leaves the list empty; layers untouched |
| `LayerRing.RingFields.ConsumeFromHead` | poc/ledger-extension/src/fifo.rs:735-763 | The loop over the circular array leaves the layers, slices and shortage of the value-level walk, and the saturating running cost of those slices |
| `LayerRing.ConsumeTakesOldestUnits` | poc/ledger-extension/src/fifo.rs:735-763 | Unit by unit: the slices are exactly the oldest `qty` units in order, the rest is what remains, the shortage is what was missing, and every remaining layer and slice is positive |
| `LayerRing.ConsumeTwice` | poc/ledger-extension/src/fifo.rs:735-763 | Consuming q1 and then q2 leaves what consuming q1 + q2 leaves |
| `LayerRing.SatCostExact` | poc/ledger-extension/src/fifo.rs:735-763 | While the exact cost fits in 64 bits, the step-by-step saturating total is the exact sum of quantity times unit cost |
| `FifoCells.ShadowCell.Receive` | poc/ledger-extension/src/fifo.rs:1744-1798 | A receipt on a shadow: pushes and records, or flips the sticky overflow flag once with its watermark; new state and recorded operations are those of the value-level receipt |
| `FifoCells.ShadowCell.Issue` | poc/ledger-extension/src/fifo.rs:1799-1886 | An issue on a shadow: layers, staged drains, inline drains, recorded operations, shortage and cost are those of the value-level issue |
| `FifoCells.ShadowCell.Stage` | poc/ledger-extension/src/fifo.rs:1809-1833 | Exactly the first slices that fit are staged and recorded, and exactly the others fall back to the inline update |
| `FifoCells.FifoBucket.ReplayOp` | poc/ledger-extension/src/fifo.rs:1158-1205 | Replaying one recorded operation on the live cell: new ring, pending drains, overflow flag and watermark |
| `FifoCells.FifoBucket.CommitShadow` | poc/ledger-extension/src/fifo.rs:1127-1155 | Seeds the live cell if nobody has and replays all operations of the shadow in order |
| `FifoCells.FifoBucket.SnapshotPending` | poc/ledger-extension/src/fifo.rs:2413-2430 | The tick takes exactly the pending drains and leaves the rest of the cell as it was |
| `FifoCells.FifoBucket.Restage` | poc/ledger-extension/src/fifo.rs:2510-2533 | After a failed update the taken entries are put back in order as far as they fit |
| `FifoCells.PendingStack.AcquireShadow` | poc/ledger-extension/src/fifo.rs:931-1021 | Yields the top frame's shadow, else a copy of the nearest one below with no operations, else the live cell, seeded when nobody has; and whatever is installed afterwards gives the same stack as installing into the old one |
| `FifoCells.PendingStack.InstallShadow` | poc/ledger-extension/src/fifo.rs:1024-1030 | Afterwards the cell is seen as the installed shadow and every other cell as before, whatever the live cells are |
| `FifoCells.PendingStack.SubxactStart` | poc/ledger-extension/src/fifo.rs:1217-1221 | A savepoint opens a level of its own and changes nothing that any cell shows |
| `FifoCells.PendingStack.SubxactCommit` | poc/ledger-extension/src/fifo.rs:1223-1257 | The loop over the popped frame merges it into the one below, entry by entry in any order of the hash map, with the code's handling of an empty or one-frame stack |
| `FifoCells.PendingStack.SubxactAbort` | poc/ledger-extension/src/fifo.rs:1259-1267 | A rollback drops the top frame, and the stack never stays empty |
| `FifoCells.PendingStack.Abort` | poc/ledger-extension/src/fifo.rs:1209-1215 | Abort forgets every shadow: each cell is seen as the live one again |
| `FifoCells.PendingStack.TakeMerged` | poc/ledger-extension/src/fifo.rs:1079-1116 | The frames merge, bottom to top, into one shadow per cell, and a fresh frame is left unless the stack was empty |
| `FifoCells.MergeInto` | poc/ledger-extension/src/fifo.rs:1096-1113 | Merging a later frame into an earlier one: operations appended, ring and overflow fields superseded, seed operations taken over only when there were none |
| `FifoApply.ApplyAll` | poc/ledger-extension/src/fifo.rs:1741-1888 | The envelopes of a cell on its shadow object give the state, the recorded operations and the reports of the value-level run, and go through exactly when the quantities cover them: up to an overflow, no issue asks for more than the layers hold and have received |
| `FifoApply.WorkOnCell` | poc/ledger-extension/src/fifo.rs:1737-1899 | Acquire, work, install for one live bucket is Phase 8 for that cell; a failure touches only the top frame |
| `FifoApply.ApplyBatch` | poc/ledger-extension/src/fifo.rs:1737-1899 | Phase 8 over all cells of a batch, from a stack in step with direct execution: goes through exactly when the batch does (by quantity, see `FifoShortage.BatchGoesThroughIff`), leaves its stack and reports, changes no bucket |
| `FifoApply.Commit` | poc/ledger-extension/src/fifo.rs:1079-1156 | Merging the stack and replaying it bucket by bucket, in any order, leaves in the buckets the cells of the value-level commit |
| `FifoApply.ApplyAndCommit` | poc/ledger-extension/src/fifo.rs:1079-1156 | A batch and its commit on the buckets leave the cells, and report the slices and costs, of running the batch on the cells directly; it goes through exactly when every cell's stock covers its share, and a failing batch leaves the cells as they were |
| `FifoShortage.GoesThroughIff` | poc/ledger-extension/src/fifo.rs:1799-1886 | A cell's envelopes go through if and only if no issue that finds the cell without overflow asks for more than the first stock plus receipts less issues before it; stated by quantity, not by the code's failure test |
| `FifoShortage.OverflowedGoesThrough` | poc/ledger-extension/src/fifo.rs:1799-1886 | On a cell that has overflowed nothing fails, however short the issues are |
| `FifoShortage.OverflowsIff` | poc/ledger-extension/src/fifo.rs:1744-1798 | A cell overflows exactly at a receipt that finds its ring full, and the watermark is that receipt's layer unless an earlier one was kept |
| `FifoShortage.BatchGoesThroughIff` | poc/ledger-extension/src/fifo.rs:1737-1899 | A batch over distinct cells goes through if and only if each cell's share is covered by what the cell holds |
| `FifoShortage.SeedsFromTheOldest` | poc/ledger-extension/src/fifo.rs:931-1021 | A cell nobody has seeded starts from the oldest durable layers in order, as many as the ring takes, and has overflowed exactly when some are left over |
| `FifoTransaction.EnvelopeReplays` | poc/ledger-extension/src/fifo.rs:1158-1205 | Replaying what an envelope recorded, on the state it started from, gives the state it computed: ring, pending drains, overflow flag, watermark |
| `FifoTransaction.AcquireIsFaithful` | poc/ledger-extension/src/fifo.rs:931-1021 | The acquired shadow replays, from what the frames below show, to what the whole stack shows |
| `FifoTransaction.BatchKeepsSync` | poc/ledger-extension/src/fifo.rs:1737-1899 | A batch on the stack fails exactly when it fails directly, reports the same slices, costs and inline drains, and leaves the stack showing the directly computed cells |
| `FifoTransaction.MergeTopCell` | poc/ledger-extension/src/fifo.rs:1223-1257 | Folding the top frame into the one below changes nothing that any cell shows, and keeps replay faithful |
| `FifoTransaction.CommitSubKeepsSync` | poc/ledger-extension/src/fifo.rs:1223-1257 | So a release keeps the whole stack in step with direct execution |
| `FifoTransaction.CommitShowsVisible` | poc/ledger-extension/src/fifo.rs:1079-1156 | Replaying the stack on the untouched live cells yields exactly the cells it showed |
| `FifoTransaction.CommitEqualsDirect` | poc/ledger-extension/src/fifo.rs:883-1267 | Over every run of batches, failed batches, savepoints, releases and rollbacks, also from an empty stack, commit leaves the live cells equal to the top shadows and equal to direct execution of only the surviving batches |
| `FifoTransaction.BatchReportsDirect` | poc/ledger-extension/src/fifo.rs:1737-1899 | Every batch of such a run reports the slices, costs and inline drains of direct execution after the survivors before it |
| `FifoDurable.BatchKeepsAgree` | poc/ledger-extension/src/fifo.rs:2226-2330 | A committed batch of receipts and issues keeps, layer by layer, durable quantity equal to ring quantity plus pending drains, whichever drains fell back to the inline update |
| `FifoDurable.TickKeepsAgree` | poc/ledger-extension/src/fifo.rs:2387-2509 | So does a successful drain tick |
| `FifoDurable.RunKeepsAgree` | poc/ledger-extension/src/fifo.rs:2226-2509 | Over every serial run of batches, aborts and ticks, ring and durable rows agree layer by layer and no row goes negative |
| `FifoDurable.RestageKeepsOwedIff` | poc/ledger-extension/src/fifo.rs:2510-2533 | Putting entries back after a failed tick keeps what the cell owes every row if and only if the entries and those staged meanwhile fit in the list together |
| `FifoPaths.WalkList` | poc/ledger-extension/src/lib.rs:2309-2342 | One issue over the list of layer records, exhausted ones skipped: depletions, remaining records, cost and shortage are those of the FIFO walk over the layers that hold stock |
| `FifoPaths.ApplyInline` | poc/ledger-extension/src/lib.rs:2264-2357 | The in-order batch goes through or fails, and reports per envelope, exactly as the reference outcome defined pool by pool, sentinels resolved |
| `FifoPaths.IssueTakesNextUnits` | poc/ledger-extension/src/fifo.rs:735-763 | In the reference outcome an issue that is not short takes exactly the next `qty` units of its pool's stream of initial and received units |
| `FifoStream.NoneShortIff` | poc/ledger-extension/src/lib.rs:2264-2357 | A batch goes through if and only if no issue asks, with those before it, for more than its pool held and received before it |
| `FifoStream.IssueCostsNextUnits` | poc/ledger-extension/src/lib.rs:2309-2342 | An issue is charged the sum of the unit costs of the very next units of its pool's stream, while none is negative and the sum fits |
| `FifoStream.ReceiptCosts` | poc/ledger-extension/src/lib.rs:2264-2357 | A receipt is reported at quantity times unit cost while that fits |
| `FifoPaths.RunCell` | poc/ledger-extension/src/fifo.rs:1737-1888 | One cell's envelopes in order on its ring: each is served as the reference says, or some envelope of the cell is short |
| `FifoPaths.ApplyByCell` | poc/ledger-extension/src/fifo.rs:1651-1899 | The cell-grouped path, without overflow, has the same reference outcome although it visits the envelopes in another order |
| `FifoPaths.ApplyBoth` | poc/ledger-extension/src/lib.rs:2264-2357 | Running both paths on the same batch and layers: they go through together, every envelope gets the same cost and depletion slices from both, and each issue takes the oldest units one by one |
| `ProbeTable.Table.Walk` | poc/ledger-extension/src/fifo.rs:609-626 | The probe stops at the key or at the first empty bucket after the home slot, wrapping round, and the key is nowhere before |
| `ProbeTable.Table.Probe` | poc/ledger-extension/src/fifo.rs:609-626 | Finds a key exactly when the map holds it, at a bucket with the map's value |
| `ProbeTable.Table.FindOrInsert` | poc/ledger-extension/src/fifo.rs:636-657 | Returns the key's bucket, inserting it if there is an empty one; refused exactly when the key is new and the table full; other entries untouched |
| `ProbeTable.Table.InsertNew` | poc/ledger-extension/src/lib.rs:649-688 | Adds a new key, refused exactly when no bucket is empty |
| `ProbeTable.Table.Put` | poc/ledger-extension/src/lib.rs:924-958 | Update in place, else insert: the map of bounded size with that entry |
| `ProbeTable.Table.PutAll` | poc/ledger-extension/src/lib.rs:907-960 | Any insert-only run of the table, for any hash, is that run of a map of bounded size |
| `ProbeTable.MissAtEmpty` | poc/ledger-extension/src/lib.rs:789-806 | An empty bucket ends the search rightly: the key is not in the table |
| `ProbeTable.SizeAtCapacity` | poc/ledger-extension/src/lib.rs:649-688 | There are as many keys as buckets exactly when no bucket is empty |
| `ProbeTable.CheckedRunIsPlain` | poc/ledger-extension/src/lib.rs:858-897 | If the distinct missing keys fit, no insert of the commit is refused: the bounded map is a plain map |
| `BalancePending.MergeInto` | poc/ledger-extension/src/lib.rs:989-1003 | Merging entries in any iteration order of the hash map: deltas summed with saturation, first captured seed kept |
| `BalancePending.PendingStack.CommitSub` | poc/ledger-extension/src/lib.rs:1011-1035 | Merges the top frame into the one below, with the code's handling of short stacks |
| `BalancePending.PendingStack.AbortSub` | poc/ledger-extension/src/lib.rs:1037-1045 | Drops the top frame; the stack never stays empty |
| `BalancePending.PendingStack.DrainAll` | poc/ledger-extension/src/lib.rs:975-987 | Yields all frames merged bottom to top and leaves one empty frame |
| `BalancePending.PendingStack.PreCommit` | poc/ledger-extension/src/lib.rs:858-897 | Passes exactly when the occupied buckets and the distinct staged keys without a cell fit in the table |
| `BalanceTransaction.StepChangesView` | poc/ledger-extension/src/lib.rs:907-1114 | In any interleaving, what a reader sees for a key changes only when a commit step lands there, and by exactly the staged delta; a new cell continues the row it replaces, so its seed is not stale, lost or applied twice |
| `BalanceTransaction.DrainKeeps` | poc/ledger-extension/src/lib.rs:393-520 | A drain upsert keeps the invariant and changes no view |
| `BalanceTransaction.CommitsAddUp` | poc/ledger-extension/src/lib.rs:907-1114 | Over every run of any number of backends, once no commit is under way the view (cell, else row, else zero) is its first value plus the exact sum of deltas staged by surviving (sub)transactions, unless an insert met a full table or a staged sum saturated |
| `BalanceTransaction.ReservedCommitLosesNothing` | poc/ledger-extension/src/lib.rs:858-960 | After its capacity check a commit loses nothing in any run in which no other backend inserts |
| `BalanceExactness.LightRunsAreExact` | poc/ledger-extension/src/lib.rs:989-1003 | If for each key the absolute deltas staged by each open transaction sum to less than 2^63, no merge or staging of the run saturates, so `CommitsAddUp` applies |
| `BalanceExactness.StageIsExactIff` | poc/ledger-extension/src/lib.rs:1063-1086 | Staging stores the sum of entry and delta if and only if the key is new in the top frame or the sum fits in 64 bits |
| `BalanceExactness.MergeIsExactIff` | poc/ledger-extension/src/lib.rs:989-1003 | Merging stores the sum for a key if and only if one side has no entry or the sum fits in 64 bits |
| `BalanceExactness.SaturationLosesADelta` | poc/ledger-extension/src/lib.rs:989-1003 | A whole run of one backend (stage, savepoint, stage, release, commit) after which the view is not the wrapped sum of the surviving deltas although nothing was refused |
| `BalanceDrain.RowIncludesItsStamp` | poc/ledger-extension/src/lib.rs:393-555 | For every interleaving of writers and drains, a row stamped n holds the base and a prefix of the swaps, and every delta numbered n or less is in that prefix |
| `BalanceDrain.CleanRowEqualsCell` | poc/ledger-extension/src/lib.rs:393-555 | Once no writer is mid-update and the cell reads as clean, the row equals the cell |
| `BalanceDrain.QuietTickCatchesUp` | poc/ledger-extension/src/lib.rs:393-555 | One undisturbed tick makes the cell clean and the row equal to it |
| `BalanceDrain.TotalIsSum` | poc/ledger-extension/src/lib.rs:170-190 | The wrapped fetch-adds amount to the exact sum of deltas cut to 64 bits once, in any order |
| `BalanceRows.RowNeverGoesBack` | poc/ledger-extension/src/lib.rs:393-555 | With any number of drain ticks at once, no step ever takes a swap or a sequence number out of the row again, in whatever order the ticks copy and write |
| `BalanceRefinement.StepRefines` | poc/ledger-extension/src/lib.rs:393-555 | Every atomic step of writers and drains on a cell is, in the shared table, one drain step or one landing of a delta of `BalanceTransaction`, or nothing |
| `BalanceRefinement.RunKeepsView` | poc/ledger-extension/src/lib.rs:393-555 | Over every interleaving of atomic steps the view of the key moves by exactly the swaps that landed and no drain step is seen; other keys do not move |
| `HGroups.TotalsAreConserved` | poc/ledger-extension/src/h_arena.rs:193-354 | In every interleaving of pre-commits, commits and aborts, `effective_qty` is committed plus applied-but-unresolved deltas in 64-bit arithmetic; while the receipts staged for the group sum to less than 2^63 it is that sum exactly and no lower than minus the receipts taken back |
| `HGroups.IdleTotalIsCommitted` | poc/ledger-extension/src/h_arena.rs:326-354 | With no transaction in progress it is the total the machine counts as committed; `HStaged.CommitsAddUp` says of which staged deltas that is the sum |
| `HGroups.AbortCanGoNegative` | poc/ledger-extension/src/h_arena.rs:332-354 | A run in which the lower bound is reached: the total is negative although every apply was checked |
| `HGroups.ReversalCanOverflow` | poc/ledger-extension/src/h_arena.rs:332-354 | The limit is sharp: with receipts of exactly 2^63 staged, a run in which every apply was checked and no receipt was taken back ends at the lowest 64-bit value |
| `HStaged.CommitsAddUp` | poc/ledger-extension/src/h_arena.rs:123-354 | Over every run, with no transaction at its end, a group's total is the sum of all deltas staged for it by the transactions that committed, both read off the list of events: in 64-bit arithmetic as long as no transaction's staged sum leaves 64 bits, and exactly while the receipts staged sum to less than 2^63 |
| `HStaged.LookupSeesOwnDeltas` | poc/ledger-extension/src/h_arena.rs:138-159 | A backend reads the committed deltas of all and the staged ones of its own |
| `HStaged.StageIsExactIff` | poc/ledger-extension/src/h_arena.rs:123-132 | Staging keeps the sum of a transaction's deltas if and only if the sum fits in 64 bits |
| `HStaged.SaturationLosesAUnit` | poc/ledger-extension/src/h_arena.rs:123-132 | A run that stages 2^63 - 1, 1 and -1 and commits leaves a total that is one short of their sum, which fits |
| `HLayers.ResidualsStayWithinBounds` | poc/ledger-extension/src/h_layer_arena.rs:121-283 | In every interleaving, a residual whose creator is not undoing it is created minus unreversed takes and lies between zero and created; during an abort it stays within plus or minus created |
| `HLayers.AbortedLayersAreEmpty` | poc/ledger-extension/src/h_layer_arena.rs:261-283 | When the creator's abort has finished the residual is zero |
| `HLayers.TakesAreAsAsked` | poc/ledger-extension/src/h_layer_arena.rs:147-179 | In every interleaving each take is positive and at most what was requested, and smaller only if it emptied the layer |
| `HLayers.UndisturbedTake` | poc/ledger-extension/src/h_layer_arena.rs:147-179 | A decrement nobody interferes with takes the smaller of residual and request and leaves every other layer alone |
| `HIssues.IssueOne` | poc/ledger-extension/src/h_batch_fifo.rs:282-314 | One issue from the shared cursor takes what a walk from the first layer takes, and all layers before the new cursor are drained |
| `HIssues.IssueGroup` | poc/ledger-extension/src/h_batch_fifo.rs:267-335 | The shared cursor gives the same rows, costs and shortage as restarting every issue at the first layer |
| `HIssues.WalkTakesOldest` | poc/ledger-extension/src/h_batch_fifo.rs:267-335 | That walk is the FIFO walk over the layers with stock, so an issue takes the oldest units |
| `HWalk.IssueIsARun` | poc/ledger-extension/src/h_batch_fifo.rs:282-314 | An issue walked by a backend alone is a run of the layer arena, decrement by decrement: the same residuals are left and the same layers give the same quantities in the same order |
| `HIssueCosts.ConsumptionsArePriced` | poc/ledger-extension/src/h_batch_fifo.rs:282-335 | In every batch that goes through, issue n takes its whole quantity, and its consumption row carries the truncated average of what left the layers, quantity by layer times the layer's unit cost |
| `HIssueCosts.RowsArePriced` | poc/ledger-extension/src/h_batch_fifo.rs:296-303 | Every depletion row names a layer of the group and an issue of the batch and costs quantity times the layer's unit cost in 64-bit arithmetic |
| `UnionFind.DisjointSets.Find` | poc/queue-extension-v21/src/router.rs:542-554 | Returns the representative and changes none, path compression included; terminates because rank rises along parents |
| `UnionFind.DisjointSets.Union` | poc/queue-extension-v21/src/router.rs:556-571 | Joins exactly the two sets under one of their representatives |
| `Affinity.RootsAreComponents` | poc/queue-extension-v21/src/router.rs:486-515 | Two candidates have the same representative if and only if a chain of shared keys connects them |
| `Affinity.AffinityGroup` | poc/queue-extension-v21/src/router.rs:486-526 | The groups are exactly the connected components of "shares a SKU or WIP key", a partition of the candidates, members sorted by `request_seq` with ties in order of arrival, groups sorted by their oldest member |
| `Affinity.GroupsShareNoKey` | poc/queue-extension-v21/src/router.rs:486-526 | Distinct groups have no key in common |
| `Affinity.Chunk` | poc/queue-extension-v21/src/router.rs:258-297 | The chunks concatenate to the group, all but the last are full, none is empty, and their number is what the overflow counter assumes |
| `StagingQueue.Queue.PushEntry` | poc/queue-extension-v21/src/staging.rs:39-83 | Takes the first free slot from the tail on, succeeds exactly when one is free, touches no other slot |
| `StagingQueue.Queue.PushBatch` | poc/queue-extension-v21/src/staging.rs:149-202 | All entries in distinct free slots, or none: succeeds exactly when enough slots are free, and on failure every flag and occupied slot is as before |
| `SlotSafety.ClaimedOnce` | poc/queue-extension-v21/src/committer.rs:707-751 | For every interleaving of enqueuers, router and committers, no SuperBatch is claimed twice |
| `SlotSafety.PublishedOnce` | poc/queue-extension-v21/src/router.rs:328-477 | No envelope is published in two SuperBatches or twice in one |
| `SlotSafety.NoDoubleFree` | poc/queue-extension-v21/src/committer.rs:2757-2887 | No arena block is freed unless it is allocated and held by the worker freeing it alone, also when a committer cleans up before the router stamps |
| `SlotSafety.NoBlockIsLost` | poc/queue-extension-v21/src/committer.rs:2757-2887 | In every run a block is allocated if and only if a slot, an entry, the router or a committer holds it |
| `SlotSafety.CommittersKeepTheirSlots` | poc/queue-extension-v21/src/committer.rs:2757-2887 | Until a committer cleans a slot it still holds the envelope published there, and no two committers work on one SuperBatch |
| `SlotSafety.StampBeforeFlag` | poc/queue-extension-v21/src/router.rs:328-477 | Whoever sees the stamped flag sees the id of the SuperBatch that owns the slot |
| `SlotAccounts.NoEnvelopeIsLost` | poc/queue-extension-v21/src/router.rs:328-477 | In every run an enqueued envelope is in a staging slot, or was published in a SuperBatch that lists it on the committer queue or was claimed |
| `SlotAccounts.ClaimGetsTheBatch` | poc/queue-extension-v21/src/committer.rs:707-751 | The committer that claims a SuperBatch gets exactly the envelopes published in it |
| `SlotLeftovers.NoSlotIsLeftBehind` | poc/queue-extension-v21/src/committer.rs:2757-2887 | In every run in which committers start to clean up once the router is done with the stamps of their SuperBatch, every published slot is freed or on the list of whoever will free it |
| `SlotLeftovers.MissedIff` | poc/queue-extension-v21/src/committer.rs:2791-2832 | The clean-up of a slot fails if and only if the slot carries the stamp at the second attempt |
| `SlotLeftovers.AStampCanCrossACleanUp` | poc/queue-extension-v21/src/committer.rs:2791-2832 | A run of one router and one committer after which all are idle and the queue is empty, but the slot is still stamped, its block allocated, and nobody refers to it |
| `CostMethods.EventFrame` | poc/queue-extension-v21/src/committer.rs:1588-1600 | An event of any method changes only its own pool and only appends rows, failed or not |
| `CommitterRun.Run.WalkLayers` | poc/queue-extension-v21/src/fifo.rs:183-244 | The layer loop pushes exactly the depletion rows of the value-level walk and leaves its layers (which `LayerBooks` ties to layers, events and quantities); on overflow the rows are taken back and the taken quantities are not |
| `CommitterRun.Run.DepleteEvent` | poc/queue-extension-v21/src/fifo.rs:157-288 | `deplete` on the mutable pools and rows, errors and partial effects included, is the value-level consumption, whose success `EventOutcomes.DepleteSucceedsIff` decides by stock and cost |
| `CommitterRun.Run.EmitLayerEvent` | poc/queue-extension-v21/src/fifo.rs:74-155 | A FIFO receipt as pushes on pool and row vectors is the value-level receipt; an amount out of range leaves everything alone |
| `CommitterRun.Run.RollInEvent` | poc/queue-extension-v21/src/avg.rs:83-175 | So is an average-cost receipt, with the average rolled before the layer is pushed |
| `CommitterRun.Run.AvgConsumeEvent` | poc/queue-extension-v21/src/avg.rs:177-266 | So is an average-cost consumption, refused before the pool changes |
| `CommitterRun.Run.StdApplyEvent` | poc/queue-extension-v21/src/standard.rs:43-219 | So is any standard-cost event, the missing standard cost included |
| `CommitterRun.Run.ApplyEvent` | poc/queue-extension-v21/src/committer.rs:1588-1600 | Dispatch by method, executed on the mutable pools and rows, gives the value-level outcome of `apply_one` |
| `CommitterRun.Run.CostOfRows` | poc/queue-extension-v21/src/committer.rs:1625-1645 | The checked sum over the added rows, or none if any product or sum leaves 64 bits |
| `CommitterRun.Run.Dispatch` | poc/queue-extension-v21/src/committer.rs:1574-1662 | One event: injected output cost, dispatch, accumulated component cost, failure on overflow |
| `CommitterRun.Run.Undo` | poc/queue-extension-v21/src/committer.rs:1664-1687 | Restores checkpointed pools, removes created ones and truncates the five row vectors |
| `CommitterRun.Run.Envelope` | poc/queue-extension-v21/src/committer.rs:1548-1688 | One envelope with checkpoint and rollback on the mutable state is the value-level envelope |
| `CommitterRun.GroupEvents` | poc/queue-extension-v21/src/committer.rs:1535-1544 | Grouping through the index map is grouping by first appearance |
| `CommitterRun.Run.Batch` | poc/queue-extension-v21/src/committer.rs:1525-1688 | The whole of Step 4 on the mutable state is the value-level Step 4, whose rows are pinned by field in `RowOrigins` and `LayerBooks` |
| `CommitterStep4.FailedEnvelopeIsUndone` | poc/queue-extension-v21/src/committer.rs:1664-1687 | A failed envelope leaves pools and all rows exactly as they were |
| `CommitterStep4.FailedEnvelopesAreInvisible` | poc/queue-extension-v21/src/committer.rs:1525-1688 | For any event list Step 4 leaves the same pools and rows as Step 4 on only the events of succeeding envelopes, all of which succeed again |
| `CommitterStep4.GroupsHoldTheirEvents` | poc/queue-extension-v21/src/committer.rs:1525-1544 | Each group holds exactly the events of its envelope, stably sorted, and none is later than the next by business date, document order, document and sub-priority |
| `CommitterStep4.DispatchOrder` | poc/queue-extension-v21/src/committer.rs:1525-1534 | Dispatch is a permutation of the events in which dates never fall, for equal dates the document order never falls, and so on field by field, with ties in order of arrival |
| `CommitterStep4.GroupsInOrder` | poc/queue-extension-v21/src/committer.rs:1535-1544 | Envelopes run in the order of their first events |
| `CommitterStep4.EveryEventHasOneGroup` | poc/queue-extension-v21/src/committer.rs:1535-1544 | Every event is in the one group of its envelope |
| `EventOutcomes.EventSucceedsIff` | poc/queue-extension-v21/src/committer.rs:1588-1600 | An event of any method is booked if and only if its kind, quantity and pool allow it: stock and cost range, average stock, or a standard cost |
| `EventOutcomes.DepleteSucceedsIff` | poc/queue-extension-v21/src/fifo.rs:157-288 | A FIFO consumption overflows exactly when the cost of the shares of the layers, oldest first, leaves 64 bits at some layer, and otherwise falls short exactly when the layers hold less than asked |
| `EnvelopeOutcomes.StepSucceedsIff` | poc/queue-extension-v21/src/committer.rs:1574-1662 | In an envelope an event succeeds if and only if it can be booked and, for a component, its cost and the running component cost fit in 64 bits; the running cost grows by exactly what the component costs under its method |
| `EnvelopeOutcomes.EnvelopeSucceedsIff` | poc/queue-extension-v21/src/committer.rs:1548-1688 | An envelope succeeds if and only if each event is possible on what the ones before it left |
| `EnvelopeOutcomes.ReportedIff` | poc/queue-extension-v21/src/committer.rs:1548-1688 | In a SuperBatch an envelope is reported as succeeded if and only if each of its events is possible on what the envelopes before it left |
| `RowOrigins.FifoAdds` | poc/queue-extension-v21/src/fifo.rs:74-337 | What a booked FIFO event adds, by field: the posting with its accounts from a written-out table, the signed inventory line, a layer numbered one above the pool's highest, or depletions of its quantity whose cost is posted |
| `RowOrigins.AvgAdds` | poc/queue-extension-v21/src/avg.rs:83-313 | The same under AVG, with a consumption row instead of depletions |
| `RowOrigins.StdAdds` | poc/queue-extension-v21/src/standard.rs:43-266 | The same under STD: everything but work-order outputs at the standard cost, and no layer for an ordinary receipt |
| `RowOrigins.RowsComeFromEvents` | poc/queue-extension-v21/src/committer.rs:1548-1688 | Over a SuperBatch the postings are those of the events of succeeded envelopes in order, one each; inventory lines, layer and consumption rows those of the events that have one; layer numbers run on from each pool's highest; what consumptions ask for is what the rows draw, and what they post is what the rows cost in 64-bit arithmetic |
| `LayerBooks.TakesOldestFirst` | poc/queue-extension-v21/src/fifo.rs:183-244 | The walk takes from a layer only once all older ones are empty |
| `LayerBooks.HydratedLayerIsBooked` | poc/queue-extension-v21/src/fifo.rs:183-222 | After Step 4 a hydrated layer has its id, cost and place and its quantity less exactly the depletion rows that name its id |
| `LayerBooks.NewLayerIsBooked` | poc/queue-extension-v21/src/fifo.rs:74-222 | A layer received in the SuperBatch has the pool, cost and quantity of its row less exactly the depletion rows that name its index |
| `LayerBooks.RowNamesItsLayer` | poc/queue-extension-v21/src/fifo.rs:183-222 | Every depletion row without an index names a hydrated layer of its pool at its cost, and every row carries issue id, time and envelope of a consumption of its pool |
| `LayerReferences.ReferencesHold` | poc/queue-extension-v21/src/fifo.rs:74-222 | After Step 4 every depletion row and pool layer with a layer index points at an existing layer row of the same pool and cost, and every row belongs to a succeeded envelope |
| `LayerReferences.EveryReferenceResolves` | poc/queue-extension-v21/src/committer.rs:1864-1957 | When one id per inserted layer row comes back, Step 5c finds for every depletion the id of the very row it was made against; that the depletion was made against the layer it took from is `LayerBooks` |
| `FifoConservation.TakeConserves` | poc/queue-extension-v21/src/fifo.rs:183-244 | The walk takes from the layers what it reports, in quantity and in value, and no layer goes negative |
| `FifoConservation.SuperBatchConserves` | poc/queue-extension-v21/src/committer.rs:1548-1688 | Over a SuperBatch a FIFO pool's quantity changes by the sum of its inventory rows and its value by receipt amounts less consumption amounts, exactly |
| `WorkOrder.Expand` | poc/queue-extension-v21/src/committer.rs:2691-2754 | Accepts exactly the payloads with at least one component and positive quantities, and yields one negative event per component and the output |
| `WorkOrder.ExpandedByField` | poc/queue-extension-v21/src/committer.rs:2680-2754 | Component i and the output by field: pool, sign, document, work order, sort key, and issue id document times 100 000 plus i, or plus 99 999 for the output |
| `WorkOrder.OutputIdIsOwnIff` | poc/queue-extension-v21/src/committer.rs:2733-2753 | The output's issue id differs from every component's if and only if there are at most 99 999 components |
| `WorkOrder.IssueIdsAreUnique` | poc/queue-extension-v21/src/committer.rs:2680-2754 | Up to that many components two lines share an issue id only if they are the same line of the same document |
| `WorkOrder.OutputIsLastIff` | poc/queue-extension-v21/src/committer.rs:2733-2753 | After the dispatch sort the output comes last if and only if there are at most 1 000 001 components |
| `WorkOrder.ResidueIsRemainder` | poc/queue-extension-v21/src/committer.rs:1571-1659 | With any mix of methods, debits less credits of the work order's own account come to the cost of the components on other accounts less the output's amount unless it is on that account too; this is the component total less quantity times truncated unit cost (the total modulo the quantity when it is not negative) if and only if the colliding components cost what the colliding output amounts to, and always when no line collides |
| `WorkOrder.EnvelopeResidue` | poc/queue-extension-v21/src/committer.rs:1548-1688 | The same for the envelope in dispatch order |
| `WorkOrder.SuperBatchResidue` | poc/queue-extension-v21/src/committer.rs:1525-1688 | The same for a work order inside any SuperBatch |
| `WorkOrder.CollisionLosesResidue` | poc/queue-extension-v21/src/standard.rs:241-247 | For every work order: one component unit at cost 10 on the pool with its account number and three units of output leave its account at -9 instead of 1 |
| `AvgRounding.EventIsMove` | poc/queue-extension-v21/src/avg.rs:83-224 | An average-cost receipt or issue of Step 4 moves the pool, and posts the amount, as the abstract move does; it is refused exactly when stock is missing or short or the amount leaves 64 bits |
| `AvgRounding.StockIsRightIff` | poc/queue-extension-v21/src/avg.rs:110-119 | Over every run the stored quantity is the stock at every point if and only if each receipt fits in 64 bits beside it |
| `AvgRounding.FewUnitsFit` | poc/queue-extension-v21/src/avg.rs:110-119 | In particular when the units received sum to less than 2^63 |
| `AvgRounding.AverageIsBetweenIff` | poc/queue-extension-v21/src/avg.rs:83-123 | Over every run from an empty pool whose receipts fit, the average lies between the least and greatest receipt cost if and only if the last receipt was not one of nothing into an empty pool, or some receipt had cost zero |
| `AvgRounding.AverageIsBetweenWithStock` | poc/queue-extension-v21/src/avg.rs:83-123 | While receipts fit and there is stock it always does |
| `AvgRounding.RoundingIsBounded` | poc/queue-extension-v21/src/avg.rs:83-224 | While receipts fit, value received less issued less carried is never negative and at most the sum over receipts of the new total quantity less one |
| `AvgRounding.OverflowBreaksRounding` | poc/queue-extension-v21/src/avg.rs:110-119 | With 2^63 units received the residue exceeds its bound, and two receipts later the average is above every receipt cost although the pool shows stock |
| `AvgRounding.EmptyReceiptResets` | poc/queue-extension-v21/src/avg.rs:83-123 | After any run that leaves no stock, a receipt of nothing puts the average below every receipt cost |
| `AvgSuperBatch.SuperBatchIsMoves` | poc/queue-extension-v21/src/committer.rs:1548-1688 | Step 4 brings an average-cost pool where the moves of its succeeding envelopes bring it, and the value its inventory rows post is what those moves received less issued |
| `AvgSuperBatch.SuperBatchRounds` | poc/queue-extension-v21/src/committer.rs:1548-1688 | So from an empty pool, the value posted by a SuperBatch less the value carried is within the rounding bound, and the average between the receipt costs |
| `SpilloverArena.GetPut` | poc/queue-extension-v21/src/arena.rs:177-188 | A little-endian word reads back as written |
| `SpilloverArena.Arena.WriteHeader` | poc/queue-extension-v21/src/arena.rs:184-188 | Writes size and link words and no other byte |
| `SpilloverArena.Arena.FindFit` | poc/queue-extension-v21/src/arena.rs:77-101 | The walk over links in the bytes finds the first listed block that fits, and its predecessor, or none; it terminates |
| `SpilloverArena.Arena.Alloc` | poc/queue-extension-v21/src/arena.rs:71-114 | For every 32-bit size: first fit from the list, else a new block at the bump offset, else nothing, with bytes and counters consistent with the block view; a size whose block wraps to nothing leaves bump offset and list as they were, or panics exactly when the header does not fit |
| `SpilloverArena.Arena.Free` | poc/queue-extension-v21/src/arena.rs:118-126 | Pushes the block on the list; every payload is kept |
| `SpilloverArena.Arena.WriteBytes` | poc/queue-extension-v21/src/arena.rs:130-134 | Replaces that stretch of the block's payload and damages no header and no other block |
| `SpilloverArena.Arena.ReadBytes` | poc/queue-extension-v21/src/arena.rs:137-141 | Yields exactly that stretch of the block's payload |
| `SpilloverArena.AllocIsSafe` | poc/queue-extension-v21/src/arena.rs:71-114 | Up to 2^32 - 16 bytes a returned offset is never 0 and names a block nobody held, large enough; every other payload is intact; failure changes nothing |
| `SpilloverArena.AllocOutcome` | poc/queue-extension-v21/src/arena.rs:71-114 | A call fails exactly for size zero or when no listed block has the rounded size and header and payload do not fit behind the last block; otherwise it takes the first listed block that fits, and a new one only when none does |
| `SpilloverArena.AllocIsSafeIff` | poc/queue-extension-v21/src/arena.rs:71-114 | A call that returns an offset keeps the arena well formed and hands out a large enough block if and only if the size is at most 2^32 - 16 |
| `SpilloverArena.LargeSizesFail` | poc/queue-extension-v21/src/arena.rs:191-193 | From the empty arena, the call for 2^32 - 8 bytes and the next one get the same offset, and the call for 2^32 - 1 bytes gets a block of none |
| `SpilloverArena.StepIsSafe` | poc/queue-extension-v21/src/arena.rs:71-141 | Every call within the caller contract keeps blocks disjoint and inside the bump limit and the free list acyclic and of freed blocks only |
| `SpilloverArena.RunIsSafe` | poc/queue-extension-v21/src/arena.rs:63-141 | So does every run of such calls from the empty arena |
| `SpilloverArena.DataReadsBack` | poc/queue-extension-v21/src/arena.rs:118-141 | A block in hand keeps its bytes until it is freed or written, whatever else the run does |
| `SpilloverArena.AllListedIffZeroKept` | poc/queue-extension-v21/src/arena.rs:71-126 | In every run all freed blocks are on the list if and only if the block at offset 0 was never freed |

## Left out

- SQL text, SPI calls, JSON parsing, settings, worker start-up, lock and signal calls, clocks: foreign calls; their results are parameters.
- Weak memory orderings: every atomic step is sequentially consistent.
- The spill and durable-only issue walks (`poc/ledger-extension/src/fifo.rs` lines 1901 to 2149): they read durable rows that the same batch has not yet written.
- Two backends consuming one FIFO pool at once: replay discards its slices, and the code calls the attribution best effort.
- A FIFO drain tick in the middle of another transaction: `FifoDurable` orders batches, aborts and ticks serially.
- Ejection, orphan rescue, boot and audit sweeps and worker death: they need timing assumptions.
- `consumed_seq` values: `CommitterRun` counts them, but rows are compared without them because Step 4 does not take the counters back.
- Deadlock freedom of the pool locks, starvation counters, statistics, `recovery.rs`, `enqueue.rs`, the older queue extension and the PL/pgSQL ledger: observability, SQL or easier duplicates.
- The net deltas per group of `h_batch_fifo.rs`: a sum that would only add easy members.
- The H arenas and the slot protocol are state machines on values, not classes, because their methods interleave; that the shared tables are open-addressing arrays is covered by `ProbeTable` alone.
- FifoPaths.ApplyByCell: requires that no ring overflows, because overflow sends issues to the spill walk.
- FifoDurable.RunKeepsAgree: rings that overflow and ticks whose update fails are outside its runs; `FifoDurable.RestageKeepsOwedIff` says what such a tick keeps.
- BalanceTransaction.CommitsAddUp: holds unless a sum saturated or a table was full, since the code then drops a delta; an SPI error while reading a seed is not modelled.
- HLayers.ResidualsStayWithinBounds: layer ids are fresh, as the sequence they come from guarantees, and a backend takes only from its own or committed layers.
- SlotSafety.NoDoubleFree: one router, as the extension starts.
- SlotLeftovers.NoSlotIsLeftBehind: a condition on when committers start to clean up; `SlotLeftovers.MissedIff` is the exact condition for one slot.
- HStaged.CommitsAddUp: holds unless a staged sum left 64 bits, since the code then drops a delta (`HStaged.SaturationLosesAUnit`).
- HWalk.IssueIsARun: a backend alone at the layers of its group; how concurrent takes share a layer is `HLayers.TakesAreAsAsked` and `HLayers.ResidualsStayWithinBounds`.
- WorkOrder.Expand: starts from the parsed payload; malformed JSON is not modelled.
- WorkOrder.EnvelopeResidue: requires at most 1 000 001 components, the exact bound of `WorkOrder.OutputIsLastIff`.
- BalanceExactness.LightRunsAreExact: a sufficient condition only, because deltas of opposite sign may cancel above it; `BalanceExactness.StageIsExactIff` and `BalanceExactness.MergeIsExactIff` are the exact conditions step by step.
- HGroups.TotalsAreConserved: above 2^63 staged receipts only the 64-bit equation is stated; `HGroups.ReversalCanOverflow` shows the bound can fail there.
- SpilloverArena.RunIsSafe: the caller contract of its runs is the source's (free and write only blocks in hand) and sizes up to 2^32 - 16, the exact bound of `SpilloverArena.AllocIsSafeIff`; arithmetic overflow checks of a debug build are not modelled.
- AvgRounding.EventIsMove: negative receipt costs are outside it, and the quantity -2^63, whose absolute value does not fit, is not treated apart by any cost method.
- AvgSuperBatch.SuperBatchRounds: receipt costs, the injected output costs included, are not negative.
- Counters (`max_born_seq`, `consumed_seq`, sequence numbers) are unbounded; the source's would wrap.
