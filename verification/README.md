# Protocols and data paths of the QEMU block layer, jobs, qemu-img, gdbstub and vCPU threads

This project models the concurrent and transactional core of the QEMU tree in
`qemu-uintr/` and proves, for all inputs, all runs and all interleavings, what that
core is relied on for. Each component is modelled in the form its source has: shared
protocols are step systems with one program counter per thread or coroutine, objects
that are updated in place are classes, loops are loops, and lookups are functions.
Whatever lies outside (drivers, requests, clocks, the event loop, other callers) is an
arbitrary choice: a parameter, an arbitrary function, or a value picked by `*`.

| files | what they model |
|---|---|
| `Basics.dfy` | what the others share |
| `ExclusiveSection.dfy` | exclusive sections of vCPU threads: safety, no lost wake-up, completion |
| `BlockGraph.dfy`, `BlockState.dfy`, `BlockOps.dfy`, `BlockCommands.dfy` | the graph of block nodes: walks, permissions, transactions, reference counts, cycles |
| `AioContext.dfy` | moving a connected part of the block graph to another AioContext |
| `JobState.dfy`, `JobOps.dfy`, `JobSteps.dfy`, `JobAbort.dfy`, `JobRest.dfy`, `Jobs.dfy` | jobs and job transactions: status table, group commit and abort, pause ledger |
| `SparseScan.dfy`, `ConvertParts.dfy`, `Convert.dfy`, `ConvertProof.dfy` | `qemu-img convert`: sparse detection, chunks, parallel and in-order copying |
| `Rebase.dfy` | safe `qemu-img rebase` |
| `GdbPacket.dfy`, `VCont.dfy` | the GDB remote protocol: packets, and the vCont action list |
| `QmpTransaction.dfy` | the QMP `transaction` command and its dirty-bitmap actions |

How a reader can find their way: the invariants are `ExclusiveSection.InvOf`,
`BlockCommands.Settled`, `JobState.SysOk`, `JobState.AtRest` and `Convert.Inv`; the
results about whole runs are `ExclusiveSection.MutualExclusion` and `DrainCompletes`,
`BlockCommands.Run`, `Jobs.JobTable.Run`, `ConvertProof.ConvertedIsSource` and
`EveryRunEnds`, and `GdbPacket.Server.Receive`.

In five places the code does less than a comment, or the design around it, says. The
model follows the code, and states exactly when the promise is kept:

- A job transaction is meant to succeed or fail as a whole. When `job_finalize` is asked
  of one job and the first job in the list whose `.prepare` fails is *another* one, the
  asked job is committed and all others are aborted; in every other case all end alike
  (`Jobs.JobTable.FinalizeJob`, with `SplitExample`). Over whole runs, this is the only
  way in which a transaction ends on both sides (`JobState.AllOrNothing`,
  `Jobs.JobTable.Run`).
- `qmp_transaction` says it is all-or-none. A failing dirty-bitmap `enable` action is
  aborted although it never saved how it found the bitmap, so a failed transaction
  restores everything if and only if the failing action is not an `enable` whose bitmap
  could not be looked up, or was enabled at the start (`QmpTransaction.FailedBitmapsIff`,
  with `EnableExample`).
- `is_allocated_sectors` is documented to return true iff the first sector has data. It
  also does so for leading zeros that end inside an unaligned piece
  (`SparseScan.IsAllocatedSectors`, with `SwallowedExample`).
- A vCont entry for all threads of a process that does not exist follows a null process,
  whether or not the packet is well-formed further on (`VCont.FaultIff`, with
  `FaultExample` and `FaultRun`).
- A malformed vCont packet is meant to be refused. One that ends with a thread part that
  is a bare process number (`p1`) goes on reading behind its NUL, in what longer packets
  have left in the buffer, and sets CPUs going exactly if that completes it to a good
  packet (`VCont.ResumesIff`, with `StaleExample` and `StaleRun`); every other malformed
  packet is refused, or follows a null process as above (`VCont.TextDecides`).

## Model

| member | source | states |
|---|---|---|
| ExclusiveSection.StepKeeps | qemu-uintr/cpus-common.c:173-301 | Every step of every thread, in any interleaving, keeps the invariant: who owns the counter, what `running` and `has_waiter` may be at each place, how the counter is made up, and who may sleep. |
| ExclusiveSection.MutualExclusion | qemu-uintr/cpus-common.c:173-301 | In every reachable state with any number of threads: while one thread is between `start_exclusive` and `end_exclusive`, no other is between `cpu_exec_start` and `cpu_exec_end`, nor in an exclusive section. |
| ExclusiveSection.PendingCounts | qemu-uintr/cpus-common.c:187-226 | `pending_cpus` is 0 exactly when no exclusive operation is announced, and after counting it is 1 plus the CPUs with `has_waiter` (plus the one between clearing its flag and decrementing). |
| ExclusiveSection.NoLostWakeup | qemu-uintr/cpus-common.c:173-226 | With the lock free, a sleeper on `exclusive_cond` has `pending_cpus > 1` and one on `exclusive_resume` has it nonzero; at most one thread sleeps on `exclusive_cond`, so one signal is enough. |
| ExclusiveSection.NoDeadlock | qemu-uintr/cpus-common.c:173-301 | As long as a thread is inside an operation, executing or exclusive, some such thread can go on, without new operations or spurious wake-ups. |
| ExclusiveSection.ContinueDescends | qemu-uintr/cpus-common.c:173-301 | Every step that begins no operation lowers a natural-number measure of the work left, waking others included. |
| ExclusiveSection.DrainCompletes | qemu-uintr/cpus-common.c:173-301 | Every operation completes: once nothing new begins, every schedule from every reachable state is finite, and can only stop with all threads outside, no CPU marked, the lock free and the counter 0. |
| BlockGraph.RecurseHasChild | qemu-uintr/block.c:4139-4155 | The recursive walk returns true exactly for reachable nodes. |
| BlockGraph.TopologicalDfs | qemu-uintr/block.c:2211-2245 | One walk with the shared `found` table extends a sorted list by exactly the nodes reachable and not yet listed, parents before children. |
| BlockGraph.TopologicalList | qemu-uintr/block.c:5272-5275 | Any series of walks sharing one table yields a duplicate-free list of exactly the union of the reachable sets, every parent before each of its children. |
| BlockGraph.ShouldUpdateChild | qemu-uintr/block.c:4994-5071 | The breadth-first search returns true exactly when the edge may move and its owner cannot be reached from `to`. |
| BlockGraph.NoCycle | qemu-uintr/block.c:3091-3095 | In a graph with a decreasing numbering no path of one step or more returns to its start; `BlockCommands.Run` exports this of every run. |
| BlockGraph.ArrowAdded | qemu-uintr/block.c:3091-3095 | A new arrow keeps the graph acyclic if its source is not reachable from its target, which is what is made sure of before attaching. |
| BlockState.BlockLayer.GetCumulativePerm | qemu-uintr/block.c:2544-2560 | The loop computes the union of the parents' permissions and the intersection of what they share. |
| BlockState.BlockLayer.ParentPermsConflict | qemu-uintr/block.c:2139-2192 | A conflict is found exactly when some parent does not share what another one holds, in either direction. |
| BlockState.BlockLayer.ChildSetPerm | qemu-uintr/block.c:2253-2284 | Sets both permission sets of one edge and leaves what an abort would restore unchanged. |
| BlockState.BlockLayer.NodeRefreshPerm | qemu-uintr/block.c:2450-2519 | Succeeds exactly when the node can carry what its parents ask for; then its children are asked for what its driver derives from exactly these permissions and the node is in order. Only its child edges change, and all of it can be undone. |
| BlockState.BlockLayer.ListRefreshPerms | qemu-uintr/block.c:2521-2542 | One pass over a topologically sorted, child-closed, duplicate-free list reaches a global fixed point: on success every listed node is in order at the end, no later node having disturbed an earlier one, and only child edges of listed nodes changed. It succeeds if and only if permissions that put all listed nodes in order exist, and those it finds are the only ones. An abort restores everything. |
| BlockOps.TranAbort | qemu-uintr/util/transactions.c:60-79 | Undoes the entries, newest first. |
| BlockOps.TranCommit | qemu-uintr/util/transactions.c:81-100 | Commits the entries, newest first. |
| BlockOps.CommitCounted | qemu-uintr/block.c:2344-2353 | Committing drops exactly the references the transaction kept, so counts are edges plus outside holders again. |
| BlockOps.ReplaceChildTran | qemu-uintr/block.c:2417-2444 | Points an edge at another node: the graph stays acyclic, the counts exact (the old node's reference moves into the transaction) and the rollback point the same. |
| BlockOps.ReplaceNodeNoperm | qemu-uintr/block.c:5176-5210 | Although each edge is tested against the graph as changed so far, exactly the users that may move and do not hang below `to` in the initial graph are moved. Succeeds if and only if none of these is frozen and, without auto-skip, all users are among them. |
| BlockOps.AttachChildNoperm | qemu-uintr/block.c:3076-3109 | Succeeds exactly when the parent is not reachable from the child and the contexts can be reconciled; failure changes nothing. |
| BlockOps.RemoveChildTran | qemu-uintr/block.c:5079-5163 | Detaches the backing or filter child with counts, acyclicity and rollback kept. |
| BlockOps.RefreshPerms | qemu-uintr/block.c:2591-2602 | All nodes below a node end up in order, or nothing changes; succeeds if and only if that is possible, in the only possible way. |
| BlockCommands.TranFinalize | qemu-uintr/block.c:5284-5285 | A finished transaction leaves exact counts and an acyclic graph; a failed one exactly the start. |
| BlockCommands.Append | qemu-uintr/block.c:5324-5353 | Success splices the overlay in below all users of the top node that may move, with everything below it in order; failure leaves edges, permissions, reference counts and backing pointers exactly as before. Succeeds if and only if there is no loop (appending a node to itself is one), no frozen link on the way, the contexts agree and the permissions of the new graph can be put in order. |
| BlockCommands.SpliceIn | qemu-uintr/block.c:5334-5346 | The steps of appending inside the transaction, with the exact condition of success. |
| BlockCommands.CowParent | qemu-uintr/block.c:5239-5247 | Finds the node of the backing chain of `from` that links to `to`, the first time the chain meets it. |
| BlockCommands.ReplaceNodeCommon | qemu-uintr/block.c:5224-5291 | Success moves the movable users of `from` to `to`, removes exactly the chain link into `to` that the chain of `from` first meets when detaching, and leaves everything below both nodes in order; failure leaves everything exactly as before. With the exact condition of success, detaching or not. |
| BlockCommands.SetBackingNoperm | qemu-uintr/block.c:3354-3448 | Cuts the old link and makes the new one, exactly when the driver is there and supports it, the old link is not frozen, and no loop would close. |
| BlockCommands.SetBackingHd | qemu-uintr/block.c:3450-3471 | The node has the new backing node, or none, and everything below it is in order; or nothing changed. With the exact condition of success. |
| BlockCommands.AttachChild | qemu-uintr/block.c:3186-3218 | The caller's reference is consumed either way; succeeds if and only if there is no loop, the contexts agree and the permissions can be put in order, and otherwise changes nothing else. |
| BlockCommands.Run | qemu-uintr/block.c:5176-5353 | Over every run of attach, set-backing, replace (detaching or not) and append, each succeeding or failing: no path returns to its start, and every reference count is incoming edges plus outside holders, which are those of the start less one for each child handed over by an attach that ran, and never negative. |
| AioContext.Contexts.CanSet | qemu-uintr/block.c:7445-7468 | The asking walk says yes with every edge it followed willing, and no only if some edge of the component is unwilling. |
| AioContext.Contexts.JobCanSet | qemu-uintr/blockjob.c:136-149 | A job is asked for all the nodes it uses. |
| AioContext.Contexts.SetIgnore | qemu-uintr/block.c:7326-7404 | The moving walk ends (the edges not yet ignored shrink), moves each node at most once and only after all its edges are on the list, and moves the start node. |
| AioContext.Contexts.JobSet | qemu-uintr/blockjob.c:151-167 | All nodes a job uses are followed and the job's own context is changed. |
| AioContext.Contexts.TrySet | qemu-uintr/block.c:7470-7491 | For a component that lies in one context: succeeds exactly when every edge of the component is willing; then every node of it is moved exactly once and no other node, with the jobs that use one of them, and no other job; otherwise nothing changes. No parent class without callbacks is ever met while moving. |
| JobState.CompletedStays | qemu-uintr/job.c:38-52 | Along any run the status table allows, a completed job stays completed; every job's history is such a run (`Jobs.JobTable.Run`). |
| JobState.AllOrNothing | qemu-uintr/job.c:767-831 | Once no job is left in a transaction, all jobs it ever had are committed, or all aborted; or it was aborted by a good job because the `.prepare` of another failed, and then exactly that job is committed and all others aborted. |
| JobState.NothingYet | qemu-uintr/job.c:767-860 | While jobs are left, and no abort or commit is under way, no job of the transaction has been committed or aborted, or has left. |
| JobState.CompletedIsGood | qemu-uintr/job.c:897-902 | A completed job of a transaction that is not aborting has result 0 and is not force-cancelled. |
| JobState.PutOk | qemu-uintr/job.c:179-192 | Any change of one job that the table allows, that keeps its record sound and fits its transaction, keeps the whole invariant, among it that every job's history is a path through the table. |
| JobOps.CancelledOk | qemu-uintr/job.c:733-765 | Cancelling keeps a record sound: the user pause it takes back had been counted, and after a forced cancellation the job is doomed, whatever it was doing. |
| JobOps.RcUpdatedOk | qemu-uintr/job.c:662-673 | A job with an error result, or cancelled by force, may turn to ABORTING from wherever it has come to, and keeps a sound record. |
| JobOps.ConcludedOk | qemu-uintr/job.c:701-731 | Committing or aborting one job, taking it out of its transaction and its list, and concluding it keeps the invariant, among it that every job is committed or aborted at most once and on its transaction's side. |
| JobOps.UnreffedOk | qemu-uintr/job.c:382-402 | A job is freed with its last reference only, and is then NULL and in no transaction. |
| JobSteps.MarkedOk | qemu-uintr/job.c:853-859 | A transaction of pending jobs may start to be committed, and end when it is empty. |
| JobAbort.CoAfterOk | qemu-uintr/job.c:497-526 | Every move of a running job is in the transition table, and leaving a pause point restores the status it was entered with. |
| JobAbort.UndoOne | qemu-uintr/job.c:807-821 | Finalizing a completed member takes the abort one job further: it is aborted if doomed, else (only the starting job of a mixed abort) committed. |
| JobAbort.PrepareFailed | qemu-uintr/job.c:833-860 | After a failed `.prepare` the finalizing job can abort the transaction; it is itself doomed exactly if it is the one that failed. |
| JobRest.LedgerRest | qemu-uintr/blockjob.c:102-134 | Pausing and resuming by users, drained sections and errors keeps the invariant of all jobs. |
| JobRest.LedgerAfterOk | qemu-uintr/blockjob.c:501-557 | Each pause has one owner: `pause_count` is (not started) + (user paused) + open drained sections after every change, so resuming never finds it 0, and an I/O status is only reset under a user pause. |
| JobRest.DismissRest | qemu-uintr/job.c:622-646 | Between operations a concluded job has left its transaction, and dismissing it frees it and keeps the invariant. |
| JobRest.UnstartedWaits | qemu-uintr/job.c:1079-1101 | Nothing that the event loop does to a job that was never started completes it: waiting for it never ends. |
| JobRest.RestFacts | qemu-uintr/job.c:767-923 | Between operations, for all jobs and transactions: once-only, all-or-nothing with its one exception, histories that are paths through the table and never leave the completed statuses, and the exact ledger. |
| Jobs.JobTable.Unref | qemu-uintr/job.c:382-402 | Gives back a reference; the assertions on the freed job hold. |
| Jobs.JobTable.FinalizeSingle | qemu-uintr/job.c:701-731 | Commits a job exactly if it is neither failed nor force-cancelled, else aborts it; once. |
| Jobs.JobTable.CancelOthers | qemu-uintr/job.c:794-806 | All other jobs of an aborting transaction are doomed afterwards. |
| Jobs.JobTable.FinishMembers | qemu-uintr/job.c:807-821 | Every member is brought to its end and finalized, whatever coroutine steps, exits, pauses and resumes of any jobs the event loop runs meanwhile, other aborts included. |
| Jobs.JobTable.TxnAbort | qemu-uintr/job.c:767-831 | A second abort does nothing; the first aborts every job of the transaction exactly once, except a starting job whose own result is good, which is committed; the other transactions are left as they were or have completed an abort of their own. |
| Jobs.JobTable.CoStep | qemu-uintr/job.c:497-526 | A job's coroutine pauses, resumes, becomes ready or returns. |
| Jobs.JobTable.Completed | qemu-uintr/job.c:912-923 | A failed or cancelled job takes its whole transaction down: all jobs aborted, none committed. A good one waits, or makes all pending, or has them finalized. Either way the job is completed or gone. |
| Jobs.JobTable.Exit | qemu-uintr/job.c:926-952 | The same for the exit bottom half, with the job kept alive by a reference meanwhile, which makes no difference to the outcome. |
| Jobs.JobTable.FinishSync | qemu-uintr/job.c:1079-1101 | A job being aborted is completed in the end, any number of coroutine steps, exits, pauses and resumes later; nested aborts end too. |
| Jobs.JobTable.AllCompleted | qemu-uintr/job.c:893-902 | True exactly when all members are completed; each of them then has result 0 and is not cancelled by force. |
| Jobs.JobTable.AllPending | qemu-uintr/job.c:871-878 | All members turn from WAITING to PENDING. |
| Jobs.JobTable.TxnSuccess | qemu-uintr/job.c:886-910 | If another job still runs only this one changes, to WAITING; else all turn PENDING, and are finalized, with the outcome of `DoFinalize`, exactly if none needs to be finalized by hand. |
| Jobs.JobTable.PrepareAll | qemu-uintr/job.c:151-177 | Asks each driver, in the order of the list, until one fails; the failing job is the first in the list that fails, and only it changes. |
| Jobs.JobTable.DoFinalize | qemu-uintr/job.c:848-860 | If no `.prepare` fails every job is committed exactly once and none aborted; else, with the first failing job of the list, every job is aborted exactly once, except that the finalizing job is committed when the failing one is another. |
| JobAbort.OneSidedIff | qemu-uintr/job.c:848-860 | All jobs of a finalized transaction end alike if and only if none fails to prepare, or the finalizing job is the first that does. |
| Jobs.JobTable.CreateJob | qemu-uintr/job.c:312-375 | A new job, paused once until started, joins a transaction that is new or being filled, in front of its list; its history begins with UNDEFINED and CREATED. |
| Jobs.JobTable.StartAll | qemu-uintr/job.c:971-981 | Starts all jobs of a transaction; the assertions of `job_start` hold. |
| Jobs.JobTable.ChangeLedger | qemu-uintr/job.c:566-620 | Pausing and resuming by the user and by drained sections, with the assertions of `job_resume` and `block_job_iostatus_reset`. |
| Jobs.JobTable.DismissJob | qemu-uintr/job.c:635-646 | Allowed exactly for concluded jobs; the job is gone. |
| Jobs.JobTable.CancelJob | qemu-uintr/job.c:983-1009 | A concluded job is dismissed, one that never started is aborted, one whose run is over takes its whole transaction down if cancelled by force, and any other one is told; nothing else happens. |
| Jobs.JobTable.UserCancelJob | qemu-uintr/job.c:1011-1017 | Allowed exactly for jobs that are not yet aborting or concluded, with the outcome of `CancelJob`. |
| Jobs.JobTable.ExitJob | qemu-uintr/job.c:926-952 | The exit between operations: a failed job has its whole transaction aborted; a good one waits, or makes all pending, or has them finalized. |
| Jobs.JobTable.FinalizeJob | qemu-uintr/job.c:862-869 | Allowed exactly for pending jobs, with the outcome of `DoFinalize`; all jobs end alike if and only if the first job of the list whose `.prepare` fails is none, or this one. |
| Jobs.JobTable.Handle | qemu-uintr/job.c:179-1101 | Any event at any time keeps the invariant, and histories only grow. |
| Jobs.JobTable.Run | qemu-uintr/job.c:179-1101 | Over every run of events: each job is committed or aborted at most once; all jobs of a transaction end alike but for the one exception; every status a job ever had was reached by a change in the table, a completed job stays completed, and a job is freed only after NULL; and every pause count is exact. |
| Jobs.SplitExample | qemu-uintr/job.c:848-869 | Two jobs that have run well and wait to be finalized by hand: finalizing one commits it although the `.prepare` of the other fails, which is aborted. |
| SparseScan.MaskIsRemainder | qemu-uintr/qemu-img.c:1184 | Masking with a power of two less one is the remainder. |
| SparseScan.IsAllocatedSectors | qemu-uintr/qemu-img.c:1157-1208 | For every buffer, sector number and power of two: 1 <= pnum <= n for n > 0, a zero verdict means pnum zero sectors, the end is aligned or pnum == n. The verdict is data if and only if the first sector is, or the leading zeros are swallowed by an unaligned piece; pnum is the first run, rounded up for data and down for zeros. |
| SparseScan.IsAllocatedSectorsMin | qemu-uintr/qemu-img.c:1215-1252 | The same bounds and the same verdict; a data verdict that stops short is followed by at least `min` zero sectors, or by zeros up to the end; the loop ends. |
| ConvertParts.SelectPart | qemu-uintr/qemu-img.c:1676-1686 | Finds the source a sector lies in and where that source starts; the assertion on the source number holds. |
| ConvertParts.CoRead | qemu-uintr/qemu-img.c:1794-1845 | Reads across sources exactly the slice of their concatenation. |
| ConvertParts.Iteration.Sectors | qemu-uintr/qemu-img.c:1688-1792 | A chunk is never empty and never past the end; a chunk called zero is all zeros, also from the cached status; a data chunk fits the buffer; compressed chunks are whole clusters but for the end. |
| ConvertParts.CutPiece | qemu-uintr/qemu-img.c:1866-1886 | A piece that is not written as data is all zeros; compressed chunks are not cut. |
| ConvertParts.Target.CoWrite | qemu-uintr/qemu-img.c:1848-1910 | On success the chunk reads as the buffer, though zeros may be skipped where the target was zero to begin with; nothing outside changes, and on failure each sector is old or new. |
| ConvertParts.Target.CoCopyRange | qemu-uintr/qemu-img.c:1912-1941 | The same for copying without reading. |
| ConvertProof.StepKeeps | qemu-uintr/qemu-img.c:1943-2060 | Every request of every coroutine, done or failed, in any order, keeps the invariant of `Convert.Inv`. |
| ConvertProof.ConvertedIsSource | qemu-uintr/qemu-img.c:1943-2119 | In every schedule, in order or not, with or without a copy_range fallback, that ends with `ret == 0`: the chunks partition the sectors and the target equals the concatenated sources. |
| ConvertProof.ChunksApart | qemu-uintr/qemu-img.c:1967-1987 | Two coroutines never have sectors in common. |
| ConvertProof.WritesAscend | qemu-uintr/qemu-img.c:2009-2050 | In order: while a chunk is written nobody else writes, and everything before it is written. |
| ConvertProof.NeverStranded | qemu-uintr/qemu-img.c:2009-2050 | A waiting coroutine always has one before it that waits for nobody, also after an error. |
| ConvertProof.CanGoOn | qemu-uintr/qemu-img.c:1943-2060 | As long as a coroutine has not ended, some coroutine can go on. |
| ConvertProof.StepDescends | qemu-uintr/qemu-img.c:1943-2060 | Every step lowers a natural-number measure of the work left, by claiming sectors or by bringing a coroutine nearer to its end. |
| ConvertProof.StuckIsOver | qemu-uintr/qemu-img.c:2052-2119 | A run that cannot go on has all coroutines ended, with success or an error recorded. |
| ConvertProof.EveryRunEnds | qemu-uintr/qemu-img.c:1943-2119 | No schedule has more steps than 16 for each sector and 3 for each coroutine, and one cannot go on exactly when all coroutines have ended. |
| Rebase.CompareBuffers | qemu-uintr/qemu-img.c:1261-1281 | The longest prefix in whole sectors whose sectors differ, or agree, as the first one does; agreement is equality of the bytes. |
| Rebase.CowImage.Write | qemu-uintr/qemu-img.c:3801-3821 | A write of a copy-on-write image, which may allocate more than asked for, filled from the backing file, and may fail anywhere. |
| Rebase.CopyDifferences | qemu-uintr/qemu-img.c:3798-3821 | No single write, failed or not, changes what a guest reads; afterwards no byte of the range needs the old backing file. |
| Rebase.RebaseStep | qemu-uintr/qemu-img.c:3730-3823 | One turn of the loop, for any sizes of both backing files and any allocation. |
| Rebase.SafeRebase | qemu-uintr/qemu-img.c:3676-3836 | However it ends, and after every single write on the way, the guest-visible contents are the same as before; on success the image is on the new backing file. |
| GdbPacket.HexRoundTrip | qemu-uintr/gdbstub.c:577-595 | `fromhex` undoes `tohex`. |
| GdbPacket.Memtox | qemu-uintr/gdbstub.c:708-724 | The loop computes the escaped form. |
| GdbPacket.PutPacketBinary | qemu-uintr/gdbstub.c:654-692 | The packet's digits are those of the byte sum modulo 256, although signed characters are summed. |
| GdbPacket.LineBounded | qemu-uintr/gdbstub.c:2983-3095 | For every byte stream at all, the line stays within 4095 bytes. |
| GdbPacket.LineReceived | qemu-uintr/gdbstub.c:2994-3059 | Any body of plain, escaped and run-length units that fits is decoded to its meaning. |
| GdbPacket.AcknowledgedIff | qemu-uintr/gdbstub.c:3060-3092 | For every such body and every two digits: acknowledged and handed over exactly when the digits spell the checksum, refused otherwise. |
| GdbPacket.PacketRoundTrip | qemu-uintr/gdbstub.c:654-724 | Every payload of at most 4095 bytes, escaped and framed, is acknowledged and handed over unchanged. |
| GdbPacket.TooLongIsDropped | qemu-uintr/gdbstub.c:3006-3022 | A longer one is dropped whole, without an answer. |
| GdbPacket.Unacknowledged | qemu-uintr/gdbstub.c:2957-2975 | While a reply is unacknowledged, it is sent again once for each '-', and nothing else happens before the next '+' or '$'. |
| GdbPacket.Server.ReadByte | qemu-uintr/gdbstub.c:2952-3097 | The state machine on the fixed buffer does what the specification says, the reply to stopping a running machine included; it never writes past the buffer, hands over lines with a NUL behind them, and leaves what lies further behind as it was. |
| GdbPacket.Server.Receive | qemu-uintr/gdbstub.c:3386-3393 | The same for every byte stream. |
| GdbPacket.Server.ReceivePayload | qemu-uintr/gdbstub.c:3386-3393 | For every payload that fits: it is handed over, and the buffer holds it, a NUL, and then exactly what earlier packets have left. |
| VCont.FirstIsLeftmost | qemu-uintr/gdbstub.c:1290-1332 | The action found for a CPU is that of the leftmost entry about it, and there is none exactly if no entry is. |
| VCont.OnlyAttached | qemu-uintr/gdbstub.c:786-872 | Only CPUs of attached processes are matched. |
| VCont.GoodIff | qemu-uintr/gdbstub.c:1251-1334 | CPUs are set going exactly when reading gets to a NUL and each entry read finds CPUs; those entries are carried out. |
| VCont.FaultIff | qemu-uintr/gdbstub.c:1301-1307 | For any packet, malformed or not: a null process is followed exactly when an entry read before the first error asks for all threads of an unknown process and all entries before it found CPUs. |
| VCont.FaultExample | qemu-uintr/gdbstub.c:1301-1307 | `;c:p7.-1`, in a machine without process 7, follows a null process. |
| VCont.TextDecides | qemu-uintr/gdbstub.c:1164-1208 | What a packet does is decided by its text alone, except that a text which ends with a bare process number, after entries that found CPUs, goes on with the bytes behind its NUL. |
| VCont.ResumesIff | qemu-uintr/gdbstub.c:1164-1334 | For every buffer: CPUs are set going if and only if all entries of the text find CPUs and the text is well-formed; or it ends with a bare process number, and the bytes behind hold a thread number that completes an entry which finds CPUs, followed by a good text. |
| VCont.StrayIsLast | qemu-uintr/gdbstub.c:1164-1208 | Only a text whose last part is `:p` and a number reads behind its end. |
| VCont.Strtoul16Sane | qemu-uintr/util/cutils.c:607-627 | A base-16 `strtoul`, with white space, signs, `0x`, wrapping and overflow, meets what is assumed of the parser. |
| VCont.StaleExample | qemu-uintr/gdbstub.c:1164-1208 | `;c:p1` is malformed, and sets a CPU going when the byte behind its NUL is a `1`. |
| VCont.ContinuePartial | qemu-uintr/gdbstub.c:502-553 | Exactly the CPUs with an action are set going, each with its own. |
| VCont.HandleVCont | qemu-uintr/gdbstub.c:1216-1342 | For any memory and any layout: if the packet is carried out every CPU gets the action of the leftmost entry about it and unmatched CPUs stay; in every other outcome (an error, a null process, the end of the buffer) no CPU is set going. |
| VCont.FaultRun | qemu-uintr/gdbstub.c:1301-1307 | The example of `FaultExample` through the handler. |
| VCont.StaleRun | qemu-uintr/gdbstub.c:1929-1943 | The packets `vCont;c:p1.1` and then `vCont;c:p1`, received by the server one after the other: the second one sets the CPU going. |
| QmpTransaction.Transaction | qemu-uintr/blockdev.c:2339-2387 | All prepares then all commits in order, or prepares up to the first failure and aborts from it down to 0; then clean for what was prepared; never commit and abort together. |
| QmpTransaction.FailureRestores | qemu-uintr/blockdev.c:2374-2380 | If the aborts undo their prepares, a failed transaction restores the initial state. |
| QmpTransaction.UndoesIff | qemu-uintr/blockdev.c:1974-2135 | Exactly when the abort of an add, clear, enable or disable action undoes its prepare. |
| QmpTransaction.FailedBitmapsIff | qemu-uintr/blockdev.c:1974-2135 | A failed list of bitmap actions leaves everything as it was if and only if the failing one is not an `enable` whose bitmap could not be looked up, or was enabled in the initial state. |
| QmpTransaction.EnableExample | qemu-uintr/blockdev.c:2061-2097 | A busy, enabled bitmap ends disabled. |

## Left out

- Weak memory: threads of the exclusive-section protocol are sequentially consistent; `queue_work_on_cpu` and `process_queued_cpu_work` are not part of it.
- Opening, creating and probing images, option dictionaries and file names in block.c; they would add plumbing and no properties of the graph.
- Drain counters, `inherits_from`, and freeing a node (with its children) when its count reaches 0: `BlockCommands` stops at exact counts.
- `bdrv_replace_child_bs`: it makes no cycle check of its own.
- BlockOps.AttachChildNoperm: takes as a parameter whether the two AioContexts could be reconciled; `AioContext` treats that walk by itself.
- BlockOps.RemoveChildTran: its clean callback is merged into abort and commit, so the order of clean among other entries is not modelled.
- AioContext.Contexts.TrySet: on components that already span several contexts it says nothing.
- The busy flag, timers, events, notifier callbacks, AioContext locks and job progress; re-entry of an operation from a driver's callback.
- The order of QLISTs, but for the list of a transaction's jobs where it matters, which is where their drivers are asked to prepare; elsewhere members are taken in any order.
- Jobs.JobTable.CancelJob: requires a job that was never started to be alone in its transaction; the source would wait for the others in vain (`JobRest.UnstartedWaits`).
- Jobs.JobTable.UserCancelJob: the same.
- Jobs.JobTable.FinishSync: a cancelled driver's run returns after some number of events; how it notices is not modelled. Cancelling, finalizing, dismissing and creating do not come in while it waits.
- Jobs.JobTable.StartAll: jobs of one transaction are started together, before the event loop runs an exit, as the `transaction` command does.
- Jobs.JobTable.CreateJob: identifies jobs by object, not by ID string; `job_early_fail` is left out.
- `qemu-img convert` with `--salvage`, with a backing file for the target, bitmaps, rate limits and progress.
- Convert: sector contents are numbers, and a request's sectors change at one moment.
- `qemu-img rebase -u`, which promises nothing about contents, and error messages.
- The user-mode variants, semihosting, XML, registers and breakpoints of gdbstub.c; the other packets are one arbitrary handler.
- GdbPacket.Server.ReadByte: `line_sum` does not wrap at 32 bits; the low byte that is compared would be the same.
- VCont.HandleVCont: `qemu_strtoul` is an arbitrary parser with its documented bounds, of which `Strtoul16` is one; signals are not translated; what lies behind the last byte of `line_buf` is not modelled, and going there is an outcome of its own.
- QmpTransaction: bitmap merge and remove, snapshot, backup and job actions; node locks and drain.
