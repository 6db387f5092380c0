# Verified models of the block graph, the exclusive sections, the jobs and the input transport

This project models five parts of the system and proves what they are meant to guarantee.

**The block graph of QEMU** (`Options`, `Numbers`, `Seqs`, `Perms`, `BlockGraph`, `Reach`, `Topo`, `Refresh`,
`PermInvariant`, `Tran`, `Surgery`, `BlockLayer`, `BlockRun`, `Aio`). Block nodes and their parent
links form a graph that changes in place: class `BlockLayer.Layer` has the links, the parent and
children lists, the reference counts, the scheduled unrefs and the open transaction log as fields,
and its methods are the functions of `block.c` that change them. What holds between operations is
`Layer.Inv`: every link stands in exactly the lists its ends call for, every reference is accounted
for (links, records of the open transaction, scheduled unrefs, outside holders), the graph is
acyclic, and no parent of any node takes a permission another parent does not share, nor writes to
a read-only node. Beside it, `LinksCover` says that every link takes at least, and shares at most,
what its owner's own cumulative permissions call for. Each operation states its result without
naming its steps: there is a graph `h` with exactly the links moved, attached or taken away, and the
new graph is `h` refreshed (`Refreshed`: links that drivers of the refreshed nodes set carry exactly
what their owner needs under the final grants, everything else is untouched; by `RefreshedUnique` that
determines the graph); a refusal leaves every link as it was, and comes either from a named obstacle or
from the refresh of `h` (`Verdict`, whose meaning is `VerdictMeans`). `BlockRun.Run` is the theorem about
whole runs. `Aio.Switch` moves a connected part of the graph to another AioContext.

**Exclusive sections and CPU work** (`Exclusive`, `WorkQueue`). `start_exclusive`, `end_exclusive`,
`cpu_exec_start` and `cpu_exec_end` as interleaved atomic steps of any number of CPU threads, with a
program counter per thread, the lock, the scan over the CPU list, sleeping and waking; CPUs may come
and go. `WorkQueue` runs the per-CPU work queue on top of that machine, with the big lock and the
condition variable on which requesters wait.

**Jobs and job transactions** (`Jobs`, `JobManager`, `JobOps`, `JobCancel`, `JobPause`, `JobRun`).
Class `JobManager.Manager` holds all jobs and transactions; its methods, and those of the other job
modules, are the functions of `job.c` and `blockjob.c` that run with the job lock held. Wherever the
program drops the lock the model lets other threads act: the field `script` says what a callback
answers and what the world looks like afterwards. A window around a callback that may run the main
loop may change anything that keeps the invariant `Ok` and leaves transactions being finalised alone
(`PollWorld`); around other callbacks only coroutines move (`CoWorld`). The assertions of the program
(lines 215, 468, 470, 706, 850, 908, 961, 1052 and 1066 of `job.c`) appear as preconditions or `assert`
statements that are discharged. Four fields of a job are not in the program and only keep account:
`drains` counts drained sections, `inFlight` error actions that have paused the job and not yet made it
the user's pause, `leaks` pauses that nobody will take back, and `late` says that a user pause was once
taken back while the job was not silent. A job is parked if its coroutine is asleep at a pause point, not
started or ended, and no error action is under way. It is silent if it is parked and copies no guest
writes: a mirror job in write-blocking mode has them copied by the writers themselves, from the moment
its filter knows the job (`attached`) until its coroutine ends, and a failure there is reported on the
job's behalf whether the job is paused or not.

**The input transport** (`InputRing`, `Motion`, `MotionGate`). The single-producer single-consumer ring
and the seqlock for coalesced motion, word by word, with 32-bit wrap-around written out; `MotionGate`
adds the second writer, which seeds the slot when an input mask is applied.

**Frame statistics** (`FrameStats`). The growing buffer, its in-place sort, the summing loops and the
interval bookkeeping, over arrays.

Some expectations turn out not to hold of the code as it stands. The code is modelled as it is, and
the exact condition is proved:

- Replacing a node opened with force_share by one that is not can leave a moved link sharing more
  than its owner may share. Covering survives a replacement or an append if and only if
  `AllSharingFits` (`Layer.ReplaceNode`, `Layer.Append`); `BlockRun.ForcedSharingOutlivesItsNode` is a
  concrete graph before and after.
- A refresh after a link went away never fails on a conflict or a read-only node, but the size and
  driver checks can refuse it: `PermInvariant.LooseningSucceedsIff`, with
  `BlockRun.LooseningCanBeRefused` as an instance.
- `block_job_error_action` may drop the lock between pausing a job and making the pause its user's. It
  does so if and only if the job is neither paused nor paused by its user and its coroutine sleeps
  (`JobPause.ErrorAction`); the count is then one too high for whoever comes in between, and a pause
  leaks if and only if a user pause was made there. Over every run the count is exact if and only if
  nothing is in flight and nothing leaked (`JobRun.QuietGives`); `JobPause.ErrorActionLeak` is a leak.
- A user resume, and a cancel, take a user pause back after dropping the lock. The I/O status stays in
  order whatever others do meanwhile if and only if the job is parked and copies no guest writes, or there
  is nothing to go wrong: `JobPause.ResumeIoExact` and `JobPause.CancelIoExact`, with
  `JobPause.LateErrorBreaksReset` for the other side. Being parked is not enough:
  `JobRun.ResumeOfPausedMirror` takes a write-blocking mirror job from its creation to its pause point, and
  a failed guest write does the rest. On every run the assertion in `block_job_iostatus_reset_locked` fires
  at the first reset that finds an error on record without a user pause, and at no other, and the job was
  then once resumed or cancelled while not silent (`JobRun.Run`).
- A node may set a grant on its own child that is less than it needs. Covering survives
  `bdrv_child_try_set_perm` if and only if it is refused or asks for enough (`Layer.ChildTrySetPerm`); it
  survives every run in which all calls are `Modest` (`BlockRun.Run`).
- The motion slot has two writers: the thread that publishes events and whoever applies an input mask,
  which does not shut the gate before it seeds the slot. If every seeding begins with the gate shut and no
  producer past it, the run is one of a single writer and all that is proved of those holds
  (`MotionGate.CalmIsSerial`, `MotionGate.CalmReadIsWhole`); `MotionGate.TornBySeeding` is a run with one
  seeding through an open gate, in which a value is accepted that nobody wrote.
- A consumed serial equal to `motion_serial` means that the application has caught up if and only if
  fewer than 2^32 events came since the last delivery: `Motion.NothingLeftToDeliver`;
  `Motion.SerialAlias` is a run to the other side of the bound, and `Motion.TornRead` one to the other
  side of the bound of 2^31 updates per attempt.

The transition table forbids nothing that happens on any run with the drivers there are: backup turns
every cancel into a forced one, mirror and active commit do so unless the job is ready, and the others
have no cancel callback. The exact condition for a driver of any kind is `JobCancel.Forbidden`, used in
`JobCancel.Cancel` and `JobRun.Step`; `JobRun.SoftCancelOfNewJob` shows that a driver of another kind
could meet it.

Assumptions: memory is sequentially consistent; a driver asked to cancel by force answers that it
did; callbacks of a transaction being finalised do not finalise, cancel or extend that transaction; a
coroutine asleep at a pause point is woken by the job core alone; the copy mode is written only under the
big lock; input masks are applied one at a time; (except in `Motion.TornRead` and `Motion.ReaderFinishes`)
fewer than 2^31 updates fall into one attempt to read the motion; links frozen by a driver are unfrozen
when that driver closes.

## Model

| member | source | states |
|---|---|---|
| `Perms.CowMonotone` | qemu/block.c:2771-2805 | the copy-on-write rule gives no more for less: loosening what is in force on a node never tightens what it takes on its backing child |
| `Perms.StorageMonotone` | qemu/block.c:2807-2885 | the same of the rule for data and metadata children |
| `Perms.ChildPermsMonotone` | qemu/block.c:2270-2286 | the default rule, with forced sharing, is monotone for every valid role |
| `BlockGraph.Detach` | qemu/block.c:2933-2994 | taking a link out of both lists keeps the lists exact and changes only the link's target |
| `BlockGraph.Attach` | qemu/block.c:2933-2994 | entering a link into both lists keeps the lists exact and changes only the link's target |
| `Reach.RecurseHasChild` | qemu/block.c:4327-4343 | the recursive test answers true if and only if a path leads from the node to the child, and terminates on every acyclic graph |
| `Reach.ShouldUpdateChild` | qemu/block.c:5228-5305 | the breadth-first search lets a link move if and only if it is not pinned and its owner does not lie below the new target |
| `Reach.AcyclicWithNewLink` | qemu/block.c:3205-3209 | a link p to c closes no cycle when c does not reach p |
| `Reach.CyclicWithBadLink` | qemu/block.c:3205-3209 | and closes one when c does reach p, so the test refuses nothing harmless |
| `Reach.RankFalls` | qemu/block.c:4327-4343 | along every link of an acyclic graph the reachable set shrinks strictly, the measure of every recursion downwards |
| `Topo.TopologicalDfs` | qemu/block.c:2288-2322 | from a sorted, duplicate-free, child-closed list matching `found`, adds exactly the nodes reachable from the start; the result is again such a list with every parent before its children, and extends the old one |
| `Refresh.TotalIsUpperBound` | qemu/block.c:2633-2649 | what is in force on a node covers every single parent's demands |
| `Refresh.TotalIsLeast` | qemu/block.c:2633-2649 | and is the least such grant |
| `Refresh.TotalMonotone` | qemu/block.c:2633-2649 | fewer or looser parents put less in force |
| `Refresh.GetCumulativePerm` | qemu/block.c:2633-2649 | the loop computes that least upper bound |
| `Refresh.ParentPermsConflict` | qemu/block.c:2244-2268 | the pairwise loop reports a conflict if and only if some parent takes what another does not share |
| `Refresh.PushedExact` | qemu/block.c:2587-2609 | after pushing permissions down a topological list, every link out of a listed node equals what its owner needs under the final cumulative permissions, and links out of unlisted nodes are untouched |
| `Refresh.PushedChecked` | qemu/block.c:2508-2609 | if no test failed on the way, every listed node passes all tests under the final grants |
| `Refresh.FailureShows` | qemu/block.c:2508-2609 | if one failed, some listed node fails a test under the final grants: testing early is no stricter |
| `Refresh.PushedKeeps` | qemu/block.c:2508-2578 | a push touches no link out of a listed node without a driver, and no detached link |
| `Refresh.PushedRefreshed` | qemu/block.c:2587-2609 | a push is a refresh in the sense that mentions no order |
| `Refresh.RefreshedUnique` | qemu/block.c:2619-2631 | a refresh of an acyclic graph has one outcome, so the order chosen does not matter |
| `Refresh.RefreshErrors` | qemu/block.c:2508-2609 | a refresh fails only for conflict, read-only, size or driver reasons |
| `PermInvariant.PushKeepsNodesOk` | qemu/block.c:2619-2631 | surgery followed by a successful refresh of a list outside which no node gained a parent leaves the whole graph free of conflicts |
| `PermInvariant.PushedCovers` | qemu/block.c:2587-2609 | after a push the whole graph covers if and only if the links out of unlisted nodes do |
| `PermInvariant.PushKeepsLinksCover` | qemu/block.c:2619-2631 | covering survives surgery that keeps or drops the links outside the list |
| `PermInvariant.LooseningNeverConflicts` | qemu/block.c:3321-3327 | a refresh of a graph that only lost links or had them loosened cannot fail on a conflict or the read-only check, and loosens further |
| `PermInvariant.LooseningSucceedsIff` | qemu/block.c:2520-2548 | such a refresh succeeds if and only if neither the size check nor a driver objects to the final grants |
| `PermInvariant.SameLinksSameInvariants` | qemu/block.c:2431-2457 | the order of parent and children lists, which a rollback may change, matters to no invariant |
| `Tran.RollKeepsEnough` | qemu/block.c:2431-2457 | at every point of a transaction, links to a node plus references held by the log are at least the links the rollback would restore, so undoing never drops a last reference |
| `Tran.BookSetPerm` | qemu/block.c:2345-2361 | a logged permission change keeps the log a way back and the counts balanced |
| `Tran.BookReplace` | qemu/block.c:2466-2499 | so does redirecting a link: the new node gains a reference, the old one's passes to the record |
| `Tran.BookAttach` | qemu/block.c:3147-3174 | so does attaching a new link |
| `Tran.BookRemove` | qemu/block.c:5325-5337 | so does removing one |
| `Tran.RefsUndoReplace` | qemu/block.c:2431-2457 | undoing a redirection gives the new node's reference back and returns the old one to the link |
| `Tran.RefsUndoAttach` | qemu/block.c:3020-3055 | undoing an attach hands the link's reference to a scheduled unref |
| `Tran.RefsCommitReplace` | qemu/block.c:2423-2429 | committing a redirection hands the old node's reference on for release |
| `Surgery.AttachedAcyclic` | qemu/block.c:3191-3223 | a new link keeps the graph acyclic if and only if the child does not reach the parent |
| `Surgery.AttachRefreshed` | qemu/block.c:3275-3306 | attach plus successful refresh leaves every node free of conflicts and keeps covering |
| `Surgery.MovedReach` | qemu/block.c:5346-5378 | while links are being moved, the test rerun on the changing graph answers as on the original one |
| `Surgery.MoveOneAcyclic` | qemu/block.c:5346-5378 | moving one link that passes the test keeps the graph acyclic |
| `Surgery.MoveRefreshed` | qemu/block.c:5394-5448 | after moving and refreshing, no node is in conflict, and covering survives if and only if the sharing of every moved link fits its new node |
| `Surgery.SharingFitsUnlessForced` | qemu/block.c:2270-2286 | it fits unless a forced-shared node gives way to one that is not |
| `Surgery.RegrantedCovers` | qemu/block.c:2707-2739 | a user that changes its own grant, or a node that takes what it needs, keeps covering |
| `Surgery.RegrantedLink` | qemu/block.c:2707-2739 | the link itself covers after the refresh if and only if the grant asked for is at least what its owner needs |
| `Surgery.AppendedMoveOnly` | qemu/block.c:5488-5524 | an append is, for the refresh, a move of links to the new node |
| `Surgery.ExchangedCovers` | qemu/block.c:3481-3565 | exchanging a backing link and refreshing keeps covering |
| `BlockLayer.Layer.constructor` | qemu/block.c:411-440 | a layer without nodes satisfies the invariant |
| `BlockLayer.Layer.ChildSetPerm` | qemu/block.c:2345-2361 | sets the grant of one link and logs the old one |
| `BlockLayer.Layer.ReplaceChildNoPerm` | qemu/block.c:2933-2994 | changes one link's target and both ends' lists accordingly; the assertion that the link is not frozen holds wherever it is called, rollback included |
| `BlockLayer.Layer.ReplaceChildTran` | qemu/block.c:2466-2499 | redirects a link inside a transaction, with the reference to the old node held by the record |
| `BlockLayer.Layer.AttachChildCommon` | qemu/block.c:3079-3177 | refuses exactly if an inactive child would be written to or the AioContexts cannot be brought together; otherwise a new link is in place, counted and logged |
| `BlockLayer.Layer.RemoveChild` | qemu/block.c:5325-5337 | detaches a link and logs that it is to be freed |
| `BlockLayer.Layer.TranAbort` | qemu/util/transactions.c:60-79 | afterwards every link is as before the transaction, the counts balance and every node is alive |
| `BlockLayer.Layer.UndoNewest` | qemu/util/transactions.c:60-79 | undoes one record and keeps everything a transaction keeps |
| `BlockLayer.Layer.UndoSetPerm` | qemu/block.c:2330-2338 | restores the old grant |
| `BlockLayer.Layer.UndoReplace` | qemu/block.c:2431-2457 | restores the old target; the reference dropped is not the last |
| `BlockLayer.Layer.UndoAttach` | qemu/block.c:3020-3055 | takes the link away again and schedules the release of the node it pointed at |
| `BlockLayer.Layer.TranCommit` | qemu/util/transactions.c:81-100 | frees exactly the links removed in the transaction and keeps all others |
| `BlockLayer.Layer.CommitNewest` | qemu/util/transactions.c:81-100 | commits one record and keeps the goal |
| `BlockLayer.Layer.FreeLink` | qemu/block.c:3002-3012 | frees a detached link |
| `BlockLayer.Layer.NodeRefreshPerm` | qemu/block.c:2508-2578 | fails exactly as the tests on what is in force on the node say, otherwise sets every child link to what the node needs |
| `BlockLayer.Layer.DoRefreshPerms` | qemu/block.c:2587-2609 | fails with the first refusal on the list, otherwise the permissions are pushed down it |
| `BlockLayer.Layer.RefreshPerms` | qemu/block.c:2686-2705 | does that for a topological list of exactly the nodes below a node |
| `BlockLayer.Layer.ListRefreshPerms` | qemu/block.c:2619-2631 | and for one list built by two searches |
| `BlockLayer.Layer.VerdictMeans` | qemu/block.c:2508-2631 | whatever topological order was used, the refresh refuses if and only if some node fails its tests under the final grants |
| `BlockLayer.Layer.VerdictsAgree` | qemu/block.c:2619-2631 | no order makes a refresh succeed that another makes fail |
| `BlockLayer.Layer.AttachChildNoPerm` | qemu/block.c:3191-3223 | refuses exactly for a cycle, an inactive child or AioContexts that clash, and then changes nothing; otherwise the new link carries what the parent needs, and the graph stays acyclic |
| `BlockLayer.Layer.Settle` | qemu/block.c:2686-2705 | a transaction ends in commit or rollback by the result of the refresh, with the invariant restored either way |
| `BlockLayer.Layer.AttachChild` | qemu/block.c:3275-3306 | all or nothing: the link attached and the parent's subtree refreshed, or every link as before for the reason reported; invariant and covering hold either way and the caller's reference is released |
| `BlockLayer.Layer.CycleExact` | qemu/block.c:3205-3209 | a refused attach reports a cycle if and only if there would be one |
| `BlockLayer.Layer.RootAttachChild` | qemu/block.c:3234-3263 | the same for a BlockBackend or a job as parent |
| `BlockLayer.Layer.RootUnrefChild` | qemu/block.c:3313-3338 | the link goes whatever the refresh says; if the graph covered, the refresh can fail only on size or driver checks; no count changes before the scheduled unref |
| `BlockLayer.Layer.ChildTrySetPerm` | qemu/block.c:2707-2739 | the new grant and a refreshed node, or every link as before, as the refresh decides; a refusal is reported unless the caller only loosened; covering survives if and only if the refresh refused or the owner, if it is a node, asked for at least what it needs |
| `BlockLayer.Layer.ChildRefreshPerms` | qemu/block.c:2741-2753 | the link takes what its owner needs, or everything is as before and that is reported unless it would have loosened |
| `BlockLayer.Layer.ReplaceNodeNoPerm` | qemu/block.c:5346-5378 | succeeds if and only if no parent link stands in the way, and has then moved exactly the links movable on the original graph; acyclic at every point |
| `BlockLayer.Layer.MoveParent` | qemu/block.c:5346-5378 | one round of that loop |
| `BlockLayer.Layer.ReplaceNode` | qemu/block.c:5394-5448 | all or nothing for a node replacement; what is reported when a parent link stands in the way and when the refresh objects; the exact condition for covering |
| `BlockLayer.Layer.Append` | qemu/block.c:5488-5524 | all or nothing for inserting a node above another, with the reason of every refusal and the exact condition for covering |
| `BlockLayer.Layer.SetBacking` | qemu/block.c:3573-3594 | all or nothing for exchanging the backing link, with the reason of every refusal |
| `BlockLayer.Layer.BackingOf` | qemu/block.c:1440-1480 | finds a backing link if and only if there is one |
| `BlockLayer.Layer.ReleaseRef` | qemu/block.c:7206-7212 | a reference becomes a scheduled unref |
| `BlockLayer.Layer.TakeScheduled` | qemu/block.c:7191-7196 | the oldest scheduled unref is taken up |
| `BlockLayer.Layer.DropRef` | qemu/block.c:7179-7189 | a reference that is not the last goes |
| `BlockLayer.Layer.LastHolder` | qemu/block.c:5559-5576 | whoever drops the last reference is the only holder: no link and no scheduled unref names the node |
| `BlockLayer.Layer.DeleteNode` | qemu/block.c:5559-5576 | a node without links goes and the invariant stays |
| `BlockLayer.Layer.NewNode` | qemu/block.c:411-440 | a node comes with one reference, held by its creator |
| `BlockLayer.Layer.TakeRef` | qemu/block.c:7170-7174 | one more reference from outside |
| `BlockLayer.Layer.SetFrozen` | qemu/block.c:5793-5844 | freezing and unfreezing a link changes nothing else |
| `BlockRun.CloseChildren` | qemu/block.c:5148-5211 | a node being closed gives up every child link, whatever the refreshes say |
| `BlockRun.DoUnref` | qemu/block.c:7179-7189 | the node is deleted if and only if the reference was the last, and then nothing names it any more |
| `BlockRun.Step` | qemu/block.c:3234-3338 | every operation of a run, succeeding or failing, keeps the run invariant |
| `BlockRun.Run` | qemu/block.c:5346-5524 | over every run of attach, root-attach, unref-child, try-set-perm, replace, append, set-backing, ref and unref, with any driver answers: lists exact, references balanced, acyclic, free of conflicts; and every link covers if no node is opened with force_share and none asks for less than it needs on its own child |
| `BlockRun.ForcedSharingOutlivesItsNode` | qemu/block.c:2280-2286 | a concrete graph with a read-only forced-shared node that covers, and the graph after that node is replaced, which does not |
| `BlockRun.LooseningCanBeRefused` | qemu/block.c:2540-2548 | a concrete graph on which the refresh after an unref is refused for its size |
| `Aio.ConnectedSameContext` | qemu/block.c:7719-7756 | where neighbours share a context, connected vertices do |
| `Aio.TrackedAll` | qemu/block.c:7670-7706 | when the recursion is over, the vertices recorded are exactly those connected to the start |
| `Aio.SwitchedUniform` | qemu/block.c:7644-7652 | switching exactly the connected vertices keeps neighbours together |
| `Aio.Switch.ParentChange` | qemu/block.c:7586-7612 | goes on through a parent link not visited before, or finds a BlockBackend that refuses |
| `Aio.Switch.ChildChange` | qemu/block.c:7625-7635 | the same through a child link |
| `Aio.Switch.ChildJobChange` | qemu/blockjob.c:147-171 | visits every link of a block job and records the job |
| `Aio.Switch.ChangeAioContext` | qemu/block.c:7670-7706 | records the node after all its links; terminates because each nested call marks a fresh link |
| `Aio.Switch.Commit` | qemu/block.c:7644-7652 | gives the new context to exactly the vertices recorded |
| `Aio.Switch.TryChange` | qemu/block.c:7719-7756 | succeeds if and only if the node has the context already or nobody connected refuses; then exactly the connected component has moved, otherwise nothing has |
| `Exclusive.NextKeeps` | qemu/cpu-common.c:192-322 | every atomic step of every thread, and every CPU that joins or leaves, keeps the inductive invariant |
| `Exclusive.RunKeeps` | qemu/cpu-common.c:192-322 | so every state of every run satisfies it |
| `Exclusive.ExclusiveIsAlone` | qemu/cpu-common.c:192-322 | while one thread is inside an exclusive section, no CPU has returned from cpu_exec_start without starting cpu_exec_end, and nobody else is inside one |
| `Exclusive.PendingCounts` | qemu/cpu-common.c:205-225 | once a scan is published, pending_cpus is 1 plus the CPUs marked, up to a CPU just about to subtract itself; without a section it is 0 and no CPU is marked |
| `Exclusive.WaitingFalls` | qemu/cpu-common.c:312-321 | while a starter waits, no CPU is marked anew, and the count drops by one with each counted cpu_exec_end and never rises |
| `Exclusive.NoDeadlock` | qemu/cpu-common.c:183-247 | as long as somebody is in the middle of a call, some thread can go on without being woken, or is in guest code it was asked to leave: no wake-up is lost |
| `Exclusive.StarterNotRunning` | qemu/cpu-common.c:192-197 | a caller outside the four functions is neither running nor marked |
| `Exclusive.AnnounceKeeps` | qemu/cpu-common.c:192-215 | announcing a section keeps the invariant |
| `Exclusive.ScanKeeps` | qemu/cpu-common.c:209-216 | passing a CPU that does not run keeps it |
| `Exclusive.MarkKeeps` | qemu/cpu-common.c:209-216 | marking a running CPU keeps it |
| `Exclusive.ListKeeps` | qemu/cpu-common.c:81-108 | adding and removing CPUs keeps it |
| `WorkQueue.TraceGood` | qemu/cpu-common.c:133-386 | every state of every run of queue, requesters and exclusive protocol satisfies the invariant |
| `WorkQueue.FifoAndOnce` | qemu/cpu-common.c:349-386 | items are taken in the order they were queued and each is run at most once, also when items arrive while the lock is dropped |
| `WorkQueue.SyncReturnsAfterRun` | qemu/cpu-common.c:144-167 | a synchronous request returns only after its function ran, and then no queue or worker refers to its item |
| `WorkQueue.NoWakeUpLost` | qemu/cpu-common.c:161-166 | whoever sleeps in a synchronous request waits for an item that is queued or in its worker's hands, or is done, and then that worker has not left without its broadcast, which reaches every sleeper |
| `WorkQueue.ProcessSleep` | qemu/cpu-common.c:349-386 | because an item is marked done under the lock that its requester holds from the test to the wait |
| `WorkQueue.RequestKeeps` | qemu/cpu-common.c:144-167 | every step of a requester keeps the invariant, spurious wake-ups included |
| `WorkQueue.ExclusiveItemsRunAlone` | qemu/cpu-common.c:349-386 | an item marked exclusive runs only inside an exclusive section, with no CPU in guest code |
| `WorkQueue.EnqueueKeeps` | qemu/cpu-common.c:133-142 | queueing keeps the invariant |
| `WorkQueue.ProcessKeeps` | qemu/cpu-common.c:349-386 | so does every step of the worker |
| `Jobs.CoKeepsLinked` | qemu/job.c:609-642 | whatever coroutines do in a window keeps the invariant and disturbs nobody |
| `Jobs.RetiredOk` | qemu/job.c:846-883 | a job that leaves its transaction leaves the others in order |
| `Jobs.Bracket` | qemu/job.c:1081-1096 | work done under an extra reference leaves every other holder's references alone |
| `JobManager.Manager.Transition` | qemu/job.c:208-221 | only transitions the table allows are made |
| `JobManager.Manager.UpdateRc` | qemu/job.c:804-815 | a failed or force-cancelled job gets a non-zero result and is aborting; others are unchanged |
| `JobManager.Manager.Unref` | qemu/job.c:463-485 | one reference less; a job that goes is dismissed and in no transaction |
| `JobManager.Manager.TxnDel` | qemu/job.c:167-174 | the job leaves its transaction's list and the transaction loses a reference |
| `JobManager.Manager.TxnUnref` | qemu/job.c:128-133 | the last reference takes the transaction along |
| `JobManager.Manager.DoDismiss` | qemu/job.c:761-772 | the job leaves its transaction and gives up its lasting reference |
| `JobManager.Manager.Conclude` | qemu/job.c:795-801 | a job is dismissed at once if and only if it dismisses itself or was never started |
| `JobManager.Manager.FinalizeSingle` | qemu/job.c:846-883 | exactly this job leaves the transaction, once, committed if its result is 0 and it is not force-cancelled, aborted otherwise |
| `JobManager.Manager.AskDriver` | qemu/block/mirror.c:1328-1353 | whether a cancel takes effect by force, by the driver's rule and the status it sees; only coroutines move meanwhile |
| `JobManager.Manager.CancelAsync` | qemu/job.c:888-924 | the flags are set as the driver's answer calls for, a user pause is taken back, everybody else is only moved by their own coroutine; the assertion on the pause count holds |
| `JobManager.Manager.CancelOthers` | qemu/job.c:948-957 | everybody but the trigger is cancelled by force |
| `JobManager.Manager.FinishSync` | qemu/job.c:1242-1270 | when the wait ends the job is completed and still there |
| `JobManager.Manager.FinishAll` | qemu/job.c:958-965 | every job of the aborting transaction is waited for and finalised exactly once; the assertion that it was asked to cancel holds |
| `JobManager.Manager.TxnAbort` | qemu/job.c:929-969 | in a transaction already aborting, nothing; otherwise every job is finalised once: all but the trigger through job_abort, and the trigger too unless its own result is 0 and it is not force-cancelled |
| `JobOps.Prepare` | qemu/job.c:972-987 | the result is the callback's answer, or 0 without one; a failure is recorded in the job |
| `JobOps.PrepareAll` | qemu/job.c:177-200 | jobs are asked in order up to the first non-zero answer, which is the result |
| `JobOps.ApplyCommit` | qemu/job.c:177-200 | every job of a prepared transaction is finalised as committed |
| `JobOps.DoFinalize` | qemu/job.c:996-1008 | all jobs commit if and only if every prepare answered 0; otherwise every job is aborted but for a trigger other than the one that failed |
| `JobOps.FailedEntry` | qemu/job.c:996-1008 | after a failed preparation, the trigger would commit if and only if it is not the job that failed |
| `JobOps.TxnSuccess` | qemu/job.c:1037-1061 | waits unless it is the last to complete; then all become pending, and are finalised at once if and only if no job needs a request for it |
| `JobOps.MakePending` | qemu/job.c:1020-1027 | all jobs of the list, and no others, become pending |
| `JobOps.NeedNoFinalize` | qemu/job.c:990-993 | true if and only if every job of the list finalises itself |
| `JobOps.CompletedRet` | qemu/job.c:1047-1053 | a completed job of a transaction nobody aborts has result 0, so the assertion in the loop holds |
| `JobOps.CompletedLocked` | qemu/job.c:1064-1075 | a failed job aborts the whole transaction, or only records it if that is under way; a successful one reports success; either way it is completed |
| `JobOps.JobExit` | qemu/job.c:1081-1096 | the coroutine's end reaches the main loop: the job is completed, and if it failed every job of its transaction ends aborted |
| `JobCancel.EnterCond` | qemu/job.c:538-561 | the coroutine is woken, and the lock dropped, if and only if it exists, is asleep, not finished, and the condition holds |
| `JobCancel.Cancel` | qemu/job.c:1137-1163 | what a cancel brings about in every state, and exactly when it asks for a transition the table forbids |
| `JobCancel.UserCancel` | qemu/job.c:1165-1171 | refused by the verb table or carried out; a cancel that takes effect by force, of a job not started, waiting or pending, aborts its whole transaction |
| `JobCancel.Finalize` | qemu/job.c:1010-1017 | refused unless pending; otherwise the transaction is finalised |
| `JobCancel.Dismiss` | qemu/job.c:774-785 | refused unless concluded; otherwise the job is dismissed |
| `JobPause.Create` | qemu/job.c:391-456 | a new job, paused once, in its transaction, with one reference |
| `JobPause.NewTxn` | qemu/job.c:114-120 | an empty transaction with one reference |
| `JobPause.Start` | qemu/job.c:1121-1135 | the initial pause is taken back and the job runs |
| `JobPause.DrainBegin` | qemu/blockjob.c:93-97 | one more pause, and a coroutine that is not paused is woken to notice |
| `JobPause.DrainEnd` | qemu/blockjob.c:123-127 | one pause less; the count was positive; the last one wakes the coroutine |
| `JobPause.UserPause` | qemu/job.c:722-733 | refused if not allowed or already paused; otherwise one pause, held by the user |
| `JobPause.UserResume` | qemu/job.c:740-758 | refused if not paused by the user or not allowed; otherwise exactly that pause is taken back |
| `JobPause.Change` | qemu/blockjob.c:315-333 | refused, unsupported or not implemented exactly as the verb table, the driver and the present mode call for; otherwise the copy mode becomes write-blocking if that was asked for, and never goes back |
| `JobPause.Attach` | qemu/block/mirror.c:1120-1124 | from here on a write-blocking mirror job's guest writes are copied |
| `JobPause.PausePoint` | qemu/job.c:609-624 | a pause is prepared if and only if one is asked for and the job is not force-cancelled |
| `JobPause.PausePointYield` | qemu/job.c:626-632 | and made if it is still asked for, with the status saved |
| `JobPause.PausePointWake` | qemu/job.c:629-634 | the saved status is restored |
| `JobPause.PausePointDone` | qemu/job.c:636-642 | and the driver's code goes on |
| `JobPause.Sleep` | qemu/job.c:578-606 | the coroutine sleeps in the driver's code until it is woken |
| `JobPause.TransitionToReady` | qemu/job.c:1029-1034 | a running job becomes ready |
| `JobPause.RunEnds` | qemu/job.c:1102-1119 | the result is recorded and the job handed to the main loop; no guest write is copied any more |
| `JobPause.ErrorAction` | qemu/blockjob.c:578-622 | from any coroutine of a job not parked, or from a guest write that a parked one copies: the lock is dropped in the middle, with the count one too high, if and only if the job is not paused and its coroutine sleeps; afterwards the pause is the user's, and one has leaked if and only if another was made in between |
| `JobPause.ErrorActionLeak` | qemu/blockjob.c:578-622 | a user pause in that window and a later resume leave a pause that nobody will take back |
| `JobPause.IoStatusReset` | qemu/blockjob.c:555-563 | the assertion fires if and only if an error is on record without a user pause |
| `JobPause.ResumeIoExact` | qemu/job.c:740-758 | taking a user pause back leaves the I/O status in order under every interference if and only if the job is parked and copies no guest writes, or has no I/O status |
| `JobPause.CancelIoExact` | qemu/job.c:888-924 | the same of a cancel, which may find a user pause made while the driver was asked |
| `JobPause.LateErrorBreaksReset` | qemu/monitor/qmp-cmds.c:93-98 | of a job not parked, or parked and copying guest writes, an error between the reset and the end of a resume makes the next reset fire |
| `JobPause.EarlyFail` | qemu/job.c:787-792 | a job never started goes without a trace among the outcomes |
| `JobRun.Step` | qemu/job.c:1137-1163 | every operation keeps the invariant, and exactly when an assertion fires |
| `JobRun.SoftCancelOfNewJob` | qemu/job.c:1143-1146 | with a driver of another kind than those there are, a soft cancel of a new job asks for a forbidden transition |
| `JobRun.ResumeOfPausedMirror` | qemu/block/mirror.c:1554-1559 | a write-blocking mirror job taken by the operations to its pause point: it is parked, and yet a resume may leave an error on record without a user pause |
| `JobRun.DiesOdd` | qemu/blockjob.c:561-561 | an operation whose assertion fires finds a job with a driver of another kind, or one once resumed or cancelled while not silent |
| `JobRun.Run` | qemu/job.c:59-72 | over every run with any interference: every pause accounted for, jobs and transactions linked both ways, results in keeping with status, no job finalised twice, no completed job uncompleted, no outcome revised, no leak repaid; an assertion fires at the first operation that calls for it in the state it finds, and at no other, and the job concerned is then one with a driver of another kind or one resumed or cancelled while not silent |
| `JobRun.QuietGives` | qemu/job.c:704-714 | what that says of one job: its pause count is not negative, and exact if and only if nothing is in flight or leaked; its result, its I/O status, and that it is not left aborting |
| `InputRing.RunKeeps` | egl-redirect/xcb.c:181-193 | every interleaving of producer and consumer keeps the invariant, across index wrap-around |
| `InputRing.WriteKeeps` | egl-redirect/xcb.c:181-190 | the slot being written holds no event still to be consumed |
| `InputRing.ConsumedInOrder` | egl-redirect/glx.c:757-767 | consumed events are a prefix of the accepted ones, whole and in order; at most 64 are queued; `dropped` counts rejected events modulo 2^32 |
| `InputRing.PeekIsNext` | egl-redirect/glx.c:757-767 | what a peek returned is what the consume at that position returns |
| `InputRing.PendingIsExact` | egl-redirect/glx.c:782-795 | the count of pending events is exact when the tail is read |
| `InputRing.RejectedIffFull` | egl-redirect/xcb.c:181-193 | an event is rejected if and only if the ring held 64 events at the step that read the head |
| `Motion.RunKeeps` | egl-redirect/xcb.c:140-147 | every interleaving of one writer and one reader with fewer than 2^31 updates per attempt keeps the invariant |
| `Motion.ReadIsWholeAndFresh` | egl-redirect/glx.c:727-746 | a successful read returns one complete written value, no older than the update that raised the serial it returns |
| `Motion.NothingLeftToDeliver` | egl-redirect/glx.c:769-779 | when the consumed serial equals motion_serial, a motion at least as new as the last event has been delivered, if and only if fewer than 2^32 events came since the last delivery; the last delivery is a whole value |
| `Motion.SeqRepeats` | egl-redirect/glx.c:727-746 | the sequence number repeats exactly every 2^31 updates |
| `Motion.TornRead` | egl-redirect/glx.c:727-746 | a run with exactly 2^31 updates in one attempt, in which the value read was never written |
| `Motion.SerialRepeats` | egl-redirect/glx.c:769-779 | the serial repeats exactly every 2^32 events |
| `Motion.SerialAlias` | egl-redirect/glx.c:769-779 | a run of 2^32 events after which the serials agree although no motion was delivered |
| `MotionGate.OneWriter` | egl-redirect/xcb.c:245-301 | if every seeding begins with the gate shut and no producer past it, producer and seeder never write at the same time |
| `MotionGate.CalmIsSerial` | egl-redirect/xcb.c:149-177 | and the run, seen through the page, is one of a single writer |
| `MotionGate.CalmReadIsWhole` | egl-redirect/glx.c:727-746 | so a successful read is whole and fresh with two writers too |
| `MotionGate.CalmLeavesNothing` | egl-redirect/glx.c:769-779 | and equal serials mean the same as with one |
| `MotionGate.TornBySeeding` | egl-redirect/xcb.c:281-291 | a run with one seeding through an open gate, one update finished and another half way, in which a value is accepted that nobody wrote |
| `Motion.ReaderFinishes` | egl-redirect/glx.c:727-746 | whatever the writer does, a reader is done after at most 39 steps of its own |
| `FrameStats.Sort` | egl-redirect/fps_metrics.c:154-180 | sorting keeps the frame times as a multiset, and their sum |
| `FrameStats.SortAscending` | egl-redirect/fps_metrics.c:134-138 | and orders them |
| `FrameStats.TopMeanAtLeastMean` | egl-redirect/fps_metrics.c:154-180 | the mean of the slowest k frames is at least the mean of all |
| `FrameStats.LowAtMostAverage` | egl-redirect/fps_metrics.c:154-180 | so the 1% low never exceeds the average |
| `FrameStats.Collector.Append` | egl-redirect/fps_metrics.c:140-152 | the frame time is stored unless a needed allocation fails, and the buffer doubles |
| `FrameStats.Collector.Total` | egl-redirect/fps_metrics.c:154-180 | the summing loop computes the sum without overflow |
| `FrameStats.Collector.SortFrames` | egl-redirect/fps_metrics.c:154-180 | the used part of the buffer is sorted in place |
| `FrameStats.Collector.PrintStats` | egl-redirect/fps_metrics.c:154-180 | the report is that of the stored frames, its average is frames over elapsed time, and a new interval begins |
| `FrameStats.Collector.RecordSwap` | egl-redirect/fps_metrics.c:182-214 | stored frame times add up to the time since the interval began, through warm-up, growth, failed allocation and reports |
| `FrameStats.Collect` | egl-redirect/fps_metrics.c:182-214 | that holds after every non-decreasing sequence of non-zero swap times, whatever allocations fail; each report tells of the frames between two swaps after the warm-up and an interval apart, the spans follow one another, and no 1% low exceeds its average |

## Left out

- Drain and quiesce counters, in-flight requests and polling; nodes count as drained throughout.
- Opening, probing, reopening, option dictionaries and filenames; open flags of a node are fixed.
- Activation and inactivation; a node is inactive or not for good.
- Driver-specific permission rules: every driver uses the default rule, and its check may answer anything.
- Permission bits beyond the four that the default rule tells apart, and their names.
- BlockBackends beyond being parents whose context change is accepted or refused.
- The inherits_from chain.
- BlockLayer.Layer.AttachChildCommon: takes the outcome of joining the AioContexts of both ends as given; moving them is modelled in Aio only.
- BlockLayer.Layer.RootUnrefChild: does not move the child back to the main AioContext.
- BlockLayer.Layer.ReplaceNode: does not detach the subchain that bdrv_drop_filter leaves behind.
- `bdrv_replace_child_bs`, which makes no cycle test, and the file variant of `bdrv_set_file_or_backing_noperm`.
- The slot assertions on `bs->backing` and `bs->file`.
- BlockLayer.Layer.TranAbort: restores links, grants and counts, but not the order of a node's parent and children lists, which the source does not restore either.
- JobManager.Manager.FinishSync: does not claim that the wait ends, which depends on the event loop and the driver.
- Job timers, speed limits, progress, events, `job_complete` and the driver's own state.
- JobPause.Create: only into a transaction in which no job is pending, which is how the callers use it; finalising such a transaction would reach a job that has not completed.
- `free_queued_cpu_work` at teardown, the round-robin single-thread mode, and user-mode emulation, where there is no big lock.
- Which node a drained section of a job is about; a job only counts them.
- Weak memory: the fences in the code are taken to make shared accesses sequentially consistent.
- Latency measurement, what the event mask selects, translation to X events and the window filter of the input transport.
- FrameStats.LowAtMostAverage: speaks of exact rates, not of their rounding to double.
- FrameStats.Collector.Append: does not model overflow of the capacity in bytes.
- FrameStats.Collect: swap times arrive in order, as from one thread.
- The remaining programs, hooks and set-up code of the repository, which would only add easy members.
