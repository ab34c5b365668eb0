# A Plan 9 kernel in Rust, modelled in Dafny

The kernel has no kernel stack for a process. A call that sleeps returns early,
keeps where it was, and is entered again; what it promises is therefore about
every interleaving of such entries, and that is what is proved here.

Each component that changes state is a class whose methods are proved to be
functions on values (`Qread` is `QreadSpec`, `Kernel.SemWait` is `Semwait`,
`MntDev.WalkNames` is `Walk`), and the theorems are about those functions: over
every sequence of events a run may be made of, where an event is one kernel entry
with whatever the outside world answered.

| files | what they model |
|---|---|
| proc, proc_order | `sleep`, `wakeup`, `qlock`, `qunlock`, notes (kernel/src/proc.rs) |
| qio, qio_answers, qio_wakeup, qio_stream | queues: `qread` and `qwrite`, resumable (kernel/src/qio.rs) |
| devpipe, devpipe_runs, devpipe_stream, devpipe_answers, devpipe_hangup, devpipe_limits | the pipe device and its runs (kernel/src/devpipe.rs) |
| sema, sema_runs, sema_answers | semaphores (kernel/src/lib.rs) |
| closing, offset | closes that sleep, and writes that reserve their range (kernel/src/lib.rs) |
| ns, ns_map, ns_table, ns_copy | the mount table (kernel/src/ns.rs) |
| devmnt, devmnt_runs, devmnt_io | the 9P client (kernel/src/devmnt.rs) |
| ninep, dirs | 9P2000 encodings and directory reads (kernel/src/ninep.rs, kernel/src/dev.rs) |
| devvirtio9p | the host's 9P servers (kernel/src/devvirtio9p.rs) |
| devcons | the console's line discipline (kernel/src/devcons.rs) |
| weaken, weaken_table, weaken_read | the weak bit set in place in an object (userspace/weaken.py) |

Where a promise does not hold of the code, the code is modelled as it is, a
concrete run shows the failure, and the exact condition is proved:

- Once both ends of a pipe are closed both queues are empty: false where one end
  was never opened, since nothing then closes the queue it reads
  (`LoneWriteLeavesData`, `ReopenedWithData`, `PipeReuse`).
- Two writers through one descriptor never have the same bytes: false after a
  short write that is not the latest taken (`ShortWriteOverlaps`,
  `GiveBackTiles`, `WritesTile`). The comment at kernel/src/lib.rs:1738-1743
  promises it without the condition.
- A semaphore's value is never negative: false after a release that overflows
  (`OverflowRun`, `Accounting`).
- A version is never sent on a wire that holds a fid: false where a wire said to
  be another mount's has no session of its own (`MuxLosesFids`,
  `AttachKeepsIff`, `VersionOnlyIdle`).

## Model

| member | source | states |
|---|---|---|
| ProcTable.Procs.Sleep | kernel/src/proc.rs:1090-1113 | a sleep commits unless the condition has happened or a note is pending; the rendez is left vacant if it does not |
| ProcTable.Procs.Wakeup | kernel/src/proc.rs:1321-1336 | readies and names the one process asleep on the rendez, and nobody otherwise |
| ProcTable.Procs.Qlock | kernel/src/proc.rs:1134-1143 | takes a free lock; otherwise queues the process last and has it leave |
| ProcTable.Procs.Qunlock | kernel/src/proc.rs:1147-1153 | hands the lock to the first queued, which it readies, or frees it |
| ProcTable.Procs.Postnote | kernel/src/proc.rs:1166-1194 | the note is pending, and a sleeper is off its rendez and runnable |
| ProcTable.Procs.Interrupted | kernel/src/proc.rs:1222-1224 | answers whether a note is pending, and takes it |
| ProcOrder.SleepThenWakeup | kernel/src/proc.rs:1090-1336 | a process that sleeps has left, and it alone is woken at its rendez, once |
| ProcOrder.NoSleep | kernel/src/proc.rs:1090-1113 | with the condition met or a note pending a process does not sleep, and there is nobody to wake |
| ProcOrder.NoteEndsSleep | kernel/src/proc.rs:1166-1224 | a note makes a sleeper runnable and leaves nobody at the rendez, and the process is told of it once |
| ProcOrder.NoteWaits | kernel/src/proc.rs:1090-1194 | a note to a process in no sleep stays pending, keeps it from its next sleep, and ends no wait for a lock |
| ProcOrder.InTurn | kernel/src/proc.rs:1134-1153 | in every run of a lock those who asked have it in the order they asked, one at a time, and it is free only when nobody waits |
| ProcOrder.HandedOver | kernel/src/proc.rs:1134-1153 | a process that must wait for the lock leaves, and runs when the lock is let go of to it |
| Qio.SkipEmpty | kernel/src/qio.rs:164-186 | dropping empty blocks keeps the length the sum of the allocations and the bytes queued as they were |
| Qio.TakeSpec | kernel/src/qio.rs:264-302 | what one read takes and what it leaves are what was queued, coalescing or not, and it is no more than was asked for |
| Qio.Queue.Produce | kernel/src/qio.rs:141-154 | refused at the limit; otherwise queued whole, and whether a starving reader is to be woken |
| Qio.Queue.Consume | kernel/src/qio.rs:164-186 | bytes of the first block that has any, and whether the queue has come below half its limit with a writer waiting |
| QueueAnswers.FrontTakes | kernel/src/qio.rs:164-186 | what is taken is the first block's data up to what was asked for; the block goes if that is all of it, and otherwise the rest goes back counted whole |
| QueueAnswers.ReadTakes | kernel/src/qio.rs:277-293 | a read takes the first block, or its front if it does not fit; coalescing, whole blocks after it up to the first that does not fit |
| QueueAnswers.ConsumeEnds | kernel/src/qio.rs:164-186 | `consume` takes from the first block with anything in it, or there is none and a reader starves; it wakes a writer waiting for room if and only if the queue comes below half its limit |
| QueueAnswers.ProduceEnds | kernel/src/qio.rs:141-154 | `produce` refuses if and only if the queue is at its limit, changing nothing but the flow flag; otherwise one block is added and it says whether a reader was starving |
| Qio.Qread | kernel/src/qio.rs:228-303 | the loop over lock, note, sleep, end of file and take is the read function that the runs are made of, whose ends `QueueAnswers.QreadEnds` gives |
| Qio.Qwrite | kernel/src/qio.rs:315-413 | the loop over pieces, lock, wake-up and flow control is the write function that the runs are made of, whose ends `QueueAnswers.QwriteEnds` gives |
| QueueAnswers.QreadEnds | kernel/src/qio.rs:228-303 | every entry of a read of any queue, from wherever it was: in line if the lock is another's; a note ends a sleep; otherwise exactly the front of what is queued, as much as was asked for; with nothing queued, end of file three times and then the error if it is closed, and a sleep, or the note's error, if it is open |
| QueueAnswers.QwriteEnds | kernel/src/qio.rs:315-413 | every entry of a write to any queue: it leaves only in line for the lock, or asleep with the queue open, blocking and at its limit, or to let a reader run; it succeeds only with room or nobody to wait for; it fails only for a pending note, which it takes, or because the queue is closed, and posts the device's note |
| QueueAnswers.WaitsForRoom | kernel/src/qio.rs:345-408 | with no note pending, a piece that brings an open, blocking queue to its limit is queued and its writer sleeps for room |
| QueueAnswers.LetsReaderRun | kernel/src/qio.rs:371-391 | a piece that a starving reader is woken for is queued, and a writer that it outranks leaves at once |
| QueueWakeup.QreadKeeps | kernel/src/qio.rs:228-303 | any entry of a read keeps the queue's invariant: lock holders, starve and flow flags and sleepers agree |
| QueueWakeup.QwriteKeeps | kernel/src/qio.rs:315-413 | the same of any entry of a write, through any number of pieces |
| PipeSystem.WakeupSafety | kernel/src/qio.rs:228-413 | in every run with a limit of at least 2: a reader asleep means the queue is empty, starving and open; a writer asleep means flow is set, the length is at least half the limit and the queue is open; never both; and nobody sleeps where another does |
| PipeSystem.LockProgress | kernel/src/qio.rs:228-413 | in every run a process queued for a queue's lock waits for one that is in a call on that queue and is not itself queued |
| PipeSystem.StepKeeps | kernel/src/devpipe.rs:160-303 | attach, open, close, read, write, resume and note each keep the whole system's invariant |
| QueueStream.ChunksConcat | kernel/src/qio.rs:345-412 | the pieces of a write, joined, are its data |
| QueueStream.ChunkAt | kernel/src/qio.rs:345-412 | the i-th piece is the i-th 64K of the data, and there is one even of nothing |
| QueueStream.QwriteAppends | kernel/src/qio.rs:315-413 | one entry of a write queues the next pieces in order, each once, from where the last entry had got to; none is passed over but by a nonblocking queue at its limit |
| PipeStream.ExactlyOnce | kernel/src/qio.rs:228-413 | in every run, what has left a queue and what is in it are what was ever queued, in order |
| PipeStream.ReadsInsideOnePiece | kernel/src/qio.rs:264-302 | in every run, each read of a pipe is of one piece of one write, and is all that was left of it or as much as was asked for |
| PipeStream.WritesArePieces | kernel/src/qio.rs:315-413 | in every run, a write that is over queued whole pieces from the front of its data, in order and once; all of them if it succeeded; and if it failed its process had a note or the queue was closed |
| PipeAnswers.EntriesAnswer | kernel/src/qio.rs:228-413 | in every run each entry of a read or of a write, by anybody, ends in one of those ways, and the call goes on exactly when it has left |
| PipeLimits.LengthBound | kernel/src/qio.rs:348-411 | in every run where no note ended a writer's wait in flow control on the queue, its length is below the limit and one largest block's allocation, through reopenings too |
| PipeHangup.DrainThenEof | kernel/src/devpipe.rs:282-303 | in every run, from a last close until the pipe reopens: what reads of the queue by whomever have answered and what is still queued, and what its own end's close threw away, are what was queued at that close; and the answers that there was nothing are end of file three times and then the error |
| PipeHangup.ReadsAfterHangup | kernel/src/qio.rs:257-302 | in every run an entry of a read of a queue hung up, by anybody: a wait or a note's error, with nothing changed; the front of what is queued; or nothing, which is end of file three times and then the error |
| PipeHangup.WriteHungUp | kernel/src/qio.rs:315-413 | an entry of a write to a queue hung up, from wherever it was and whoever has the lock, adds nothing; it fails, or waits for the lock, unless its last piece had been queued before |
| PipeHangup.WritesAfterHangup | kernel/src/qio.rs:348-413 | in every run an entry of a write to a queue hung up, by anybody, adds nothing, and with a piece left to queue it fails with the hangup or the note, or is still in line for the lock |
| PipeHangup.LastClose | kernel/src/devpipe.rs:282-303 | the last close of an end hangs up its peer with what was queued still there, empties its own queue, and leaves nobody asleep on either |
| PipeHangup.PipeReuse | kernel/src/devpipe.rs:282-303 | once both ends have been opened and closed, both queues are empty, open, starving and at their first limit |
| PipeHangup.ReopenedWithData | kernel/src/devpipe.rs:282-303 | in every run the queues reopen empty if and only if the peer was opened since the pipe was last quiet, or every piece ever put in the queue it reads has left it |
| PipeHangup.LoneWriteLeavesData | kernel/src/devpipe.rs:282-303 | a run in which a pipe reopens with data: one end is never opened |
| PipeDevice.EndsCross | kernel/src/devpipe.rs:73-79 | a file's write queue is the one its peer's file reads |
| PipeDevice.PipeDev.Attach | kernel/src/devpipe.rs:139-142 | an attach mints a pipe of its own with two new queues, and leaves the others |
| PipeDevice.PipeDev.Open | kernel/src/devpipe.rs:160-179 | an open of a data file counts against its own end alone |
| PipeDevice.PipeDev.Read | kernel/src/devpipe.rs:193-214 | a read of a data file is a read of its end's queue; of anything else, refused and nothing changed |
| PipeDevice.PipeDev.Write | kernel/src/devpipe.rs:223-227 | a write of a data file is a write of the peer's queue, with the device's note unless it is a mount's |
| PipeDevice.PipeDev.Close | kernel/src/devpipe.rs:282-303 | a close is the close of the runs: counts, hangup, reopening and all four wake-ups |
| Semaphores.Kernel.SemWakeup | kernel/src/lib.rs:3128-3144 | the waiters marked and woken are the function's |
| Semaphores.Kernel.SemRelease | kernel/src/lib.rs:2665-2669 | refused for a negative release or value; otherwise the sum, wrapped to 32 bits, and as many woken |
| Semaphores.Kernel.SemAcquire | kernel/src/lib.rs:3164-3176 | takes one, answers 0 at once if not to wait, or joins the list and waits |
| Semaphores.Kernel.SemWait | kernel/src/lib.rs:3195-3230 | the top of the loop: waiting is set, then one is taken, or the process sleeps, or a note ends it |
| Semaphores.Kernel.SemDone | kernel/src/lib.rs:3245-3255 | off the list, passing on a wake-up not used |
| Semaphores.Kernel.Resume | kernel/src/lib.rs:3217-3229 | after the sleep: a note, the clock, or the loop again with what time is left |
| SemaphoreRuns.WakesOldest | kernel/src/lib.rs:3128-3144 | those woken are the oldest waiting, as many as were asked for, and the rest keep their order |
| SemaphoreRuns.SemdoneKeeps | kernel/src/lib.rs:3245-3255 | leaving the list loses no wake-up, whichever way the waiter leaves |
| SemaphoreRuns.NoLostWakeup | kernel/src/lib.rs:3112-3255 | in every run, at every address, as many queued waiters are woken as the value or the queue, whichever is less, and the woken are runnable |
| SemaphoreRuns.Progress | kernel/src/lib.rs:3112-3255 | in every run, while the value is positive and somebody is queued, somebody queued can run and will take it unless a note or its time ends the wait |
| SemaphoreRuns.Accounting | kernel/src/lib.rs:3112-3255 | in every run the value is the initial one and releases less acquires, unless a release overflowed; and it is negative if and only if one did |
| SemaphoreRuns.OverflowRun | kernel/src/lib.rs:3148-3158 | a run in which a release overflows and the value is negative |
| SemaphoreAnswers.EventsAnswer | kernel/src/lib.rs:3112-3255 | in every run: an acquire takes one if there is one, answers 0 at once if it is not to wait, and otherwise waits, last on the list, unless a note is pending; a process entered again is told of a note, or that its time is up, or takes one, or waits where it was for the time left; a release answers the new value and wakes the oldest; leaving the list disturbs nobody's place |
| Closing.Closes.Loop | kernel/src/lib.rs:1847-1874 | the loop over closes, with its way out for a kill, is the function that the runs are made of |
| Closing.EachOnce | kernel/src/lib.rs:1639-1661 | over any sleeps, deferred closes and kills: what was closed is so in order; it, what is pending and what was queued are all there was, each once; the rest of the call runs once, when nothing is pending; a close begun is the next in order |
| Closing.BegunNotQueued | kernel/src/lib.rs:1834-1874 | a close that has begun is neither queued nor already closed |
| Closing.NoKill | kernel/src/lib.rs:1647-1661 | without a kill nothing is queued, and at the end all are closed in order |
| Closing.KilledEntry | kernel/src/lib.rs:1847-1874 | an entry of a killed process begins nothing: what was not begun goes to the close queue as it stands, and the close that was begun goes on, what it lets go of following |
| Closing.KilledRun | kernel/src/lib.rs:1834-1874 | whenever a kill comes: a process in no close closes nothing more and has queued all it had left; one in a close finishes that one, in as many entries as it sleeps, and closes nothing else |
| Closing.ClosesEnd | kernel/src/lib.rs:1847-1874 | the closes end within as many entries as there are closes and sleeps |
| WriteOffset.Cell.WriteOff | kernel/src/lib.rs:1744-1761 | a write's range is its own from the start of the call; a directory or a negative offset is refused |
| WriteOffset.Cell.WriteAt | kernel/src/lib.rs:1765-1778 | what the device left unwritten is given back, which is everything if it failed |
| WriteOffset.OffsetAccounts | kernel/src/lib.rs:1744-1778 | in every run the offset is the start and what finished writes wrote and what outstanding ones took, and never below the start |
| WriteOffset.WriteAnswers | kernel/src/lib.rs:1744-1778 | in every run: a directory or a negative offset is refused; otherwise a write leaves when its device does and answers what it answers, and moves the descriptor's offset only if it was made there |
| WriteOffset.StaysWhereItBegan | kernel/src/lib.rs:1744-1778 | in every run a write entered again is the one that began, at the offset it was given or had taken |
| WriteOffset.GiveBackTiles | kernel/src/lib.rs:1773-1777 | giving back leaves the ranges disjoint and without a gap if and only if nothing is given back or the range is the last |
| WriteOffset.StepTiles | kernel/src/lib.rs:1744-1778 | a step keeps the ranges a tiling if and only if it does not give back part of a range that is not the last |
| WriteOffset.WritesTile | kernel/src/lib.rs:1737-1743 | in every run in which none does, so in particular none is short, the ranges taken tile the file from the start to the offset |
| WriteOffset.ShortWriteOverlaps | kernel/src/lib.rs:1773-1777 | a run in which two writes have the same bytes |
| MountTable.FirstCreate | kernel/src/ns.rs:456-459 | the first element that permits creation, and none if and only if none does |
| MountTableProofs.EqchanIsKey | kernel/src/ns.rs:132-134 | two channels are the same file if and only if their keys are the same |
| MountTableProofs.LookupAgrees | kernel/src/ns.rs:370-384 | in a valid table a lookup is a search of every head, as a map from file identity to head |
| MountTableProofs.SameFile | kernel/src/ns.rs:132-134 | what is mounted on a file does not depend on its version, or the name or channel it is reached by |
| MountTableProofs.CmountRefines | kernel/src/ns.rs:283-366 | a bind is refused exactly for a file and a directory, a union at a file, or creation in a union that has it otherwise, and then changes nothing; otherwise it keeps the table valid, changes the file's entry alone, to the new elements in front of, behind or in place of the old, each lot in order and with its own channels, flags and ids; and conserves references |
| MountTableProofs.CunmountRefines | kernel/src/ns.rs:409-430 | an unmount takes the first element that matches, or all, and the head with the last; conserves references; refused, with nothing there or nothing that matches, it changes nothing |
| MountTableProofs.ClosepgrpRefines | kernel/src/ns.rs:443-453 | closing a namespace hands back exactly what it held and leaves nothing mounted |
| Namespaces.Namespace.Find | kernel/src/ns.rs:381-383 | answers the head object itself, of the table, or none |
| Namespaces.Namespace.Bind | kernel/src/ns.rs:283-366 | the table changed in place is the bind's; heads there were stay, and new ones are new objects |
| Namespaces.Namespace.Unmount | kernel/src/ns.rs:409-437 | the table changed in place is the unmount's, and a head let go of lists nothing |
| Namespaces.Namespace.Unlink | kernel/src/ns.rs:434-437 | one head is off its chain, and every other is where it was |
| Namespaces.Namespace.Close | kernel/src/ns.rs:443-453 | the channels are handed back chain by chain, and every head there was lists nothing |
| NamespaceCopy.SortById | kernel/src/ns.rs:224-224 | a stable sort by the parent's mount ids |
| NamespaceCopy.Clone | kernel/src/ns.rs:191-229 | a copy of every head, all new objects, the parent as it was, and the ids those of the parent's order |
| NamespaceCopy.CopyAnswersTheSame | kernel/src/ns.rs:191-229 | a copy answers every lookup with the same mounts in the same order, and holds the same channels |
| NamespaceCopy.CopyKeepsOrder | kernel/src/ns.rs:213-227 | a copy's mount ids are new, distinct, and in the order of the parent's |
| NamespaceCopy.CopyIsValid | kernel/src/ns.rs:191-229 | a copy is a valid table |
| NamespaceCopy.DoBoth | kernel/src/ns.rs:191-229 | binds, unmounts and closes made in any order in two namespaces with no head in common leave them so, and each changes only the one it is made in |
| NamespaceCopy.NothingShows | kernel/src/ns.rs:191-229 | whatever is done to either, each comes to what its own operations alone would have made of it, but for mount ids |
| NamespaceCopy.CopyApart | kernel/src/ns.rs:191-229 | so of a namespace and its copy, from the copy on: the copy comes to what the parent as it was would have |
| MountDriver.MntDev.GetSession | kernel/src/devmnt.rs:357-367 | a wire's session is joined if it has one; otherwise a version is agreed, and not kept yet |
| MountDriver.MntDev.FVersion | kernel/src/devmnt.rs:380-392 | the session's version if compatible; otherwise one is agreed and kept |
| MountDriver.MntDev.AttachTo | kernel/src/devmnt.rs:396-452 | an attach or auth keeps its session and holds its fid once the server has taken it, and not before |
| MountDriver.MntDev.WalkNames | kernel/src/devmnt.rs:469-539 | a walk of one name, of none or of several: the new fid is held if and only if every name was walked; where nothing was, a walk of one answers none and a walk of several an error |
| MountDriver.MntDev.ClunkFid | kernel/src/devmnt.rs:617-632 | the fid is let go of whatever the answer |
| MountDriver.MntDev.Released | kernel/src/devmnt.rs:334-336 | answers the wires let go of since it was last asked, and forgets them |
| MountDriver.MntDev.MuxClose | kernel/src/devmnt.rs:340-343 | the wire's session and everything held on it are gone, and nothing else |
| MountDriver.MntDev.LetGo | kernel/src/devmnt.rs:321-331 | the fid goes, and with the last of a wire's the wire |
| MountDriverRuns.HeldIsServed | kernel/src/devmnt.rs:305-336 | in every run against servers that follow the protocol, the fids held on a wire are the fids its server has, and a wire that holds any has a session |
| MountDriverRuns.VersionOnlyIdle | kernel/src/devmnt.rs:357-367 | in every run a version is sent only on a wire that holds nothing |
| MountDriverRuns.FidsAreNew | kernel/src/devmnt.rs:305-309 | in every run a fid that comes to be held was held on no wire at any time before |
| MountDriverRuns.ReleasedAtLast | kernel/src/devmnt.rs:318-336 | in every run a wire is let go of exactly when its last fid goes |
| MountDriverRuns.AttachAnswers | kernel/src/devmnt.rs:357-452 | in every run an attach answers a channel if and only if a session can be had and the server takes the fid; the channel is the new mount's and carries the fid newly held; one that fails keeps nothing |
| MountDriverRuns.WalkAnswers | kernel/src/devmnt.rs:469-539 | in every run a walk answers a channel if and only if every name was walked, carrying the fid newly held; none where one name was not found or some of several were; and holds nothing else |
| MountDriverRuns.ClunkAnswers | kernel/src/devmnt.rs:617-632 | in every run a clunk or remove fails if and only if its server does, and neither side has the fid after |
| MountDriverRuns.VersionAnswers | kernel/src/devmnt.rs:380-392 | in every run a version agreed is kept and answered; one not agreed is not; a wire with a session sends nothing and answers its own if it is a front of the one asked for |
| MountDriverRuns.RoomInMessages | kernel/src/devmnt.rs:97-101 | in every run every session's and mount's msize leaves at least 232 bytes for data |
| MountDriverRuns.AttachKeepsIff | kernel/src/devmnt.rs:357-361 | after an attach the server takes, no lawful event can send a version on its wire while it holds a fid if and only if the session joined or begun is the wire's own |
| MountDriverRuns.MuxLosesFids | kernel/src/devmnt.rs:357-361 | a run in which a version is sent on a wire that holds a fid, through `mux` |
| MountIo.SpliceTwice | kernel/src/devmnt.rs:211-227 | two writes, the second where the first ended, are one write |
| MountIo.Read | kernel/src/devmnt.rs:184-207 | the front of what one unbounded read gives; all of it if no answer is short; and it ends |
| MountIo.Write | kernel/src/devmnt.rs:211-227 | the file has exactly what was acknowledged, from the front of the data, at the offset; all of it if no answer is short; and it ends |
| NineP.LeRoundTrip | kernel/src/ninep.rs:63-78 | an integer written is read back if and only if it fits its bytes |
| NineP.UnLeRoundTrip | kernel/src/ninep.rs:124-135 | bytes read as an integer and written again are the same bytes |
| NineP.FieldsRoundTrip | kernel/src/ninep.rs:58-143 | fields written one after another, and anything after them, are read back if and only if each fits |
| NineP.GetIsPut | kernel/src/ninep.rs:109-143 | whatever is read, written again, is the bytes that were read |
| NineP.R.Text | kernel/src/ninep.rs:136-139 | a counted string, if it is all there and is UTF-8 |
| NineP.FrameRoundTrip | kernel/src/ninep.rs:95-163 | a framed message, and anything after it, is read back if and only if its size fits four bytes |
| Directories.DirRoundTrip | kernel/src/ninep.rs:258-312 | an entry, and anything after it, is read back if and only if each string's length fits two bytes |
| Directories.ReadDir | kernel/src/ninep.rs:293-312 | reading field by field is the parse |
| Directories.ChecksIffEntry | kernel/src/ninep.rs:201-214 | what passes the check is exactly the encodings of entries |
| Directories.ChecksIffFits | kernel/src/ninep.rs:201-275 | an encoded entry passes the check if and only if its length fits its count |
| Directories.StatCheck | kernel/src/ninep.rs:201-214 | answers true of exactly the buffers that are one encoded entry |
| Directories.ParseEntries | kernel/src/ninep.rs:277-289 | the loop parses the entries at the front, until something else is met |
| Directories.ParseRoundTrip | kernel/src/ninep.rs:258-289 | entries within their counts, encoded one after another, are parsed back |
| Directories.DirChan.Read | kernel/src/dev.rs:651-662 | whole entries from where the last read ended, as many as fit |
| Directories.AsManyAsFit | kernel/src/dev.rs:651-662 | a read has room for what it answers, and not for one entry more |
| Directories.ReadsWholeEntries | kernel/src/dev.rs:651-662 | any run of reads answers whole entries, each once, in order |
| Directories.DirectoryReadBack | kernel/src/dev.rs:651-662 | read through any buffers each with room for an entry, and parsed, a directory is its entries |
| Directories.NothingRead | kernel/src/dev.rs:651-662 | a read answers nothing if and only if it is at the end or has no room for the next entry |
| HostServers.Server.Interrupt | kernel/src/devvirtio9p.rs:150-164 | every reply completed is queued in order, and is no longer held |
| HostServers.Server.DoRead | kernel/src/devvirtio9p.rs:261-294 | bytes of the reply in hand or of the next, harvesting first if there is none |
| HostServers.Server.DoWrite | kernel/src/devvirtio9p.rs:300-325 | a request too short is refused; one sent is held until it is answered, or fails |
| HostServers.Server.DoOpen | kernel/src/devvirtio9p.rs:229-254 | refused while in use; otherwise the conversation starts clean, with what is held still held |
| HostServers.Server.DoClose | kernel/src/devvirtio9p.rs:345-354 | what was queued and in hand goes, and the server takes a client again |
| HostServers.StepReads | kernel/src/devvirtio9p.rs:261-294 | the reads that the runs are made of are the device's reads, answer for answer; one waits if and only if no reply is in hand, queued or harvested |
| HostServers.Refusals | kernel/src/devvirtio9p.rs:229-325 | an open is refused if and only if the server is in use; a write if and only if it is too short or the host would not take it; one taken is taken whole |
| HostServers.StreamIsReplies | kernel/src/devvirtio9p.rs:115-294 | in every run, since the last open, what was read and what is in hand and queued are the replies in order, and each read is of one of them, all that was left of it or as much as was asked for |
| HostServers.HeldIsUnanswered | kernel/src/devvirtio9p.rs:124-325 | in every run in which no outstanding tag is reused, the tags held are those of requests neither answered nor flushed by one answered |
| Console.Kbd.LineDisc | kernel/src/devcons.rs:307-353 | the loop over keys is the discipline, in cooked and raw mode, with NUL and end of input |
| Console.Kbd.ConsRead | kernel/src/devcons.rs:405-449 | the discipline, and then from the line, or a wait |
| Console.Kbd.KbdPutcClock | kernel/src/devcons.rs:362-392 | keys are queued until the end of input, and the interrupt key drops what was typed and not sent |
| Console.BackspaceUndoes | kernel/src/devcons.rs:332-334 | a character and a backspace is nothing, unless the character was the one that sent a full line |
| Console.PlainLine | kernel/src/devcons.rs:336-349 | characters with no editing among them are sent as typed |
| Console.ChunksDoNotMatter | kernel/src/devcons.rs:307-449 | in every cooked run, however keys are batched and reads sized, what is read is the front of what the keys edit to, and all of it once a reader waits |
| Console.ReadsInsideOneLine | kernel/src/devcons.rs:405-449 | in every cooked run a read is of one line, and is all that was left of it or as much as was asked for |
| Console.RawSends | kernel/src/devcons.rs:307-353 | in raw mode the keys there are go as they come, up to a line's length at a time |
| Console.EofReads | kernel/src/devcons.rs:307-449 | after the end of input a read never waits: it takes what is left, a line not ended included, and then nothing |
| Console.NothingKey | kernel/src/devcons.rs:307-353 | a NUL sends an unfinished line if no key follows, and is otherwise passed over |
| Console.InterruptDrops | kernel/src/devcons.rs:362-449 | after the interrupt key a read has only what had been sent before it |
| Leb128.EncRoundTrip | userspace/weaken.py:67-94 | a number written is read back, and ends where it was written to |
| Leb128.EncShortest | userspace/weaken.py:67-94 | no encoding of a number is shorter than the one written |
| Leb128.WeakSameWidth | userspace/weaken.py:35-37 | setting the low bit of an even number keeps its width |
| Leb128.Reencode | userspace/weaken.py:81-95 | the shortest encoding, if it is of the width asked for |
| Leb128.Reader.Number | userspace/weaken.py:67-76 | the number at the cursor, and the cursor past it |
| SymbolTable.WidthKept | userspace/weaken.py:190-200 | weak flags keep their field's width if and only if the field was the shortest |
| SymbolTable.WeakenedReparses | userspace/weaken.py:98-151 | the patched object has the same symbol table but for that symbol's weak bit |
| SymbolTable.AllWeakenedReparse | userspace/weaken.py:188-200 | the same of any number of symbols patched where the first table said they were |
| SymbolTable.Patch | userspace/weaken.py:190-200 | the bytes are edited in place, or refused with nothing changed |
| ObjectReader.ReadTable | userspace/weaken.py:117-151 | the loop over subsections is the parse of the table |
| ObjectReader.ReadSymbols | userspace/weaken.py:98-114 | the loop over sections is the parse up to `linking` |

## Left out

- Scheduling: priorities, the clock's accounting and which runnable process runs next; a process ready, chosen or running is one state. Whether a woken reader outranks the writer is an input to a write.
- Name resolution, permission checks, stat and wstat of the devices, and text formatting: one-branch facts.
- The mount driver's record for calls that sleep (`SLEPT`): its transport always answers, with an answer the protocol allows, and tags and malformed replies are not modelled.
- `Queue::flush`, `Queue::setlimit` and runs of coalescing or non-blocking queues: no device modelled here uses them; what one entry of theirs answers is in qio_answers.dfy and qio_stream.dfy.
- The kick of a queue, empty for pipes, and the text of notes.
- MountDriverRuns.HeldIsServed: a server that answers `Rerror` to a version is taken to have kept its session.
- SemaphoreRuns.NoLostWakeup: one segment, whose memory changes only by these calls; the compare-and-swap loops are one step. A process in no semaphore call may be in any state elsewhere.
- Semaphores.Kernel.SemRelease: address validation is the presence of the address.
- Closing.EachOnce: what a device does with a close is given as how often it sleeps and what it then lets go of; whether a close process must be made for the queue is not modelled.
- WriteOffset.OffsetAccounts: no seek while a write is outstanding, no reads through the descriptor, and offsets do not wrap at 64 bits; the other fields of the channel that a finished write stores back are not modelled.
- NamespaceCopy.Clone: mount ids do not wrap at 32 bits, and namespace ids and `noattach` are not modelled; fids and pids do not wrap either.
- MountIo.Read: one file, not changed by others during the read; directory entries' validation and fixing are not modelled.
- MountIo.Write: its second result is what was acknowledged, for the contract alone.
- Directories.DirRoundTrip: text is bytes that are UTF-8 by section 4 of RFC 3629.
- HostServers.Server.DoRead: a reader that must wait answers none; its sleep is the process table's.
- Console.ChunksDoNotMatter: cooked mode, no NUL and no interrupt key, before end of input. A lone ^D sends an empty line, which no reader sees, so end of file comes from the end of input alone. The lock among readers is not modelled.
- SymbolTable.WeakenedReparses: names are bytes, not decoded text, and no subsection or section name is read past its own end.
- Which symbols `userspace/weaken.py` weakens: that is decided from the output of another program.
- Service workers, the browser's side, the build scripts and the font tool.
