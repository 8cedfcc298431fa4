# sync4loong, modelled in Dafny

sync4loong publishes a directory as one queued task per file; workers take the tasks, upload each
file to a storage backend, and may delete the local copy afterwards. A debounced SSH command runs
when uploads go quiet, and a Redis-backed cache answers whether a path exists remotely. This
project models the parts of it whose correctness depends on interleaving, interruption and time,
and proves what they keep over every run:

- **Resumable uploads over SFTP** (`Paths`, `Upload`, `UploadTheorems`, `SftpBackend`). A state
  machine with one step per remote operation: any number of concurrent uploads, with a cut,
  a cancellation or a killed worker allowed between any two steps. With temporary files hidden it
  does exactly what atomic puts do. `SFTPBackend` is the imperative code; every operation it
  performs is recorded as a machine event, so the machine's theorems are about the code's runs.
- **Sync, then delete** (`Sync`, `SyncProgress`, `SyncRuns`, `SyncAck`, `SyncLoss`, `Publisher`,
  `EndToEnd`, `FileSync`). Workers running any tasks, whatever flags they have and targets they
  share, over the upload machine, with at-least-once delivery and crashes. The theorems at the end
  are about a whole publishing call and about one directory tree: exactly when no run loses a
  file's bytes, colliding targets included.
- **The SSH debouncer** (`Debounce`). A timed machine: record with a time to live, queue of delayed
  tasks, worker. Times are nanoseconds; the truncation to whole seconds is explicit.
- **The existence cache** (`Cache`, `CacheTheorems`, `CacheFaults`, `CacheService`). One program
  counter per call, interleaved with uploads, clears and every failure, and for each promise exactly
  which faults and overlaps break it.
- **The connection manager** (`Connections`). Close, reconnect and replacement as steps, with the
  manager's methods on top.

Runs are sequences of events and an event that is not enabled changes nothing, so "for every
`es`" means for every interleaving.

## Hypotheses

The code relies on these without enforcing them; each is a named predicate or precondition.

- Two contents in play with the same 64-bit hash are equal (`Upload.HashInjective`).
- Files are regular and independent of each other: a symbolic link among the leaves whose referent is
  a sibling dangles once the sibling has been synced and deleted. A call names no file twice.
- Temporary files that are already on the remote are prefixes of the contents their names stand for
  (`Upload.TempsArePrefixes`); an empty remote, or one that only this code has written, qualifies.
- A source does not change between the stat, the hash and the copy of one upload, which read it
  three times.
- Keys are in `filepath.Clean` form and no target looks like `.name.<16 hex digits>`
  (`Upload.CleanKeys`). For a published directory that means a clean target directory and leaves
  whose names, cut at their backslashes, are ordinary file names (`EndToEnd.Publishable`): the code
  turns backslashes into slashes. Without clean keys, uploads are atomic exactly when keys that clean to one
  non-empty temporary file share a lock: `UploadTheorems.AtomicIffStripesAgree`.
- In the cache modules a key is one object. Temporary names, which a rename takes away again, and
  other spellings of a path, which name the same object under another cache key, are not keys there,
  so the backend loses no object.
- A cut session writes nothing after the cut, and one process at a time serves a remote, since the
  locks live in memory.
- An append lands at the end of the file (section 6.3 of draft-ietf-secsh-filexfer-02,
  SSH_FXF_APPEND) and a rename replaces its target atomically (posix-rename@openssh.com,
  section 4.3 of the OpenSSH PROTOCOL document).
- Debouncer handlers run at one instant each: reading and writing the record are separate calls in
  the code. `Debounce.Orderly` lists what the first service theorems add: punctual tasks, a store and a
  queue that answer, no trigger while a command runs, a command that ends before the record
  expires. `Debounce.Lenient` lets the store and the queue fail and triggers come at any time, and
  `Debounce.ServedIff` says which triggers are then served in time. `Debounce.RetryRun` also lets
  the queue retry the tasks that fail, and tasks be late. `Debounce.QuietWindow` needs none of it.
- Waiting on a dropped SSH connection ends with an error, and a monitor's reconnect succeeds: the
  code panics otherwise.

## Where the code and its documentation differ

- DESIGN.md (lines 293 and 419) has the in-memory lock prevent duplicate storage requests. It does
  as long as nothing fails (`Cache.OneQueryPerKey`). One failed re-read, cancelled context, failed
  query, failed cache write or cache clear is enough for two queries of one key at once
  (`CacheFaults.OneFaultIsEnough`): a waiter that falls through does not own the lock, and still
  deletes it. `CacheFaults.OneQueryIff` is the exact condition.
- DESIGN.md line 285 has the SSH command triggered after a successful upload. A file that is
  skipped because its target has the same size triggers it too (`pkg/handler/filesync.go:61-67`,
  `FileSync.FileSyncHandler.HandleSingleFile`).
- Skipping on equal size is not skipping on equal content, and two files can get one target. With
  delete-after-sync a directory's files lose bytes in some run exactly when a target of equal size
  and other content is there with overwriting off, or files of other content share a target
  (`EndToEnd.PublishedDirectoryLosesNothing`; for any mix of tasks, `SyncLoss.NoBytesLostIff`). The
  file `a\b` beside `b` in the directory `a` is such a case
  (`EndToEnd.CollidingNamesLoseBytes`).
- Entries have no expiry, so the cache stays wrong for good when a check overlaps an upload of its
  key, two uploads of it overlap, or a stored upload is not recorded, each on its own and with every
  step succeeding but the last kind's; and only then (`CacheFaults.CacheAgreesIff`).
- A trigger that arrives while the command runs is not served
  (`Debounce.TriggerDuringCommandIsSwallowed`). The pending flag is saved before the task is
  enqueued, so one failed enqueue silences the debouncer for as long as triggers keep coming
  (`Debounce.FailedEnqueueSilences`); a gap of two windows restores it (`Debounce.GapRestores`).
- The manager hands out a closed connection after someone closed the one it had handed out, or after
  a replacement was begun whose dial failed, and only then (`Connections.HandsOutClosedIff`). Two callers that both find no connection close the first one's
  (`Connections.RacingCallersCloseEachOther`).
- A worker that dies between deleting a file and acknowledging its task leaves a task that no retry
  can acknowledge (`SyncAck.AcknowledgeableIff`).
- SFTP failures are never `StorageError`s, so the retry loop makes one attempt over SFTP
  (the last clause of `FileSync.UploadFile`).

## Model

| member | source | states |
|---|---|---|
| Paths.HexRoundTrip | pkg/storage/sftpbackend.go:172 | Parsing the 16-digit hexadecimal form of any 64-bit hash gives the hash back |
| Paths.TempKeyIsClean | pkg/storage/sftpbackend.go:202-211 | The temporary key of a clean file key needs no cleaning, names a file, and has the reserved temporary shape |
| Paths.TempKeyIsBeside | pkg/storage/sftpbackend.go:202-211 | It lies in its target's directory, under a dot, the target's name, a dot and the hash |
| Paths.CleaningCleans | pkg/storage/sftpbackend.go:219 | The model of `filepath.Clean` leaves no empty name, no "." and no removable "..", and leaves a clean path as it is |
| Paths.CleaningRemoves | pkg/storage/sftpbackend.go:219 | What it removes: empty names, ".", a name before "..", and ".." at the root |
| Paths.TempPathInjective | pkg/storage/sftpbackend.go:202-211 | Equal temporary paths of clean keys imply equal key and equal hash, with or without a directory |
| Upload.CleanKeysSeparate | pkg/storage/sftpbackend.go:132-133 | Clean, not temp-shaped keys and an injective hash are enough for uploads sharing a temporary file to agree on content, target and lock, and for no temporary file to be a target |
| Upload.StepKeepsInv | pkg/storage/sftpbackend.go:119-158 | One remote operation of any upload, or a cut, keeps every temporary file a prefix of the content its hash names and every job's view of its file |
| Upload.RunKeepsInv | pkg/storage/sftpbackend.go:119-158 | The same over every interleaving of uploads, cuts, retries and crashes |
| Upload.StepRefines | pkg/storage/sftpbackend.go:262-282 | With temporary files hidden, a rename is one atomic put of the job's whole content and every other step is invisible |
| Upload.UploadRefinesAtomicPut | pkg/storage/sftpbackend.go:119-158 | Every run, temporary files hidden, equals the atomic puts of its renames in order, each one asked for by a caller |
| UploadTheorems.TargetsAreWholeFiles | pkg/storage/sftpbackend.go:119-158 | After any run a path that is no temporary file holds its old value or one complete source |
| UploadTheorems.EachByteSentOnce | pkg/storage/sftpbackend.go:138-152 | With resume, over any number of attempts, a file about to be renamed has cost exactly its length in bytes sent; Create only meets absent or empty files |
| UploadTheorems.OverlapIsNotAtomic | pkg/storage/sftpbackend.go:32-36 | Two keys with one temporary file and two locks: a concrete run publishes an empty file for a non-empty source |
| UploadTheorems.AtomicIffStripesAgree | pkg/storage/sftpbackend.go:119-120 | All runs are atomic if and only if keys meeting in one non-empty temporary file share a lock |
| UploadTheorems.SpellingsShareTempPath | pkg/storage/sftpbackend.go:219 | Doubling a slash in a key changes the key the lock is taken on but neither its target nor its temporary path |
| UploadTheorems.TwoSpellingsAreNotAtomic | pkg/storage/sftpbackend.go:119-120 | Two spellings of one clean key under two locks, with one non-empty content: some run of the SFTP backend from an empty server is not atomic |
| SftpBackend.SFTPBackend.StatTemp | pkg/storage/sftpbackend.go:132-146 | The size found is that of the temporary file; with resume a complete one is only renamed, a shorter one appended to, and any other, or any at all without resume, written anew |
| SftpBackend.SFTPBackend.UploadWithResume | pkg/storage/sftpbackend.go:213-260 | On success the temporary file holds the whole source; on failure nothing else changed and, with resume, nothing already sent was lost; enough remaining link means success |
| SftpBackend.SFTPBackend.RenameFile | pkg/storage/sftpbackend.go:262-282 | Success puts the whole content at the target and removes the temporary file, failure changes nothing |
| SftpBackend.SFTPBackend.UploadFile | pkg/storage/sftpbackend.go:119-158 | Success is exactly the atomic put, less the temporary file; failure changes at most the temporary file, which stays a prefix and with resume never shrinks; with resume a connection that lasts for the rest is enough; a call whose stripe is taken waits and changes nothing; the lock is back otherwise; the call is a run of the upload machine |
| Sync.StepKeepsPlan | pkg/handler/filesync.go:72-99 | One step of any worker keeps every target within the values its tasks can put there, and a file is gone only when its content has landed, unless another content can come |
| Sync.RunKeepsPlan | pkg/handler/filesync.go:72-99 | The same over every interleaving of deliveries, redeliveries, retries and crashes |
| Sync.DeliveryIsIdempotent | pkg/handler/filesync.go:72-135 | However often tasks are delivered and interrupted, a target at which no second content can be put holds its first value or the one it settles on, and the latter once a task that needs it has succeeded |
| Sync.OwnTargetIsGuarded | pkg/handler/filesync.go:101-135 | A target that no other task has is one, and settles on what a single run of its task leaves |
| Sync.OtherPathsUntouched | pkg/handler/filesync.go:72-99 | Paths that are neither targets nor temporary files never change |
| Sync.FinalTreeIsDetermined | pkg/handler/filesync.go:72-135 | With no second content for any target, any two runs in which every task succeeded leave the same remote tree, temporary files aside |
| SyncLoss.SkippingLosesContent | pkg/handler/filesync.go:125-134 | Skipping a target of equal size and other content, then deleting, loses the source's bytes |
| SyncLoss.OvertakenTaskIsLost | pkg/handler/filesync.go:72-99 | A task that decided to upload before another of its target ran, and uploads after, loses the other's deleted bytes |
| SyncLoss.OverwrittenTaskIsLost | pkg/handler/filesync.go:125-131 | So does one that finds the other's content of another size |
| SyncLoss.NoBytesLostIff | pkg/handler/filesync.go:72-99 | For tasks with any mix of flags and targets: no run loses a byte if and only if no deleting task can skip a target of equal size and other content, and none shares its target with a task that can put another content there |
| Sync.FilesWithoutTasksStay | pkg/handler/filesync.go:89-96 | A file that no task names is never changed or deleted |
| Sync.DeletionsAreTried | pkg/handler/filesync.go:72-99 | In every run a task that asks for deletion is acknowledged only after a worker of its own, done with the target, has tried to delete the file; a published file is gone exactly when such a try, of a task that asks for it, removed it |
| SyncProgress.AbleWorkerEnds | pkg/handler/filesync.go:72-99 | A worker with its file in place and its lock free, or past the need for the file, can bring its task to acknowledgement by its own steps |
| SyncAck.NotFinishableStays | pkg/handler/filesync.go:72-99 | No step of anyone makes a task beyond help finishable again |
| SyncAck.AcknowledgeableIff | pkg/handler/filesync.go:72-99 | From a reachable state a task can still be acknowledged if and only if it has been, its file is in place, a worker has it in hand and needs the file no more, or one knows the size and another task can still put a content of that size at the target |
| Publisher.ScanFiles | pkg/publisher/publisher.go:44-56 | The scan succeeds exactly when every node can be read, and then holds the leaves in order |
| Publisher.LeavesExact | pkg/publisher/publisher.go:44-56 | The scan holds a path exactly when it leads to a non-directory leaf |
| Publisher.LeavesDistinct | pkg/publisher/publisher.go:44-56 | No path is scanned twice |
| Publisher.LeavesInWalkOrder | pkg/publisher/publisher.go:44-56 | The paths are scanned in the order of the walk |
| Publisher.SlashedIsReplaced | pkg/publisher/publisher.go:68 | Cutting the names of a path at their backslashes is replacing backslashes by slashes in the joined name |
| Publisher.TargetText | pkg/publisher/publisher.go:59-75 | On strings: the target, a slash unless it ends in one, and the relative path with its backslashes replaced |
| Publisher.FileTargetText | pkg/publisher/publisher.go:130-139 | A single file's target is the item's, with the file's name added if that ends in a slash |
| Publisher.SameTargetIff | pkg/publisher/publisher.go:59-75 | Two files get one target exactly when their names, backslashes replaced by slashes, are equal |
| Publisher.TargetGivesFileBack | pkg/publisher/publisher.go:59-75 | Without backslashes, a target less its prefix is the file below the base |
| Publisher.BackslashCollides | pkg/publisher/publisher.go:68 | The file `a\b` and the file `b` in directory `a` share a target |
| Publisher.FreshTargetsAreKept | pkg/publisher/publisher.go:161-176 | A queue keeps all payloads whose unique ones have targets of their own, new to it |
| Publisher.KeptExact | pkg/publisher/publisher.go:161-176 | It keeps exactly the payloads whose task ids were not taken, before the call or by an earlier unique payload |
| Publisher.KeptMeans | pkg/publisher/publisher.go:161-176 | The same spelled out: not unique, or a target that is no task id from before the call and no earlier unique payload's |
| Publisher.KeptIsDistinct | pkg/publisher/publisher.go:161-176 | No two unique payloads it keeps have one target |
| Publisher.Publisher.EnqueueFiles | pkg/publisher/publisher.go:126-177 | The queue grows by what it keeps of the offered prefix of one item's payloads, each the file's with its target and the item's flags, all of them if it keeps answering |
| Publisher.Publisher.PublishFileSyncTaskAsFiles | pkg/publisher/publisher.go:78-185 | For every list of items: each leaf of each item before the first refused one is offered in item order and walk order, as far as the queue answers, and nothing else; and the reply is the queue's failure, the refusal, or none |
| Publisher.OfferedAt | pkg/publisher/publisher.go:125-177 | Where in the offer the k-th leaf of the i-th item is, with what base, target and flags |
| Publisher.OfferedCount | pkg/publisher/publisher.go:85-185 | The offer is as long as the leaves before the first refused item are many |
| Publisher.RefusalMeans | pkg/publisher/publisher.go:86-117 | Exactly when an item is refused, and for which reason |
| Publisher.DirectoryIsPublishedOneToOne | pkg/publisher/publisher.go:107-177 | For every tree: each leaf has exactly one task, unless the item is unique and its target is taken or an earlier leaf's; no two tasks have one file, nor one target if the item is unique or no names differ only in the kind of slash |
| EndToEnd.TargetIsFileKey | pkg/publisher/publisher.go:59-75 | Under a clean target directory a leaf with ordinary names, backslashes counting as slashes, gets a clean file key without the temporary shape |
| EndToEnd.OneFileIsPublishable | pkg/publisher/publisher.go:107-129 | The hypotheses can be met: a directory of one ordinarily named file and a clean target, whatever the hash |
| EndToEnd.QueueIsWellPlanned | pkg/publisher/publisher.go:141-177 | Payloads of distinct files and clean targets meet every hypothesis of the sync and upload machines, whatever targets they share |
| EndToEnd.QueueLosesNothingIff | pkg/publisher/publisher.go:161-177 | All offered files keep their bytes in every run of what the queue kept if and only if no queued deleting one can skip other content or have other content put at its target |
| EndToEnd.PublishedCallLosesNothing | pkg/publisher/publisher.go:78-185 | The same for any call of any items, as far as it got |
| EndToEnd.OneItemIsPublished | pkg/publisher/publisher.go:85-177 | A call on one item that is not refused offers that item's payloads and nothing else |
| EndToEnd.PublishedDirectoryLosesNothing | pkg/handler/filesync.go:72-99 | In every reachable state of every run every leaf's bytes are in place or whole at their target, if and only if, of the leaves that have a task and are to be deleted, none meets a target of equal size and other content with overwriting off and those that share a target share their content; whatever task ids were taken |
| EndToEnd.CollidingNamesLoseBytes | pkg/publisher/publisher.go:68 | The file `a\b` beside `b` in `a`, of other content, published with deletion onto an empty remote: some run loses one of them |
| EndToEnd.AcknowledgedIsDelivered | pkg/handler/filesync.go:72-135 | An acknowledged file is whole at its target, unless that could be skipped for its size or disturbed by another task |
| FileSync.UploadFile | pkg/handler/filesync.go:156-213 | At most R+1 attempts, only network and internal storage errors before the last and none of them given up on, the result is the last attempt's, and the backoff spent is the sum of the doubling waits |
| FileSync.BackoffIsBounded | pkg/config/config.go:41-42 | Before attempt a the backoff is d·(2^(a-1) - 1), at most 930 s under the configured limits |
| FileSync.LocalTree.CleanupEmptyDirectories | pkg/handler/filesync.go:254-265 | Removes exactly a chain of ancestors with no file below, stops at the first one absent, unreadable, non-empty or not removable, touches no file, and terminates for every tree |
| FileSync.LocalTree.DeleteFile | pkg/handler/filesync.go:245-265 | Removes the file and then its directories from the innermost on, exactly up to the first that is absent, unreadable, not removable or not empty; none with a file below |
| FileSync.NothingBelow | pkg/handler/filesync.go:260-261 | In a tree, a directory without entries has no file anywhere below it |
| FileSync.FileSyncHandler.ShouldUploadFile | pkg/handler/filesync.go:101-135 | Upload exactly when overwriting, or the target is absent, reported as metadata or as a not-found error, or of other size |
| FileSync.FileSyncHandler.UploadOnce | pkg/handler/filesync.go:215-243 | The backend's upload; on success the cache has existence and the source's size under the target's key, if there is a cache with a client, the source can be measured, Redis answers and the key is allowed, and otherwise what it had |
| FileSync.FileSyncHandler.UploadRetrying | pkg/handler/filesync.go:156-243 | However failures are classified: success is the atomic put, recorded in the cache if it can be; anything else changes only the temporary file, and a lasting connection means success |
| FileSync.FileSyncHandler.SkipOrUpload | pkg/handler/filesync.go:72-87 | On success the target has the source's bytes unless it was there with their size and overwriting off; otherwise nothing changes but the temporary file; the cache is told of uploads only |
| FileSync.FileSyncHandler.UploadSingleFile | pkg/handler/filesync.go:72-99 | With the retry loop, undisturbed: success leaves the outcome the sync machine settles on and deletes on request, anything else leaves target and source alone, and a lasting connection means success |
| FileSync.FileSyncHandler.HandleSingleFile | pkg/handler/filesync.go:46-99 | The whole effect of a task on target, other remote paths, local files, cache and debouncer: a failure deletes and triggers nothing, a success deletes the task's file only on request and triggers once, a skip included, whatever becomes of the trigger |
| Debounce.Debouncer.TriggerSSH | pkg/ssh/debouncer.go:42-84 | Nothing when switched off or the store does not answer; otherwise the record has this second and the flag for a whole time to live, one task is queued a window ahead exactly when none was pending and the queue answers, and which failures are reported |
| Debounce.Debouncer.MarkTaskCompleted | pkg/ssh/debouncer.go:116-127 | The flag is cleared, the last request kept, the time to live renewed |
| Debounce.Debouncer.ShouldExecuteSSH | pkg/ssh/debouncer.go:129-141 | True exactly when a window of whole seconds has passed since the last request on record |
| Debounce.Debouncer.ProcessTask | pkg/handler/ssh.go:38-120 | Reschedules, refuses or runs, and marks completed when the command ends, well or badly |
| Debounce.QuietWindow | pkg/ssh/debouncer.go:86-141 | In every run, with any number of tasks, lateness, failures and expiry: a decision to execute comes more than a window less one second after the last saved trigger |
| Debounce.PendingFlagIsExact | pkg/ssh/debouncer.go:54-81 | In orderly runs the flag is set exactly when one task is queued or running, and a queued task is due strictly before the record expires |
| Debounce.EveryTriggerIsServed | pkg/handler/ssh.go:44-63 | In orderly runs the command has started less than two windows and at least one window, in whole seconds, after the last trigger, with at most one reschedule, however long the burst |
| Debounce.PostponedOnce | pkg/handler/ssh.go:44-63 | In orderly runs a trigger lies between any two postponements of the SSH task |
| Debounce.TriggerDuringCommandIsSwallowed | pkg/handler/ssh.go:81-117 | From every orderly state with a running command: a trigger before its completion is never served by any later event short of another trigger or a retry of the queue |
| Debounce.ServedIff | pkg/ssh/debouncer.go:54-81 | Whatever the store and the queue answer and whenever triggers come, retries apart: the last trigger is served in time if and only if it was not missed, that is, it fell neither into a running command nor under an orphaned flag, and its task could be enqueued and could reschedule |
| Debounce.MissedIsNeverServed | pkg/ssh/debouncer.go:54-81 | After a missed trigger no run without another trigger or a retry by the queue starts a command |
| Debounce.RetriesKeepTasks | pkg/handler/ssh.go:44-117 | With failed tasks retried, however tasks fail and however late they come: a trigger that found or left a task is started, or its task is in the queue or owed by it |
| Debounce.RetryServes | pkg/handler/ssh.go:44-63 | From a whole window after the last trigger, the first task, retried or not, that can read the record starts the command |
| Debounce.CanStillBeServedIff | pkg/handler/ssh.go:38-120 | An unserved trigger can still be served without another one if and only if a task is queued or owed a retry, or a command is running that may fail and be retried |
| Debounce.GapRestores | pkg/ssh/debouncer.go:106-114 | After two windows without a trigger and with no command running, the next one that can enqueue is served, whatever went wrong before |
| Debounce.FailedEnqueueSilences | pkg/ssh/debouncer.go:56-76 | One failed enqueue on a resting debouncer: however many triggers then keep the record alive, no task is queued and no command started |
| Debounce.ShortTtlFails | pkg/ssh/debouncer.go:112 | For every shorter time to live, an orderly run in which the record expires under a queued task |
| Debounce.TwoWindowsAreExactlyEnough | pkg/ssh/debouncer.go:106-114 | The record outlives every queued task in all orderly runs if and only if its time to live is at least two windows, the value the code has |
| Cache.StepKeepsSolo | pkg/cache/cache.go:70-91 | A step that cannot hurt a key keeps its lock with the call that is past it, and a released lock's key in the cache |
| Cache.OneQueryPerKey | pkg/cache/cache.go:58-118 | Without faults past the first read, in every interleaving, at most one storage query per key is in flight and no waiter falls through |
| Cache.OnePermitIsOneQuery | pkg/cache/cache.go:93-96 | With one permit there is at most one query, whatever fails |
| Cache.OnlyAllowedKeysAreCached | pkg/cache/cache.go:53-146 | No run brings a key that is not allowed into the cache |
| Cache.StepKeepsPermits | pkg/cache/cache.go:93-96 | Every step keeps free plus held permits constant |
| Cache.StepKeepsLocksOwned | pkg/cache/cache.go:70-91 | Every lock entry was stored by a call on that key still in progress, whoever deletes whose |
| Cache.ChecksNeverWedge | pkg/cache/cache.go:70-96 | In every reachable state, whatever failed, if a call is unfinished then some unfinished call can take a step that brings it closer to its end |
| Cache.NineStepsAtMost | pkg/cache/cache.go:53-127 | No call takes more than nine steps in any run, other than polls that find the lock still held |
| CacheTheorems.PositiveAnswersAreSound | pkg/cache/cache.go:53-146 | In every interleaving with every failure, a cached or answered "exists" is true of the backend, for keys that are not temporary names |
| CacheTheorems.CacheAgreesWithBackend | pkg/cache/cache.go:98-146 | For an allowed key, one spelling per object, whose checks and uploads do not overlap and whose uploads record themselves: with no upload in progress its entry, if any, has the backend's flag and size, whatever other keys do |
| CacheFaults.AbandonedWaitersBothQuery | pkg/cache/cache.go:71-93 | Two waiters whose lock went with nothing cached are both querying six steps later |
| CacheFaults.OneFaultIsEnough | pkg/cache/cache.go:79-96 | For each kind of fault, a run with that one fault and two queries for one key in flight |
| CacheFaults.OneQueryIff | pkg/cache/cache.go:58-118 | All runs with faults of a given set of kinds keep one query for a key if and only if the key is not allowed, there is at most one permit, the set is empty, or the key was cached and the set has neither failed re-reads nor clears |
| CacheFaults.OverlapLeavesStaleDenial | pkg/cache/cache.go:98-118 | A fault-free run in which a check overlaps an upload and the cache denies an object that is there, with nothing left in progress |
| CacheFaults.OneOverlapIsEnough | pkg/handler/filesync.go:227-240 | For each kind of overlap, a run with that one kind, nothing left in progress and a wrong entry |
| CacheFaults.CacheAgreesIff | pkg/cache/cache.go:98-146 | All runs with overlaps of a given set of kinds leave a key's entry right if and only if it was right at the start and the set is empty |
| CacheService.FileExistenceCache.CheckFileExists | pkg/cache/cache.go:53-127 | Reply and new shared state of one check in every case: a key that is not allowed is rejected and nothing touched, a cached one answered from the cache whoever holds its lock, and otherwise the storage asked, at once or after the first sleep that finds the lock gone |
| CacheService.FileExistenceCache.SetFileExists | pkg/cache/cache.go:129-146 | Records existence and size for allowed keys, and nothing on an error or without a client |
| CacheService.FileExistenceCache.ClearCache | pkg/cache/cache.go:212-241 | Forgets one key, or for the empty key all that were listed, whatever others store before the deletion; nothing on an error or without a client |
| CacheService.ChecksGiveBack | pkg/cache/cache.go:91-96 | A check keeps no permit, and one that passed the lock leaves no lock on its key |
| CacheService.UndisturbedCheckIsARun | pkg/cache/cache.go:53-127 | An undisturbed check is a run of one call of the machine with the same reply and effect |
| CacheService.WaitingCheckIsARun | pkg/cache/cache.go:71-91 | A check that finds the lock taken, with any events of others in each nap, is a run of the machine with theirs, same reply and effect |
| Connections.RunKeepsInv | pkg/storage/sftp_manager.go:153-228 | Over every interleaving: message in the channel exactly while a closed wrapper's monitor runs, monitors mind every open connection |
| Connections.ClosedConnectionsNeverLeak | pkg/storage/sftp_manager.go:63-77 | Close never blocks on its channel, every wrapper but the current one is closed, a monitor that left through shutdown leaves nothing open, and every open connection has a running monitor |
| Connections.ClosedWrapperDrains | pkg/storage/sftp_manager.go:159-197 | A closed wrapper's monitor stops within three steps of its own, even when caught reconnecting, and then nothing of it is open |
| Connections.BasicSFTPManager.CloseConn | pkg/storage/sftp_manager.go:63-77 | The first close marks the wrapper closed, leaves the message for its monitor, ends its connection and returns what waiting returns; a second one changes nothing and fails |
| Connections.BasicSFTPManager.NewClient | pkg/storage/sftp_manager.go:202-228 | The whole new state: the old wrapper closed in any case, a new open one current on success, the old one kept on failure |
| Connections.BasicSFTPManager.GetConnection | pkg/storage/sftp_manager.go:232-241 | The current wrapper unchanged; when there is none, the whole new state after any number of dials by others in the gap and its own, and every wrapper but the one returned is closed |
| Connections.RacingCallersCloseEachOther | pkg/storage/sftp_manager.go:232-241 | Two callers that both find no connection: the first one's wrapper is closed by the second's dial |
| Connections.BasicSFTPManager.Close | pkg/storage/sftp_manager.go:244-254 | Afterwards there is no current wrapper and every wrapper is closed; the error is that of closing the current one |
| Connections.ReconnectsAreCounted | pkg/storage/sftp_manager.go:184-188 | The reconnect count is the number of connections the monitor has installed |
| Connections.HandsOutClosedIff | pkg/storage/sftp_manager.go:202-241 | With the mutex free, the wrapper handed out is closed if and only if since it was made it was closed or a replacement was begun; an open one has a running monitor |
| Connections.FailedReplacementSticks | pkg/storage/sftp_manager.go:202-241 | After a replacement whose dial fails, the closed wrapper stays current through anything but another NewClient or Close |

## Left out

- HTTP handlers, the queue monitor, daemon wiring, signal handling and logging: plumbing.
- Configuration loading and validation: only the bounds on retries, delays and the window appear, as preconditions.
- The S3 backend and its error codes: its upload is the atomic put that the SFTP path is proved to refine; errors are a parameter of the retry loop.
- SSH dialling and authentication, running the command, MIME types and JSON: success or failure is a parameter.
- The hash function itself: any function into 64-bit numbers, with injectivity on the contents in play as a hypothesis.
- `filepath.Clean`, `Dir`, `Base` and `Walk` are modelled on lists of names and trees; the error branch of `filepath.Rel` in `generateTargetPath` and remote `MkdirAll` are not.
- Key validation in `validateTargetPath`: an arbitrary predicate on keys in the cache machine.
- Debouncer handlers that interleave between reading and writing the record: a stale write can then move the last request back, so atomicity is a hypothesis.
- The queue's own retry schedule and retention: arbitrary redelivery.
- Two daemons on one remote: the locks are in memory and do not exclude each other.
- Fairness: `Cache.ChecksNeverWedge` and `Connections.ClosedWrapperDrains` say that steps exist and lead to the end, not that a scheduler takes them.
- The SSH trigger and the cache update of a sync task: left out of the sync machine; `FileSync` has them in one undisturbed call, and each has a machine of its own.
- SftpBackend.SFTPBackend.UploadFile: one call of one worker; an unreadable source takes and gives back the lock with no event in between. Calls that interleave are runs of the `Upload` machine.
- CacheService.FileExistenceCache.CheckFileExists: sees other callers only while it sleeps; full interleaving is in the `Cache` machine.
- FileSync.LocalTree.CleanupEmptyDirectories: the local directory tree is not linked to the map of local files in the sync machine.
- CacheTheorems.PositiveAnswersAreSound: temporary names, which a rename takes away, are not keys of the cache machine.
- CacheTheorems.CacheAgreesWithBackend: unclean spellings of one object, which have cache entries of their own, are not keys of the cache machine.
- Debounce.ServedIff: late tasks, commands that outlive the record and retries by the queue stay excluded; with them there is no bound on when, and `Debounce.CanStillBeServedIff` says whether.
- EndToEnd.PublishedCallLosesNothing: a file offered twice by one call is outside its hypotheses.
