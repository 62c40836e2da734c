# Verification of the video pipeline

A Dafny model of the video transcoding service, and proofs of what its parts promise together.

## What is modelled

**The job lifecycle** (`lifecycle.dfy`) is a transition system. Durable are the job records, the stored objects and
the upload URLs that clients hold; volatile are the bounded queue and the goroutines, each a program counter with
its own copy of a record. One step is one call to the store, to the object storage or to the queue, so a read and
the write that follows it are separate steps and anything can happen in between. Every call may fail, and a write
that fails may have been applied all the same. A crash can happen between any two steps; it drops everything
volatile and starts recovery, the sweepers and the workers afresh, while clients keep their URLs. Records are held
by value, as in the SQLite store.

The code of the handlers, the validator, the workers and recovery is sequential, and what is hard about it is how it
interleaves; so it is modelled as the steps of that system rather than as methods:

| code | steps |
|---|---|
| `internal/httpserver/handlerUpload.go` `handleCreateUpload` | `Create`, `StepCreator` |
| `internal/httpserver/handlerUpload.go` `handleCompleteUpload` | `Complete`, `StepHandler` |
| `internal/httpserver/handlerUpload.go` `validateAndEnqueue` | `StepValidator` |
| `internal/worker/pool.go` `runWorker`, `processJob`, `runTranscode`, `runTranscodeHLS` | `StepWorker` |
| `internal/httpserver/recover.go` `RecoverInterruptedJobs` | `StepRecovery`, `RedriveNext` |
| `internal/retention/retention.go` `SweepStaleUploads`, `sweep`, `deleteJobFiles` | `StepSweeper` |
| `internal/queue/channel.go` | `Enqueue`, `Enqueues`, the queue of `StepWorker` |
| clients, crashes, the clock, `cmd/server/main.go` | `ClientPut`, `Crash`, `Pass`, `Boot` |

On top of it, `sessions.dfy` and `ownership.dfy` prove the invariants, and `safety.dfy`, `redrive.dfy`, `liveness.dfy`,
`outcomes.dfy`, `conservation.dfy`, `downloads.dfy`, `objects.dfy` and `orphans.dfy` the results about whole runs; `races.dfy` and
`exceptions.dfy` have runs that the hypotheses exclude. `publishing.dfy` says what each step publishes, and `streams.dfy` follows one event stream through
a running system. No run is bounded: the results hold for any number of jobs, requests, workers, crashes and failing
calls.

What bytes a client uploads decides what is planned and packaged from them (`Jobs.Video`): at least one rendition, and
for HLS a tree that holds the master playlist, the playlist of every rendition and, with sound, that of the audio.
`playback.dfy` follows a player from the master to the stored files.

**The parts** are modelled in the form the code has: `retention.dfy` (the sweeps as loops over two stores),
`broker.dfy`, `sse.dfy`, `progress.dfy`, `playlist.dfy`, `prefix.dfy`, `keys.dfy`, `renditions.dfy`, `stores.dfy` and
`timestamps.dfy`.

## Hypotheses

Some results need what the code does not enforce. Each such condition is a named predicate:

- `Ownership.Guarded`: when a complete request marks its job, and when the sweep for abandoned uploads deletes
  something of a job, the job is still uploading. Used by the results of `ownership.dfy`, `safety.dfy`, `redrive.dfy`,
  `liveness.dfy`, `outcomes.dfy`, `downloads.dfy`, `objects.dfy`, `orphans.dfy` and `streams.dfy`. Neither half can be dropped:
  `RaceWithoutGuard` breaks the first, `SweepRaceWithoutGuard` the second alone. `MarkIsSafeExactly`,
  `DropIsSafeExactly` and `RawDeletionIsSafeExactly` say, write by write, how much of it is needed.
- `Conservation.PresignInTime`: a URL is issued within 44 minutes and 59 seconds of the record's creation time. Used by
  `RawObjectsHaveRecords`, and by `AllOrphansExactly` for raw objects. `LatePresignLeavesRaw` is a run without it.
- `tampered` is no hypothesis on runs but a history of them: the jobs whose raw bytes a client changed, or created
  again, after the job was accepted (`Lifecycle.Tampers`). `CompletedFromRawBytes`, `NoOrphans` and the results of
  `orphans.dfy` are about each job that is not in it. `TamperingLeavesRenditions` is a run of one that is.
- `Redrive.SmoothRun`: the run is guarded, and none of the calls fails at which the code drops the job in question
  (`Drops`: its status writes and the reads before them, unless the write of its end got through, and recovery's own
  calls for it). Any other call may fail. Used by `NoAcceptedJobLost`; `Smooth` is the same for endless runs, used by
  `EveryJobEnds`. `ForgottenExactly` is the converse, for every guarded step.
- `Liveness.Fair`: when recovery, a validator or a worker can take a step, sooner or later one of them does. Used by
  `RecoveryReturns`, `ComesToRest`, `EveryJobEnds` and `GoodUploadCompletes`.
- `Outcomes.WellServed`: no call made for the job in question fails or gives up. Used by `GoodUploadCompletes` only, as
  what makes an upload a good one; `BadUploadNeverQueued` and `FailedWorkNeverCompletes` are about the others.
- A client's PUT succeeds only through a URL that was issued and before it expires. This is part of the model
  (`Lifecycle.Enabled`), as the storage's promise.

## What turned out to be false

- Two racing complete requests can both mark a job and start two validators for it (`RaceWithoutGuard`).
- The sweep for abandoned uploads can delete a job that was accepted after it was listed, with its validator at work
  (`SweepRaceWithoutGuard`).
- The text of a time does not always sort like the time. The exact exception is `Misordered`; a whole second, for
  one, sorts after every later time of the same second (`WholeSecondComesLast`). The sweeps err by less than a second.
- The renditions a failed MP4 job already uploaded stay in storage when the job expires: `FailedUploadLeaks` is a run,
  `OrphansExactly` and `DropLeavesExactly` say exactly when.
- After an enqueue that failed, "failed" is published even where storing it failed too, so an event stream can end
  with a state the store does not have: `UnstoredEnd` and `UnfoundedEnd` are runs, `PublishedEndIsStoredExactly`,
  `UnstoredExactly` and `StreamEndsWithTheTruth` say exactly when.
- A job in flight is lost until the next restart when one of the calls named by `Drops` fails (`ForgottenExactly`).
- A raw object can be left without a record when its URL is issued after the sweep has dropped the session
  (`LatePresignLeavesRaw`), and renditions of a completed job when its raw bytes were changed between two runs of the
  worker (`TamperingLeavesRenditions`).
- A master playlist can be read back only if no rendition name holds a line feed or starts with `#` (`RoundTrip`);
  the names of the built-in ladder satisfy this (`DirectoriesDistinct`).

## Model

| member | source | states |
|---|---|---|
| Ownership.SingleOwnership | internal/httpserver/handlerUpload.go:208-305 | in every guarded run, with any failures, crashes and recoveries, each job has at most one owner among validators, queue slots, workers and recovery, and its status is one that this owner may have it in; uploading and finished jobs have none |
| Ownership.OwnStep | internal/worker/pool.go:52-197 | every guarded step keeps the ownership invariant from any state that has it |
| Ownership.OneOwner | internal/httpserver/handlerUpload.go:230-236 | two owners of a job are the same goroutine or the same queue slot |
| Ownership.OwnerFits | internal/httpserver/recover.go:28-77 | an owner's job exists and has a status that fits the owner's program counter |
| Ownership.Settle | internal/httpserver/handlerUpload.go:230-236 | ownership survives any move of one goroutine that touches one job, provided what it claims afterwards is claimed by nobody else |
| Sessions.SessionStep | internal/httpserver/handlerUpload.go:102-121 | every step keeps id, kind, raw key and creation time of every record and of every copy of it, and ids stay unique |
| Safety.StatusOnlyAdvances | internal/worker/pool.go:87-91 | every guarded step follows the status graph: no status falls but by recovery's processing to pending, finished records never change, only uploading and finished records are deleted, and a deleted id never returns |
| Safety.StatusNeverFalls | internal/worker/pool.go:77-177 | over every guarded run without a crash, from any serving state, the rank of a job's status never falls, and a finished record stays as it is until it is deleted |
| Safety.NothingResurrects | internal/job/sqlite.go:155-196 | over every run, crashes included, a deleted id stays absent: updates and deletes of a missing id change nothing |
| Safety.WorkerFindsPending | internal/worker/pool.go:77-91 | the worker's unconditional write of processing always finds pending, and no one else owns the job |
| Safety.SweepTouchesNoOwner | internal/retention/retention.go:41-108 | a sweep step that deletes a record or an object of a job: the retention sweep never finds an owner, guard or no guard; the sweep for abandoned uploads finds one only where the job was accepted since it was listed, which the guard excludes |
| Safety.MarkIsSafeExactly | internal/httpserver/handlerUpload.go:208-221 | marking a job validating keeps the status graph and single ownership if and only if the job is still uploading, or validating with nobody driving it |
| Safety.RaceWithoutGuard | internal/httpserver/handlerUpload.go:167-221 | from any serving state with an uploaded, uncompleted job there is a run of two complete requests after which two goroutines own it |
| Races.SweepRaceWithoutGuard | internal/retention/retention.go:47-62 | from any serving state in which the sweep has listed an uploaded, uncompleted job there is a run in which one complete request, within the guard, is accepted and the sweep then deletes the job's bytes and record under its validator |
| Races.DropIsSafeExactly | internal/retention/retention.go:57-60 | the sweep's deletion of a listed upload's record keeps the status graph and the ownership invariant if and only if the job is not in flight by now |
| Races.RawDeletionIsSafeExactly | internal/retention/retention.go:51-56 | its deletion of the raw object takes it from no job in flight, driven or not, and from no downloadable job if and only if the job is still uploading, has failed, or is completed and expired |
| Safety.OnlyHandlersAccept | internal/httpserver/handlerUpload.go:205-213 | only a complete request takes a job out of uploading |
| Redrive.NoAcceptedJobLost | internal/httpserver/recover.go:28-82 | after a crash in any state, in a guarded run in which none of the calls fails at which the code would drop the job, once recovery has returned the job, if validating, pending or processing, has exactly one owner, though workers and validators run while recovery goes through its old listing |
| Redrive.CoverStep | internal/httpserver/recover.go:35-77 | every guarded step at which no call for the job fails keeps an accepted job covered: it has an owner, or recovery's list still holds it |
| Redrive.LostExactly | internal/worker/pool.go:77-98 | an owner's step leaves its job in flight with nobody to drive it if and only if its call is one of those failures and did not write the job's end |
| Redrive.ForgottenExactly | internal/httpserver/recover.go:35-77 | every guarded step of anybody leaves an accepted job without an owner and off recovery's list if and only if it is a failing call at which the code drops the job |
| Liveness.NeverStuck | internal/queue/channel.go:19-36 | with a worker, in every state after recovery's listing in which anything is left to do, some step of recovery, a validator or a worker can be taken, though no call gives up waiting |
| Liveness.FullQueueMoves | internal/queue/channel.go:19-27 | whoever waits for a slot of the full queue, before or after recovery has returned, a worker can take its next step |
| Liveness.MeasureDecreases | internal/worker/pool.go:52-61 | every step of recovery, a validator or a worker lowers a lexicographic measure, whether its call succeeds, fails or gives up |
| Liveness.EnvironmentKeepsLevel | cmd/server/main.go:56-70 | steps of sweepers, clients, the clock and requests leave that measure as it is, but for a complete request that is accepted |
| Liveness.RecoveryReturns | cmd/server/main.go:56-80 | with a worker, recovery returns in every endless crash-free guarded run of any actions at all, sweepers, clients and the clock included, in which the goroutines are not all starved, for any number of jobs and failing calls |
| Liveness.ComesToRest | internal/worker/pool.go:52-61 | in every such run in which from some point on no complete request is accepted, everything is worked off: empty queue, no validator, idle workers |
| Liveness.RestLeavesNothing | internal/worker/pool.go:140-190 | at rest a job that is still in flight is one that a failed call made its owner drop |
| Liveness.EveryJobEnds | internal/worker/pool.go:140-190 | in every such run every accepted job that no failing call drops is at some point completed, failed or deleted |
| Outcomes.GoodUploadCompletes | internal/worker/pool.go:140-190 | a good upload is completed: in every such run in which no call made for an accepted job fails or gives up, not its probe, enqueue, download, ffmpeg, uploads nor status writes, the job, MP4 or HLS, is at some point completed |
| Outcomes.BadUploadNeverQueued | internal/httpserver/handlerUpload.go:242-270 | a bad upload gets no further: once its probe has failed, over every guarded run of the process the job is validating, failed or gone, and never in the queue |
| Outcomes.FailedWorkNeverCompletes | internal/worker/pool.go:140-168 | once the download, ffmpeg or an upload has failed for a job, over every guarded run of the process it is processing, failed or gone, and never in the queue |
| Outcomes.FailedWorkIsStored | internal/worker/pool.go:149-160 | when that write works, the job is failed and nothing else has changed |
| Outcomes.AcceptedExactly | internal/httpserver/handlerUpload.go:167-222 | a complete request with nothing in between is accepted if and only if the session is still uploading and its object is there, not empty and of 2 GiB at most; then the record is validating and its validator started, else nothing changes |
| Outcomes.SessionCreated | internal/httpserver/handlerUpload.go:109-121 | creating a session stores an uploading record at 0 percent for a new id, with the raw key of that name, and changes no other record |
| Outcomes.SessionOrNothing | internal/httpserver/handlerUpload.go:123-137 | a client has a URL for 15 minutes and its record, or neither when the URL cannot be issued and the rollback works |
| Outcomes.CreatesExactly | internal/httpserver/handlerUpload.go:62-65 | a create request is let in if and only if fewer than 20 jobs wait, once the server runs |
| Outcomes.QueueIsBounded | cmd/server/main.go:50-50 | over every run, guarded or not, never more than 100 jobs wait |
| Outcomes.FirstInFirstOut | internal/queue/channel.go:19-36 | an enqueue can succeed if and only if fewer than 100 jobs wait and puts its job last; a worker takes the first |
| Outcomes.RejectionFails | internal/httpserver/handlerUpload.go:242-264 | the three calls of a rejection, when they work, delete the raw object, mark the job failed and change nothing else |
| Outcomes.FailuresAreUndone | internal/httpserver/handlerUpload.go:266-301 | after a failed probe comes the rejection; after a failed enqueue the job is marked failed and its raw object deleted |
| Outcomes.WorkerReports | internal/worker/pool.go:261-293 | a tick moves the worker's copy, the band last persisted and the stored progress exactly as the callback of `progress.dfy` does |
| Outcomes.ProgressFitsStatus | internal/worker/pool.go:87-91 | a job is queued and taken up at 0 percent, put back by recovery at the percentage it had, and completed at 100 |
| Conservation.RawObjectsHaveRecords | internal/retention/retention.go:41-64 | in every run that presigns in time, every raw object has a live record that names it: URL expiry and text comparison together stay below the sweep's age limit |
| Conservation.ClockStep | internal/httpserver/handlerUpload.go:107-136 | every step keeps the clock invariant that bounds how long any URL of a job can live |
| Conservation.InTimeExactly | cmd/server/main.go:64-69 | URLs live 15 minutes, sessions an hour, finished jobs 48; in time means within 44 minutes and 59 seconds of the session's creation |
| Conservation.PutMissesSweep | cmd/server/main.go:64-69 | a client's PUT never lands on a key whose record a sweep is about to drop |
| Downloads.CompletedIsDownloadable | internal/worker/pool.go:314-350 | in every guarded run a completed, unexpired record can be fetched: the .mp4 of each of its outputs, of which there is at least one, or the master playlist, the playlist of each output and every file of the tree, all in storage and all made from one and the same content, whatever happens to the raw object |
| Objects.CompletedFromRawBytes | internal/worker/pool.go:217-240 | that content is what the raw object still holds, for each job whose raw bytes no client changed after it was accepted |
| Objects.TamperedExactly | internal/httpserver/handlerUpload.go:123-123 | a job counts as tampered with exactly once a client's PUT has changed its bytes after the job was accepted |
| Objects.HonestClients | internal/httpserver/handlerUpload.go:123-123 | so no job is whose URL its client leaves alone, or uses for the same bytes only, once the job is accepted |
| Objects.NoOrphans | internal/retention/retention.go:84-134 | in every guarded run, what workers made for a job nobody tampered with is without a record only if it is a rendition of an MP4 job that was dropped while failed |
| Objects.ObjStep | internal/worker/pool.go:485-499 | every guarded step keeps the invariant that ties the status of each job nobody tampered with to its objects in storage |
| Orphans.OrphansExactly | internal/retention/retention.go:84-134 | in every guarded run, of what workers made for a job nobody tampered with exactly the renditions uploaded for MP4 jobs dropped while failed have no record |
| Orphans.AllOrphansExactly | internal/retention/retention.go:41-134 | the same for every object, raw ones included, where URLs are issued in time |
| Orphans.DropLeavesExactly | internal/retention/retention.go:127-132 | dropping an expired job nobody tampered with leaves an object that workers made in storage if and only if it is an MP4 job that failed after one of its renditions had been uploaded; its raw object is gone where URLs are issued in time |
| Orphans.FailedUploadLeaks | internal/worker/pool.go:485-499 | from any state with a worker that has two renditions left to upload there is a run within all conditions after which the first is in storage and the job has no record |
| Exceptions.LatePresignLeavesRaw | internal/httpserver/handlerUpload.go:118-137 | from any state in which the sweep is about to drop a session whose URL is not issued yet there is a guarded run after which a raw object has no record |
| Exceptions.TamperingLeavesRenditions | internal/worker/pool.go:485-499 | from any state in which an interrupted MP4 job waits in the queue and its URL is still valid there is a guarded run in which other bytes are uploaded, the job completes and expires, and a rendition of its first run has no record |
| Retention.Service.Sweep | internal/retention/retention.go:84-108 | a sweep deletes only due records and their files, never a record before its files are gone; without errors it reaches the state of a clean sweep (`CleanSweepExactly`) |
| Retention.Service.DeleteJobFiles | internal/retention/retention.go:110-134 | if it succeeds the raw object is gone, of an HLS job the whole tree and of an MP4 job every output, and whether or not it does, nothing of another job and no record; a failure stops it |
| Retention.CleanSweepExactly | internal/retention/retention.go:110-134 | which objects a clean sweep takes, by kind of job and key: raw objects, trees of HLS jobs, listed renditions of MP4 jobs, all of due records only; and exactly the due records |
| Retention.CompletedIsCleanedUp | internal/retention/retention.go:120-132 | of a completed, expired job a clean sweep leaves nothing that a worker uploads for its content, nor the raw object |
| Retention.StepsSweepClean | internal/retention/retention.go:84-108 | the sweeper of the transition system, uninterrupted, from any listing in any order, ends in the records and objects of a clean sweep |
| Retention.InterruptedSweepsConverge | internal/retention/retention.go:91-107 | whatever an interrupted sweep did, a full sweep afterwards reaches the state that one uninterrupted sweep would have reached |
| Retention.SweptAgain | internal/retention/retention.go:47-62 | any number of interrupted sweeps in a row does what one interrupted sweep may do |
| Timestamps.TextOrder | internal/job/sqlite.go:141-142 | for all UTC times of the years 0 to 9999, RFC3339Nano texts compare like the times, except that the order is reversed exactly when both lie in one second and one trimmed fraction is a proper prefix of the other |
| Timestamps.TextBeforeWithinASecond | internal/job/sqlite.go:218-232 | a text comparison with a cutoff is right whenever the seconds differ, and errs by less than a second |
| Timestamps.WholeSecondComesLast | internal/job/sqlite.go:234-240 | a whole second sorts after every later time of the same second |
| Timestamps.FormatParse | internal/job/sqlite.go:121-126 | parsing what was formatted gives the time back, to the nanosecond |
| Timestamps.FormatLayout | internal/job/sqlite.go:121-126 | the text has the layout of RFC 3339 with up to nine digits of fraction, none of them a closing zero, and Z |
| Timestamps.Epoch | internal/job/sqlite.go:141-142 | the calendar is anchored: day numbers of 1970-01-01 and of the leap day of 2000 |
| Timestamps.FromSecondsInverse | internal/job/sqlite.go:141-142 | the civil date of every second stands for that second |
| Timestamps.CivilOrder | internal/job/sqlite.go:141-142 | civil dates compare field by field like the seconds they stand for |
| Stores.ListingsAgree | internal/job/sqlite.go:218-224 | SQL and in-memory listings of expired jobs agree on a job if and only if its time is not misordered with the cutoff; every job of an earlier second is listed, none of a later one |
| Stores.UploadListingsAgree | internal/job/sqlite.go:226-232 | the same for abandoned uploads |
| Stores.RecentOrdersAgree | internal/job/sqlite.go:234-240 | a newest-first listing by time is one by text, and the other way round, if and only if no two of its jobs are misordered; by text no job ever follows one of an earlier second |
| Stores.MemoryStore.Create | internal/job/store.go:56-61 | the record is stored under its id and the store shares the caller's object |
| Stores.MemoryStore.Get | internal/job/store.go:63-71 | the record's value, or nothing for a missing id |
| Stores.MemoryStore.Update | internal/job/store.go:73-81 | replaces an existing record; a missing id is an error and nothing changes |
| Stores.MemoryStore.Delete | internal/job/store.go:83-91 | removes exactly that record; a missing id is an error |
| Stores.MemoryStore.ListOlderThan | internal/job/store.go:93-104 | exactly the finished records created before the cutoff, each once |
| Stores.MemoryStore.ListStaleUploads | internal/job/store.go:106-116 | exactly the uploading records created before the cutoff, each once |
| Stores.MemoryStore.ListRecent | internal/job/store.go:118-132 | the newest records, newest first: the beginning of a sorted listing of all of them |
| Stores.WriteThrough | internal/job/store.go:59-79 | a stored object that its owner writes changes in the in-memory store without any call |
| Stores.ListVideos | internal/httpserver/handerStatus.go:60-74 | the shelf shows completed jobs only, is always the beginning of the ideal list of newest completed jobs, and all of it if and only if it is full or nothing completed lies beyond the oversampled window; within the window no completed job newer than the last shown is missing |
| Broker.InOrder | internal/events/event.go:34-74 | what a listener received and what waits for it are, in order, some of the updates published while it held the slot, and at most four wait |
| Broker.DeliveredInOrder | internal/events/event.go:60-74 | what a listener has received is, in order, some of what was published |
| Broker.OnlyFullBuffersDrop | internal/events/event.go:68-73 | updates published balance with received, waiting and dropped ones, and drops happen exactly on four waiting |
| Broker.Broker.Subscribe | internal/events/event.go:34-43 | a taken slot is refused and nothing changes; otherwise the job's slot holds a new, empty, open channel |
| Broker.Broker.Unsubscribe | internal/events/event.go:45-55 | frees the slot only if this very subscription holds it; a repeated or stale call frees nobody's slot |
| Broker.Broker.Publish | internal/events/event.go:60-74 | reaches the one listener of that job, in order, or drops on a full buffer; closes nothing and touches no other subscription |
| Broker.Broker.Interleave | internal/events/event.go:34-74 | over any sequence of operations of other goroutines a subscription stays open and keeps its slot until its own goroutine unsubscribes, and its channel is offered exactly the updates published for its job |
| Broker.Subscription.Receive | internal/httpserver/handleJobEvents.go:76-79 | takes the oldest waiting update; a channel reports itself closed only when it is closed and drained |
| EventStream.HandleJobEvents | internal/httpserver/handleJobEvents.go:34-102 | over a broker shared with any other goroutines, the client is sent the first state, then exactly the updates its channel delivered, each unchanged and in order, which are an in-order part of those published for the job, and then at most one message read from the store, exactly when a read of it showed an end; the stream ends by itself only right after its single terminal message, never on a closed channel, and frees its slot |
| Publishing.PublishedEndIsStoredExactly | internal/httpserver/handlerUpload.go:284-305 | at the step that publishes it, a published end is the stored status, or the record is gone, if and only if the step does not end a failed enqueue whose "failed" did not reach the store |
| Publishing.UnstoredExactly | internal/httpserver/handlerUpload.go:286-292 | that branch is reached if and only if the write of "failed" does not reach the store |
| Publishing.UnstoredEnd | internal/httpserver/handlerUpload.go:286-300 | from any state with a validator about to enqueue there is a run that publishes "failed" while the record stays pending |
| Publishing.StatusWritesArePublished | internal/worker/pool.go:87-110 | every successful write of a status is published with the status and, but for the first, the progress that were written; the exceptions are pending, recovery's writes and the write after a failed enqueue, and no others |
| Publishing.TicksArePublished | internal/worker/pool.go:288-292 | every percentage the encoder reports is published as it is kept in memory |
| Streams.StreamEndsWithTheTruth | internal/httpserver/handleJobEvents.go:34-102 | over every guarded run with a listener, whatever the broker dropped and whatever failed, a stream that ended by itself sent one terminal message, as its last, and the store has that status, or the record is gone, if and only if the message did not come from a failed enqueue whose "failed" did not reach the store |
| Streams.StreamEndsPromptly | internal/httpserver/handleJobEvents.go:84-98 | given that reads of the store succeed, at most one message that is not terminal is sent after the store has the job's end, and the next re-check closes the stream |
| Streams.StreamRelays | internal/httpserver/handleJobEvents.go:70-98 | over every run of the system with a listener, the stream shows the first state, then all updates its channel delivered, unchanged and in order, then at most one end read from the store |
| Streams.UnfoundedEnd | internal/httpserver/handlerUpload.go:286-300 | from any state with a waiting listener and a validator about to enqueue there is a run after which the stream has ended with "failed" while the record is pending |
| Progress.Reporter.OnProgress | internal/worker/pool.go:261-293 | every tick is clamped to 0..100, kept in memory and published; a write happens on every change of band and on every 100, and one that succeeds leaves no gap between store and memory |
| Progress.SameBand | internal/worker/pool.go:270-286 | after every tick sequence whose last due write got through, stored and live progress share their band of ten |
| Progress.CrashLosesOneBand | internal/worker/pool.go:270-275 | when every write gets through, a crash at any tick loses less than ten points |
| Progress.FewWrites | internal/worker/pool.go:461-478 | ticks that never go back cost at most nine writes and one for each tick at 100 |
| Progress.ReadProgress | internal/transcoder/transcoder.go:193-215 | the loop reports one percentage for each time that the encoder prints, the share of the source put out by then rounded down, 100 exactly once all of it is, and a closing 100 on success |
| Progress.PercentIsShare | internal/transcoder/hls.go:259-262 | for every time t of a source of d seconds the reported p satisfies p * d * 10^6 <= 100 * t < (p + 1) * d * 10^6 below 100, and it is 100 exactly when t has reached d |
| Progress.ReportedInOrder | internal/transcoder/transcoder.go:203-209 | percentages lie in 0..100 and never go back when the encoder's times do not |
| Progress.ReportedComplete | internal/transcoder/hls.go:259-265 | without negative times no report is skipped |
| Progress.TranscodeWritesLittle | internal/transcoder/hls.go:248-271 | a successful transcode whose clock never runs back ends at 100 with at most nine writes besides those at 100 |
| Playlist.WriteMasterPlaylist | internal/transcoder/hls.go:397-427 | the text opens with the three lines of an HLS master of version 7 and, read as RFC 8216 says, yields exactly the variants written if and only if their names suit a playlist |
| Playlist.RoundTrip | internal/transcoder/hls.go:413-421 | for every variant list: each stream tag is followed by its own URI and all attributes come back, precisely for names without line feed that do not start like a tag |
| Playlist.AudioGroupsDeclared | internal/transcoder/hls.go:403-412 | every variant is read back with all its figures and its own playlist.m3u8; the audio codec is listed, and the one audio group with its playlist declared and referred to, if and only if the source has audio |
| Playback.StreamsArePackaged | internal/transcoder/hls.go:212-212 | every URI a player reads in the master is the playlist the packager wrote for that variant |
| Playback.PlayerCanFetch | internal/httpserver/handleHLS.go:62-76 | of a published HLS job every playlist that the master names is served from storage, from content that the master was made of |
| Playback.AudioIsServed | internal/transcoder/hls.go:404-404 | the master declares an audio playlist if and only if there is sound, and it is served too |
| Playback.MasterIsServed | internal/httpserver/handleHLS.go:62-76 | and so is the master itself, under the key that the record names |
| Playlist.ReadAttributesBack | internal/transcoder/hls.go:419-419 | any well-formed attribute list is read back, commas inside quotes included |
| Prefix.Bucket.DeletePrefix | internal/storage/b2.go:88-128 | success deletes exactly the keys that the pages name, in batches that do not depend on the paging; after an error the batches sent are a prefix of those, and no other object is touched |
| Prefix.BatchesPartition | internal/storage/b2.go:115-125 | the batches have 1 to 1000 keys, all but the last 1000, and put together are the listing |
| Prefix.SentInOrder | internal/storage/b2.go:99-107 | after an error the keys sent are the first keys of the listing |
| Keys.KeyTextInjective | internal/worker/pool.go:314-383 | keys of different jobs, kinds or files are different texts |
| Keys.PrefixCatchesTree | internal/retention/retention.go:120-126 | the prefix cleanup deletes catches a key if and only if it is a file of this very job's tree |
| Keys.ServedExactly | internal/httpserver/handleHLS.go:62-74 | a request is answered from storage if and only if its cleaned path is a path of the tree, and then from that key of that job |
| Keys.CleanRules | internal/httpserver/handleHLS.go:67-67 | the cleaning of paths follows the documented rules wherever they apply: dots and empty elements say nothing, a step up undoes the element before it |
| Keys.UploadedIsServed | internal/worker/pool.go:373-383 | every uploaded tree file is served by the URL that names it, from the key it was uploaded to |
| Keys.DownloadKey | internal/httpserver/handleDownload.go:31-63 | a download reads the key of the rendition it names if and only if the record is an MP4 job's and lists that name |
| Keys.RenditionKeysAgree | internal/worker/pool.go:517-517 | upload, download and cleanup build the same key for a rendition |
| Keys.UploadNameIsPlain | internal/httpserver/handlerUpload.go:88-107 | an accepted file name is a single plain path element, and every such name of up to 255 bytes is kept as it is |
| Keys.UploadNameIsLast | internal/httpserver/handlerUpload.go:88-92 | an accepted name is the part of the client's after its last separator of either kind, separators at the end aside |
| Keys.RawKeyText | internal/httpserver/handlerUpload.go:107-107 | the original is stored under raw/, the id and that name |
| Renditions.PlanRenditions | internal/transcoder/transcoder.go:103-122 | the plan is never empty, never upscales, and holds every rung that fits |
| Renditions.LargerSourceKeepsRungs | internal/transcoder/transcoder.go:110-115 | a larger source keeps every rung a smaller one got, in the same order |
| Renditions.RungsByEdge | internal/transcoder/transcoder.go:29-34 | each rung of the built-in ladder, with its bitrate, is planned if and only if the short edge reaches it; the stand-in if and only if it reaches none |
| Renditions.ComputedDimensions | internal/transcoder/hls.go:345-362 | the computed long edge is even, within -1/2 and 3/2 of the exact value, at least the short edge and at most the source's long edge plus one; portrait mirrors landscape |
| Renditions.MeasuredFirst | internal/transcoder/hls.go:340-342 | a measured size is used as it is unless one edge is not positive |
| Renditions.DirectoriesDistinct | internal/transcoder/hls.go:311-320 | with the built-in ladder every rendition has a directory of its own, whose name suits the master playlist; a source smaller than all rungs gets the one directory "native" |

## Left out

- ffmpeg, ffprobe, temporary files and byte copying: a transcode is a function of the raw bytes that may fail.
- The AWS SDK, the SQL engine and the file system: maps whose operations may fail; a crash keeps every committed write.
- The handlers, the validator, the worker and recovery as methods: they are steps over values, so their updates in place of a local record are new values, and sharing of records through the in-memory store is modelled in `stores.dfy` alone.
- HTTP wiring, logging, configuration, shutdown and the rate limiter, whose arithmetic is in golang.org/x/time/rate.
- Error texts and update times of records; nothing reads them.
- Job kinds other than mp4 and hls: creation refuses them, so the worker's branch for them is never taken.
- The limit of 20 waiting jobs bounds new sessions only; the queue itself holds 100.
- Floating-point rounding: percentages and dimensions are exact, and the frame rate is the text that is printed for it.
- Broker.Broker.Publish: lookup and send are one step; the code sends after releasing its lock, and nothing is claimed about an unsubscribe in between.
- EventStream.HandleJobEvents: the order in which one client sees progress is not claimed; its first message may be newer than updates still waiting.
- Stores.MemoryStore.ListRecent: the library's sort is replaced by an insertion sort; the order among equal times is not claimed.
- Stores.ListVideos: the parsing of the limit is left out; it is between 1 and 50.
- Redrive.NoAcceptedJobLost: about jobs that no failing call drops; where one does, the code logs it and leaves the job for the next restart.
- Streams.StreamEndsPromptly: about reads of the store that succeed; a failed one is made up for by the next wake-up.
- Liveness.RecoveryReturns: a scheduler that starves recovery, all validators and all workers for ever is excluded, and so is a crash, after which recovery starts anew.
- Conservation.RawObjectsHaveRecords: needs the URL to be issued in time; nothing in the code bounds the time between creating the record and signing the URL.
- Objects.CompletedFromRawBytes: about jobs whose raw bytes stay as they were when the job was accepted; the upload URL would still allow a client to replace them.
- Liveness.EveryJobEnds: about runs in which accepting stops; while requests keep coming, how long one job waits depends on the order in which goroutines are scheduled.
- Prefix.Bucket.DeletePrefix: errors of single keys within a delete request are not looked at, as in the code.
- Keys.ServedExactly: path.Clean is the Go library's; it is modelled by its documented rules.
