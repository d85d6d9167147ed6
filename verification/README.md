# A verified model of the code-execution service

The service runs untrusted programs for clients. An API queues jobs in Redis; a fleet of Go workers claims them,
each within a fixed number of slots; a sandbox is a container, or a child of a warm Python parent reached over a
framed relay; output goes to the browser as numbered events. This project models the parts whose correctness is not
visible in any one function, and proves it.

Run `dafny verify dfyconfig.toml`.

| file | models |
|---|---|
| `Bytes`, `Seqs`, `Options` | octets and lengths; sequence facts; a missing value |
| `Incremental` | incremental parsing of a stream cut anywhere |
| `RelayCodec`, `ArtifactPipeline`, `RelaySession` | relay frames; artifact records, re-framed; one job's session |
| `OutputBudget` | two output pumps on one byte budget |
| `Utf8`, `Chunking`, `OutputStream` | splitting output into events, numbering and reassembling them |
| `WorkspacePath`, `ShellQuote` | the path rule written three times; the quoted entrypoint |
| `Reaper`, `ReaperProtocol` | one sweep of the dead-worker reaper; sweeps interleaved with workers |
| `BlobIndex`, `BlobGC`, `BlobGCProtocol` | blob liveness and leases; one garbage collection; collections over time |
| `Blobs`, `JobHandler`, `Slots` | the lease ledger; every exit path of a job; the slot semaphore |
| `WarmPool` | the pool of warm parents |
| `StdinControl` | stdin and control messages across the compile and run phases |
| `Lifecycle` | the race of exit and clocks to end a session |
| `StartHandshake` | the durable start flag and the park gate |

## How concurrency is modelled

A protocol is a state, a set of events, `Enabled` and `Next`. One event is one Redis, Docker or network call, one
section under a lock, one atomic operation, or one channel operation. `ValidRun` admits every interleaving; main
results speak of `Final(init, es)` for every valid run `es`. Where a result needs a call to succeed or a time bound,
that is part of the theorem, never of the protocol, and next to it stands a run that shows why, or the exact
condition. Loops and objects that the repository updates in place are methods and classes, proved against the
functions the theorems are about.

## What turned out not to hold

- The agent's relay loop takes a received chunk that is exactly `b"x"` for a spurious wakeup and drops it
  (languages/python-3.12/zygote_agent.py:1107,1119). The loop is faithful if and only if no chunk is exactly that
  byte: `RelayCodec.RelayLoopFaithfulIffNoWakeupChunk`, `RelayCodec.RelayLoopDropsAByte`.
- `splitChunk` measures an unsplit chunk with sequence number 1 and halves an oversized piece once. As measured, the
  event size limit holds for all chunks over an alphabet if and only if none of its bytes escapes to more than two:
  `Chunking.MeasuredSizeFitsIff`. With the numbers events really carry it holds if and only if none escapes to more
  than one: `Chunking.SizeLimitHoldsIff`; 4086 newlines are sent unsplit and are one byte over from the tenth event
  on. The comments at internal/publisher/publisher.go:164-167 promise the limit outright.
- Halving is blind to characters. The events of a well-formed chunk are all well-formed if and only if it is sent
  unsplit or every halving happens to fall in front of a character: `Chunking.EventsAreTextIff`,
  `Chunking.HalvingCanCutACharacter`.
- The handler's closing Redis calls take the job's own context. When that is cancelled, as `Drain` does at its
  deadline (internal/worker/worker.go:464-467), the job stays in the owned set, its leases stay pinned and no
  terminal status is written; result, count, subscriptions, slot and cleanup are settled all the same:
  `JobHandler.CancelledParkStrandsTheJob`, `JobHandler.LeftOwnedIff`, `JobHandler.EveryPathBalances`.
- `Lease` pins a blob before it touches it, and a ref is recorded for release only when both succeed. Every lease
  comes back if and only if the release calls got through and no lease call failed in between for a ref not already
  held: `JobHandler.AllLeasesReturnedIff`, `JobHandler.HalfMadeLeaseLeaks`.
- A sweep that fails to read an owned-jobs set, or that looks while a heartbeat is late, can remove a live worker's
  running container, and so can any sweep after a failed ownership write: `ReaperProtocol.FailedReadReapsALiveJob`,
  `ReaperProtocol.LateHeartbeatReapsALiveJob`, `ReaperProtocol.FailedWriteReapsALiveJob`,
  `Reaper.OrphanIffNoReadableOwner`. A sweep may remove the container of a job under way if and only if one of these
  holds of that very sweep, or that job: `ReaperProtocol.SweepMayReapIff`. Failures and lapses anywhere else do not
  matter: `ReaperProtocol.LiveContainersAreNeverReaped`.
- A failed ownership write is only logged (internal/worker/worker.go:662-666) and a warm parent takes a job in spite
  of a cancelled context (internal/runner/zygote.go:91-122), so a sandbox can exist with no ownership on record;
  exactly when is `JobHandler.OwnershipCoversTheSandboxIff`.
- A blob used within the grace period can be collected when touches are short. The lock that keeps sweeps apart lives
  for the interval and a minute (apps/worker/main.go:350), so a longer sweep overlaps the next. However sweeps overlap,
  the grace holds if and only if touches live for the grace and the length of a sweep together, or recovered
  candidates are always dropped and touches live from one look to the next and, but for a millisecond, for the length
  of a sweep: `BlobGCProtocol.GraceHoldsIff`. The shipped defaults (24 hours against 30 minutes) meet the first unless
  a sweep takes most of a day.
- A dial under way while the pool is closed can launch a parent nobody removes: `WarmPool.LaunchedAfterClose`. What
  is left was always launched after the close (`WarmPool.ParentsAtCloseAreRemoved`), and closing is complete if and
  only if no dial is short of its launch (`WarmPool.CloseIsCompleteIff`).
- A job can reserve a parent that is gone, exactly when it was reaped, closed or dropped between the job's finding
  it and reserving it: `WarmPool.ReservesGoneParentIff`, `WarmPool.ReapedBeforeReserved`.
- The comment at internal/runner/zygote_pool.go:202-204 says only the owner of the map entry removes the container;
  the code, and the model, call the removal every time.
- A start published before the subscription is lost if the flag cannot be read, or has expired when it is; one
  published later, if it meets a full channel. A parked job has lost its start exactly when every start it could hear
  was dropped, and there was one or the flag was of no use: `StartHandshake.StartIsLostIff`.
- `reasonCanceled` (internal/session/lifecycle.go:27) is never used: no racer watches the parent context.

## Model

| member | source | states |
|---|---|---|
| Bytes.GetPutU32 | internal/runner/zygote_relay.go:117 | a big-endian length prefix is read back unchanged, whatever follows it |
| Bytes.PutGetU32 | internal/runner/zygote_relay.go:149 | every four octets are the prefix of exactly the number read from them |
| Bytes.NetworkOrder | internal/runner/zygote_relay.go:117-149 | the octets are in network order: prefixes compare like their numbers |
| Incremental.ChunkingIndependent | languages/python-3.12/zygote_agent.py:865-884 | any scanner that only looks at the bytes of its record emits the same records and keeps the same tail however the stream is cut |
| Incremental.Lossless | languages/python-3.12/zygote_agent.py:875-884 | emitted records and kept tail spell the buffer: nothing lost, nothing invented |
| Incremental.CutDecodes | languages/python-3.12/zygote_agent.py:875-884 | a stream cut anywhere yields exactly the records complete at the cut, and all of them only if nothing was cut off |
| RelayCodec.FrameReader.IterFrames | languages/python-3.12/zygote_agent.py:875-884 | the in-place loop yields every complete frame and leaves exactly the unconsumed tail in the buffer |
| RelayCodec.FrameReader.Receive | languages/python-3.12/zygote_agent.py:872-884 | feeding and draining chunk by chunk is the specification over the list of chunks |
| RelayCodec.FrameLaws | languages/python-3.12/zygote_agent.py:801-805 | the frame scanner and the frame encoder are inverse to each other and the scanner never changes its mind |
| RelayCodec.FrameLayout | internal/runner/zygote_relay.go:111-130 | one octet of type, four of length, the payload |
| RelayCodec.ReaderChunkingIndependent | languages/python-3.12/zygote_agent.py:801-884 | for every list of frames, every unfinished tail and every cutting: exactly that list and that tail |
| RelayCodec.FrameReader.ReceiveRelay | languages/python-3.12/zygote_agent.py:1102-1121 | the relay loop parses the chunks other than b"x" |
| RelayCodec.RelayLoopFaithfulIffNoWakeupChunk | languages/python-3.12/zygote_agent.py:1103-1121 | that is what the worker sent if and only if no received chunk is exactly b"x" |
| RelayCodec.RelayLoopDropsAByte | languages/python-3.12/zygote_agent.py:1107-1119 | a frame cut before a last byte "x" never completes |
| RelayCodec.Conn.ReadFull | internal/runner/zygote_relay.go:146-155 | however a read is split up: full exactly when enough bytes are to come, a clean end exactly when none are |
| RelayCodec.FrameDecoder.Next | internal/runner/zygote_relay.go:144-164 | the next frame, the over-cap refusal, or the kind of ending, and what is left to read |
| RelayCodec.FrameDecoder.DecodeAll | internal/runner/zygote_relay.go:144-164 | all frames up to the first failure, and that failure |
| RelayCodec.DecoderAgreesWithReader | internal/runner/zygote_relay.go:142-164 | the blocking decoder and the incremental reader agree on every stream without an oversized header, and a clean end is reported exactly on a frame boundary |
| RelayCodec.DecoderOnCutStream | internal/runner/zygote_relay.go:142-164 | frames within the cap, cut anywhere: the complete ones come back, and clean end exactly on a boundary |
| RelayCodec.WriteFrame | internal/runner/zygote_relay.go:111-130 | refuses exactly the over-cap payloads, else puts exactly one encoded frame on the wire |
| ArtifactPipeline.ArtifactReader.IterRecords | languages/python-3.12/zygote_agent.py:823-838 | every complete record in order; exactly the rest stays buffered |
| ArtifactPipeline.ArtifactReader.Receive | languages/python-3.12/zygote_agent.py:820-838 | the same, chunk by chunk |
| ArtifactPipeline.RecordLaws | languages/python-3.12/zygote_agent.py:673-676 | the child's record format and its parser are inverse to each other |
| ArtifactPipeline.RecordLayout | languages/python-3.12/zygote_agent.py:673-676 | length and name, length and data, in that order |
| ArtifactPipeline.SendArtifacts | languages/python-3.12/zygote_agent.py:841-862 | one frame per record within the cap, in order; the flag is set exactly when a record was dropped |
| ArtifactPipeline.WithinCapAppend | languages/python-3.12/zygote_agent.py:846-856 | record by record, in order, one is kept exactly if the payload of its frame fits the cap |
| ArtifactPipeline.DecodeFramedArtifact | internal/runner/zygote_relay.go:374-388 | the frame holds the length of the name, the name and the data; the worker takes out that very name and data, and its length cap accepts the frame |
| ArtifactPipeline.DecodedArtifactReframes | internal/runner/zygote_relay.go:374-388 | a payload the worker accepts is the frame of what it took out: the layout is unambiguous |
| ArtifactPipeline.PipelineDelivers | languages/python-3.12/zygote_agent.py:649-862 | child to worker for every cutting: the original files in order, minus exactly the over-cap ones, none rejected |
| ArtifactPipeline.PipelineOnCutStream | languages/python-3.12/zygote_agent.py:812-838 | a child that dies in the middle leaves its complete records and no fragment |
| RelaySession.RelayConn.Resolve | internal/runner/zygote_relay.go:358-363 | the exit channel gets at most one outcome |
| RelaySession.RelayConn.StartReader | internal/runner/zygote_relay.go:277-334 | the reader's effects, in order, are those of the decoded frames and their ending, and the connection's fields are what those effects add up to |
| RelaySession.RelayConn.TakeArtifacts | internal/runner/zygote_relay.go:393-399 | hands over all collected files and leaves none |
| RelaySession.ReadStarted | internal/runner/zygote_relay.go:246-271 | the handshake skips stray frames, and leaves the reader exactly the bytes after STARTED |
| RelaySession.HandshakeAnswers | internal/runner/zygote_relay.go:246-271 | the first frame that is STARTED or EXIT answers: a start exactly if its body decodes, an early exit; all before it is skipped, all behind it is left |
| RelaySession.ExitResolvedOnceAndLast | internal/runner/zygote_relay.go:277-363 | on any bytes whatever the exit is resolved once, last, right after the outputs are closed |
| RelaySession.SessionRefinesTrace | internal/runner/zygote_relay.go:246-363 | for every agent trace and every cut after STARTED: a full trace gives full outputs and files, the last readable CPU sample, the exit code and signal of the EXIT body, a failure and missing files exactly if it says so; a cut one prefixes of each, and its error as the exit and to the readers of the outputs |
| RelaySession.CutHandshakeFails | internal/runner/zygote_relay.go:246-251 | cut within STARTED the handshake fails and no reader starts |
| RelaySession.FilesCompleteAtExit | internal/runner/zygote_relay.go:302-328 | when the exit becomes visible the worker already holds the child's files in order, minus exactly the over-cap ones |
| OutputBudget.Run | internal/session/pump.go:84-130 | a pump reads to the end, forwards exactly the clipped chunks, and flags truncation exactly when it held a byte back |
| OutputBudget.BudgetIsNeverExceeded | internal/session/pump.go:84-130 | in every interleaving both sinks together hold at most the cap, each a prefix of its stream |
| OutputBudget.ExactAtEnd | internal/session/interactive.go:109-120 | at the end of both streams min(total, cap) bytes came through and truncated holds exactly when more was read |
| OutputBudget.PumpsAreRuns | internal/session/pump.go:84-130 | in every interleaving what each pump delivered is what its loop delivers from its own bytes and the values the counter reported, and the flag is set exactly when one of the two runs sets it |
| Chunking.FindCut | internal/publisher/publisher.go:268-281 | the loop finds the greatest character boundary within the window, or gives up on one |
| Chunking.SplitChunk | internal/publisher/publisher.go:225-301 | terminates with pieces that concatenate to the chunk |
| Chunking.SplitLossless | internal/publisher/publisher.go:225-301 | the pieces spell the chunk, none over the raw limit, none empty unless the chunk is |
| Chunking.EventsFit | internal/publisher/publisher.go:230-264 | an event whose piece escaping at most doubles fits, up to six bytes of sequence number on the fast path |
| Chunking.MeasuredSizeFitsIff | internal/publisher/publisher.go:258-295 | as measured, with number 1, the limit holds for all chunks over an alphabet if and only if none of its bytes escapes to more than two |
| Chunking.SizeLimitHoldsIff | internal/publisher/publisher.go:204-214 | as sent, with any number up to seven digits, if and only if none escapes to more than one |
| Chunking.LongNumberOverflows | internal/publisher/publisher.go:255-262 | a chunk that fills the limit at number 1 is sent unsplit and overflows it at number 10 |
| Chunking.WideByteOverflows | internal/publisher/publisher.go:284-295 | a chunk of any wider byte overflows even when halved |
| Chunking.CutEndIsBoundary | internal/publisher/publisher.go:272-281 | on well-formed UTF-8 the cut never splits a character |
| Chunking.CutsLate | internal/publisher/publisher.go:266-281 | what fits is taken whole, text gives up at most three bytes, and nothing but the inside of one character lies between cut and limit |
| Chunking.HalvedIffTooLarge | internal/publisher/publisher.go:284-295 | a piece is halved exactly if it does not fit as measured |
| Chunking.EventsAreText | internal/publisher/publisher.go:266-299 | well-formed text in, well-formed text in every event, when nothing is halved |
| Chunking.EventsAreTextIff | internal/publisher/publisher.go:266-299 | for a well-formed chunk: all events well-formed if and only if it is sent unsplit or every halving falls in front of a character |
| Chunking.HalvingCanCutACharacter | internal/publisher/publisher.go:288-295 | halving can end an event inside a character |
| OutputStream.Publisher.NextSeq | internal/publisher/publisher.go:151-156 | the next number of that job, leaving other jobs' counters alone |
| OutputStream.Publisher.TriggerOutput | internal/publisher/publisher.go:204-214 | pieces in order with consecutive numbers, up to a failing trigger, which uses up a number |
| OutputStream.TriggerOutputIsARun | internal/publisher/publisher.go:204-214 | a call that nobody interferes with is a run of the interleaved machine: same events, same numbers, one more used up by a failing trigger |
| OutputStream.FeedsFollowEvents | internal/publisher/publisher.go:204-214 | in every run what a stream has taken is what was passed to it, it has failed exactly if one of its triggers did, and one number is drawn for each trigger |
| OutputStream.Hook.OnChunk | packages/code-runner-react/src/useCodeRunnerJob.ts:217-231 | each handler changes its own buffer only, and the shown text is that buffer joined in order |
| OutputStream.SortedAscends | packages/code-runner-react/src/useCodeRunnerJob.ts:115-117 | the sorted keys ascend strictly and are all there |
| OutputStream.ReassembleSurviving | packages/code-runner-react/src/useCodeRunnerJob.ts:115-120 | a buffer holding some of the sent events joins to their texts in sending order |
| OutputStream.SurvivorsInOrder | packages/code-runner-react/src/useCodeRunnerJob.ts:115-231 | any interleaved calls, losses, reordering, duplicates: each stream shows its surviving pieces in order |
| OutputStream.PublishThenReassembleIsIdentity | internal/publisher/publisher.go:204-214 | with nothing lost a stream none of whose triggers failed shows the concatenation of all chunks ever passed to the publisher for it |
| WorkspacePath.Clean | internal/runner/files.go:73 | cleaning a rooted path character by character is resolving its segments on a stack |
| WorkspacePath.CleanRules | internal/runner/files.go:73 | empty and "." segments vanish, ".." takes a plain segment along, ".." at the root vanishes, plain segments stay |
| WorkspacePath.SanitizeWorkspacePath | internal/runner/files.go:56-79 | the worker's sanitiser with its four rejections |
| WorkspacePath.SanitisersAgree | apps/api/src/files.ts:27-56 | for every name API and worker accept or reject together, for the same reason, with the same path |
| WorkspacePath.SanitiserVerdict | apps/api/src/files.ts:27-56 | exactly which names are turned away, and for what; every other one is accepted |
| WorkspacePath.FilterSnoc | apps/api/src/files.ts:45-50 | segment by segment, in order, all but the empty and "." ones are kept |
| WorkspacePath.JoinSplit | apps/api/src/files.ts:38-50 | joining what splitting gave returns the name |
| WorkspacePath.AcceptedPathsAreClean | apps/api/src/files.ts:27-56 | an accepted path has only plain segments and passes a second time unchanged |
| WorkspacePath.AgentFollowsSanitiser | languages/python-3.12/zygote_agent.py:569-583 | for an accepted name the agent writes to root, slash, that path |
| WorkspacePath.AgentWritesIff | languages/python-3.12/zygote_agent.py:569-583 | the agent writes exactly the names whose walk, with every ".." going up, ends at the root or below it, and writes them there |
| WorkspacePath.AgentStaysInside | languages/python-3.12/zygote_agent.py:576-578 | for every name at all the agent writes the root or strictly below it |
| ShellQuote.BuildCompileHoldCmd | internal/runner/docker.go:101-119 | wait for the marker, remove it, exec the quoted join; or a plain sleep for an empty argv |
| ShellQuote.ShellSeesTheArgv | internal/runner/docker.go:110-114 | tokenizing the quoted join by the shell's rules returns exactly the argv |
| ShellQuote.ScriptExecsTheArgv | internal/runner/docker.go:114-118 | the script's last command is exec with exactly the argv |
| ShellQuote.QuotingIsInjective | internal/runner/docker.go:110-114 | different argvs give different scripts |
| Reaper.KeyRoundTrip | internal/reaper/reaper.go:347-356 | owned-jobs keys and worker ids correspond one to one |
| Reaper.Host.CollectLiveWorkerIds | internal/reaper/reaper.go:283-316 | exactly the owning workers whose heartbeat was read and is alive |
| Reaper.Host.CleanupOwnedJobMembership | internal/reaper/reaper.go:320-343 | the job leaves every owned-jobs set with a proper key and nothing else changes |
| Reaper.Host.ReapContainer | internal/reaper/reaper.go:242-275 | container gone, memberships gone, status failed; or nothing at all when Docker refuses |
| Reaper.Host.Sweep | internal/reaper/reaper.go:155-238 | a container stays exactly if it has no label, is younger than the grace period, has a live readable owner, or will not go; exactly the jobs of those removed end as errors and leave the owned sets; the unspared that stay are counted |
| Reaper.SweptMeans | internal/reaper/reaper.go:194-275 | the same of the values before and after |
| Reaper.OrphanIffNoReadableOwner | internal/reaper/reaper.go:184-216 | an old labelled container is taken for an orphan exactly when no live owner of its job could be read |
| Reaper.SweepSettles | internal/reaper/reaper.go:155-238 | with all reads good a sweep takes nothing from live workers and a second one finds nothing |
| ReaperProtocol.LiveContainersAreNeverReaped | internal/reaper/reaper.go:155-232 | in every interleaving, whatever fails or lapses elsewhere, a reaped container belonged to a job in teardown, a job whose own ownership write failed, or a worker the reaping sweep itself had failed to read or found without a heartbeat |
| ReaperProtocol.RunKeepsInv | internal/worker/worker.go:652-668 | ownership recorded before Create and containers listed before liveness is read: every listed live job is accounted for at every stage of every sweep |
| ReaperProtocol.SweepMayReapIff | internal/reaper/reaper.go:172-232 | in every interleaving, what a sweep has read lets it remove the container of a job under way if and only if that job's ownership write failed or this sweep left its owner out |
| ReaperProtocol.DisownedForGood | internal/reaper/reaper.go:256-262 | a membership taken away, by a reaper or by the job itself, never comes back |
| ReaperProtocol.RemovedForGood | internal/reaper/reaper.go:242-254 | a container removed never runs again |
| ReaperProtocol.FailedReadReapsALiveJob | internal/reaper/reaper.go:184-192 | a sweep that fails to read its owner does remove a live job's container |
| ReaperProtocol.FailedWriteReapsALiveJob | internal/worker/worker.go:662-668 | so does a sweep that reads everything, after a failed ownership write |
| ReaperProtocol.LateHeartbeatReapsALiveJob | internal/reaper/reaper.go:305-314 | and one that looks while the heartbeat is late, though the worker is alive again by then |
| BlobIndex.Index.Touch | internal/blobindex/blobindex.go:107-121 | adds to the index, records size and creation once, never shortens the deadline; refuses a non-positive ttl, and fails with Redis, without a trace |
| BlobIndex.Index.Lease | internal/blobindex/blobindex.go:137-148 | a failed SADD changes nothing; after it the blob is pinned in any case, and success is reported only if the touch went through |
| BlobIndex.Index.Exists | internal/blobindex/blobindex.go:126-133 | whether the meta key is still live at that time |
| BlobIndex.DeadlineIsFarthestAsked | internal/blobindex/blobindex.go:49-70 | after any touches, with any lapses between, the deadline is the farthest time any of them asked for |
| BlobIndex.AliveIffSomeTouchReaches | internal/blobindex/blobindex.go:126-133 | the blob is alive at a time exactly when some touch reaches that far |
| BlobIndex.FirstTouchIsRemembered | internal/blobindex/blobindex.go:55-56 | the first recorded size and creation time stay as long as the key does |
| BlobIndex.TouchOfDeadKeyRecords | internal/blobindex/blobindex.go:55-70 | a touch that finds no live key records its own size and time and lasts as long as it asked for |
| BlobGC.GC.SweepHash | internal/blobindex/gc.go:100-149 | the per-hash body: recover, first sighting, wait, collect, with every failing call, those of the scrub included |
| BlobGC.StepMeans | internal/blobindex/gc.go:97-149 | the object goes exactly if it was due, and with it whatever the scrub got at; candidacy ends with a sign of life, begins with the first sighting without one, and else stays |
| BlobGC.GC.Sweep | internal/blobindex/gc.go:78-152 | without the lock nothing; with it every hash gets its own verdict, in whatever order, and the counters count exactly what was collected |
| BlobGC.CountsTheDue | internal/blobindex/gc.go:97-151 | the count reported is the number of blobs that were due |
| BlobGC.BytesAreConserved | internal/blobindex/gc.go:128-147 | the bytes reported freed are the bytes that left the store |
| BlobGC.CollectedIff | internal/blobindex/gc.go:112-147 | an object goes exactly when dead, unleased, a candidate for longer than the grace, and every call worked |
| BlobGCProtocol.CollectedBlobsOutlivedTheirTouches | internal/blobindex/gc.go:97-148 | in every run, with any gaps and failed drops, a collected blob is pinned by no job that has not released it, past what every touch asked for, and not touched, nor pinned by a lease call that did not fail, for the shortest time to live |
| BlobGCProtocol.GraceHoldsIff | internal/blobindex/gc.go:72-148 | however long sweeps take and however they overlap, no collected blob was touched or leased in the grace period before the sweep or since, if and only if touches outlive the grace and a sweep together, or, while drops go through, both the gap between looks and, but for a millisecond, a sweep |
| BlobGCProtocol.LongTouchesKeepTheGrace | internal/blobindex/gc.go:124-126 | the first of the two ways, without any assumption on looks or drops |
| BlobGCProtocol.FrequentLooksKeepTheGrace | internal/blobindex/gc.go:112-126 | the second: a candidate's score starts an unbroken run of collectable sightings, also if a scrub left the candidate behind |
| BlobGCProtocol.RunKeepsCandidates | internal/blobindex/gc.go:112-124 | while looks come in time, whatever used a candidate since its score still shows at the next look |
| BlobGCProtocol.ShortTouchFails | internal/blobindex/gc.go:112-126 | every touch shorter than the grace, and than the gap or with failing drops, has a run that collects a blob in its grace |
| BlobGCProtocol.LaggingSweepFails | internal/blobindex/gc.go:94-126 | so has every touch between the grace and the grace plus the length of a sweep, if shorter than the gap or with failing drops |
| BlobGCProtocol.OverlongSweepFails | internal/blobindex/gc.go:72-124 | so has every touch shorter than a sweep, however often there is a look and with every drop going through: overlapping sweeps give a score older than a touch |
| Blobs.JobLeases.ResolveBlobRefs | internal/worker/blobs.go:86-177 | every ref becomes an inline file or the job is refused with its files untouched; the caller learns which leases it owes |
| Blobs.JobLeases.ReleaseAll | internal/worker/blobs.go:239-246 | exactly the refs whose release calls get through are unpinned |
| Blobs.ResolvedFilesMatchTheirDigests | internal/worker/blobs.go:191-233 | a resolved file holds bytes whose digest is the one it named |
| Blobs.ResolvableIff | internal/worker/blobs.go:86-177 | exactly what makes a file refuse its job: content beside a ref, a malformed ref, an unacceptable name, a failed lease, a missing blob, another digest |
| Blobs.DigestOfWellformed | internal/worker/blobs.go:50-63 | a ref is accepted exactly if it is sha256: and 64 hexadecimal digits |
| Blobs.HalfLeasedExactly | internal/worker/blobs.go:145-151 | at most one lease is half made: that of the first unresolvable file, if its lease call failed after pinning |
| JobHandler.Handler.Teardown | internal/worker/worker.go:691-819 | its first call settles result, count, subscriptions, slot and sandbox whatever the context, and owned set, leases and status as far as it allows; later calls change nothing |
| JobHandler.Handler.RunSandbox | internal/worker/worker.go:843-1116 | what the park gate, the compile step and the session make the teardown report |
| JobHandler.Handler.RunJob | internal/worker/worker.go:559-1116 | on every path one slot release, subscriptions closed, and the result, terminal count and statuses of that path, read off what the world answered: no subscription, no sandbox, kill, warm-up and cancel at the gate, kill, deadline and failure while compiling, and a run, which reports its session and is done exactly if that kept to its time; and what is left in the owned set, the leases and the statuses |
| JobHandler.RunClaimed | internal/worker/worker.go:482-490 | a claimed job without a spec gives its slot back and does nothing else |
| JobHandler.EveryPathBalances | internal/worker/worker.go:599-819 | past the subscriptions: one result, one terminal count, statuses a prefix of queued, optional running, one terminal, complete if and only if the context lasts; before them none |
| JobHandler.RunsOnlyAfterStartAndCompile | internal/worker/worker.go:843-1116 | the argv runs exactly after a start and a compile step that exited 0 by itself, also in a sandbox made in spite of a cancelled context; a job that ran publishes its session |
| JobHandler.OwnershipCoversTheSandboxIff | internal/worker/worker.go:652-675 | the ownership write precedes the create call and its removal follows, on every path; a container has ownership on record before it is made if and only if that write went through |
| JobHandler.AllLeasesReturnedIff | internal/worker/worker.go:712-715 | all leases come back if and only if the releases got through and no reached lease call failed after pinning a ref not yet held |
| JobHandler.LeftOwnedIff | internal/worker/worker.go:702-707 | a recorded job stays in the owned set if and only if the context is cancelled by then |
| JobHandler.CancelledParkStrandsTheJob | internal/worker/worker.go:847-850 | a job cancelled at the park gate stays owned exactly if its ownership was recorded, and pinned, and without terminal status |
| JobHandler.HalfMadeLeaseLeaks | internal/worker/blobs.go:145-151 | one such call leaves the blob pinned by a finished job |
| JobHandler.CancelledBeforeResolving | internal/worker/blobs.go:133-151 | a job that names a blob and whose context is gone by then gets no sandbox and pins nothing |
| Slots.SlotsAreConserved | internal/worker/worker.go:416-446 | free slots, the claim loop's slot and those of unreleased jobs always add up to the capacity |
| Slots.GivingBackNeverBlocks | internal/worker/worker.go:1120-1122 | whenever a slot is given back the channel has room |
| Slots.DrainFindsAllSlotsIff | internal/worker/worker.go:437-470 | if handlers release n times, a drained worker has every slot back in every run if and only if n is one, which is what the handler is proved to do |
| Slots.DrainFindsAllSlots | internal/worker/worker.go:455-470 | with the loop stopped and no job running every slot is back |
| Slots.Worker.Run | internal/worker/worker.go:409-446 | whatever each turn brings and other goroutines do meanwhile, the loop makes exactly the machine's steps, claims exactly the jobs its turns bring and returns with no slot in hand |
| Slots.Worker.ReleaseSlot | internal/worker/worker.go:1120-1122 | one token back, with room for it |
| WarmPool.PoolManager.Claim | internal/runner/zygote_pool.go:180-199 | the entry that is there by now, or the launched parent installed, or a failed launch without a trace |
| WarmPool.PoolManager.DropParent | internal/runner/zygote_pool.go:205-214 | unmaps only the current entry and calls the removal in any case |
| WarmPool.PoolManager.CollectIdle | internal/runner/zygote_pool.go:246-259 | takes out of the map exactly the idle parents without reservations, and lists exactly them |
| WarmPool.PoolManager.RemoveAll | internal/runner/zygote_pool.go:261-268 | every collected parent has its removal called, and no other |
| WarmPool.OneLiveParentPerKey | internal/runner/zygote_pool.go:163-214 | in every interleaving a key has one mapped parent, whose removal has never been called |
| WarmPool.NoParentIsForgotten | internal/runner/zygote_pool.go:187-269 | every parent ever launched is mapped, removed, or on the list of whoever unmapped it |
| WarmPool.InflightCountsReservations | internal/runner/zygote_pool.go:129-157 | inflight is the number of dials reserved and not given back, never negative |
| WarmPool.ReaperSparesReservations | internal/runner/zygote_pool.go:252-257 | the idle reaper leaves a reserved parent mapped |
| WarmPool.ReapedParentsWereIdle | internal/runner/zygote_pool.go:246-258 | in every run a parent taken by the reaper has no reservation and was launched, reserved or given back at least `idle` ago |
| WarmPool.ReapedIff | internal/runner/zygote_pool.go:246-258 | and it takes exactly the mapped parents of that kind |
| WarmPool.AnswersDecide | internal/runner/zygote_pool.go:124-199 | in every run a job goes on with a parent it found only if its last probe was healthy, drops one to try again only if it was not, is live exactly on the parent its dial reached, and fails only if its launch did, or its dial and the parent is removed |
| WarmPool.LeftoversAreTheMap | internal/runner/zygote_pool.go:246-291 | once pending removals are done the containers left are exactly the mapped ones |
| WarmPool.ReservesGoneParentIff | internal/runner/zygote_pool.go:124-133 | a reservation is made on an unmapped parent exactly when a reap, a close or a drop of it came between finding and reserving it |
| WarmPool.ReapedBeforeReserved | internal/runner/zygote_pool.go:124-131 | and that can happen, for every positive idle time |
| WarmPool.ParentsAtCloseAreRemoved | internal/runner/zygote_pool.go:273-291 | once pending removals are done every parent that existed at a close is removed: what is left was launched later |
| WarmPool.EmptyUntilInstalled | internal/runner/zygote_pool.go:180-199 | after a close the map stays empty exactly until something is installed |
| WarmPool.CloseIsCompleteIff | internal/runner/zygote_pool.go:273-291 | it stays empty in every run without new dials if and only if no dial is short of its launch |
| WarmPool.LaunchedAfterClose | internal/runner/zygote_pool.go:273-291 | and a dial that is does launch a parent nobody removes |
| StdinControl.WriteAll | internal/worker/worker.go:1270-1281 | however the sink splits writes, all bytes in order, or as many as it will ever take |
| StdinControl.Pump.Write | internal/worker/stdin_pump.go:90-107 | the whole chunk or the end of the pump; after EOF the chunk is dropped |
| StdinControl.Pump.Drain | internal/worker/stdin_pump.go:71-87 | everything queued is written in order, and exactly when the answer is yes |
| StdinControl.CompileWatch.Watch | internal/worker/compile_watch.go:27-44 | holds everything but kills in order, and cancels the compilation once, exactly if there is a kill |
| StdinControl.CompileWatch.Stop | internal/worker/compile_watch.go:52-63 | held messages go back from the first on as far as there is room; the rest are counted |
| StdinControl.WrittenIsAPrefix | internal/worker/stdin_pump.go:41-107 | in every interleaving the sandbox got a prefix of the accepted input |
| StdinControl.EofComesAfterItsInput | internal/worker/stdin_pump.go:52-58 | EOF comes at most once, and after everything accepted when the stdin_close was taken |
| StdinControl.EofComesAfterWhatWasAccepted | internal/worker/stdin_pump.go:52-58 | whenever the first stdin_close is taken, EOF comes after all input accepted by then |
| StdinControl.EofOnlyAfterClose | internal/worker/stdin_pump.go:52-87 | and never without a stdin_close |
| StdinControl.PumpReturnsIff | internal/worker/stdin_pump.go:41-107 | the pump returns exactly when it sees the session end or a write fails |
| StdinControl.EndIsSeenIff | internal/worker/stdin_pump.go:46-76 | between two chunks it can see the end exactly once the session has ended |
| StdinControl.NothingIsLostWithinCapacity | internal/worker/worker.go:566-590 | up to the capacities of the channels all input is accepted in order and no held message is dropped |
| StdinControl.TakenCloseReachesEof | internal/worker/stdin_pump.go:52-87 | a taken stdin_close ends in EOF in every run whose pump neither sees the end nor fails a write, within as many steps as the input queued or delivered meanwhile takes |
| StdinControl.CloseIsPursued | internal/worker/stdin_pump.go:69-87 | a drain always has a next step: a queued chunk, or EOF |
| StdinControl.NothingAfterEof | internal/worker/stdin_pump.go:90-95 | nothing is written after EOF |
| StdinControl.HeldMessagesGoBackInOrder | internal/worker/compile_watch.go:41-61 | held is everything but kills, in order; each goes back in that order or is counted, under concurrent deliveries |
| StdinControl.OthersSnoc | internal/worker/compile_watch.go:33-42 | message by message, in order, held is everything but kills |
| StdinControl.KillsAreApplied | internal/worker/stdin_pump.go:59-61 | while the pump runs the sandbox has been killed exactly once per kill taken; a job killed while compiling is never run |
| StdinControl.NoKillIsLost | internal/worker/compile_watch.go:33-62 | a kill accepted while compiling is reported by Stop or still on the channel |
| Lifecycle.Session.Terminate | internal/session/lifecycle.go:122-152 | the first call does hook, kill, cleanup, result, done in that order; later calls nothing |
| Lifecycle.RunIdleClock | internal/session/clocks.go:40-64 | fires exactly at the first long enough gap, idleMs after the last handled activity |
| Lifecycle.RunCPUClock | internal/session/clocks.go:72-93 | fires at the first readable poll over the limit and never on an unreadable one |
| Lifecycle.TerminatesOnceInOrder | internal/session/lifecycle.go:122-152 | in every race the five actions happen in order, each at most once, and done is closed exactly when all have |
| Lifecycle.TheWinnerNeverBlocks | internal/session/lifecycle.go:146 | the result is sent without blocking |
| Lifecycle.ResultNamesTheWinner | internal/session/lifecycle.go:122-145 | read off the events: the result describes a session ended by whoever entered first, at that time, with an exit only from the process, truncated exactly if output had been held back when it was made |
| Lifecycle.ClocksWinForTheirReason | internal/session/clocks.go:21-93 | read off the events: an idle win means idleMs since the timer was last reset, a wall win the deadline, a CPU win a reading over the limit, the process its end |
| Lifecycle.ClocksMissNothing | internal/session/clocks.go:21-93 | a clock in the race can fire exactly when due, takes a pending signal, and calls on a reading over the limit |
| Lifecycle.WhoeverFiresGetsIn | internal/session/lifecycle.go:100-123 | whoever has seen its event calls terminate, and the first to call gets in |
| Lifecycle.ResultsAreDelivered | internal/session/lifecycle.go:146 | every result sent is received or waits on the channel |
| Lifecycle.NobodyLeavesEarly | internal/session/clocks.go:40-64 | no clock leaves before done is closed, and up to the capacity of its channel every activity signal is handled by itself |
| Lifecycle.EveryClockCanLeave | internal/session/lifecycle.go:148-150 | after terminate no clock is stuck |
| StartHandshake.Gate.ParkLoop | internal/worker/worker.go:843-873 | the first start or kill among the messages it gets to take decides |
| StartHandshake.ParkOutcome | internal/worker/worker.go:859-870 | a queued start starts the job unless a kill is ahead, and nothing else does |
| StartHandshake.StartIsNeverLost | apps/api/src/routes/control.ts:31-37 | in every interleaving in which the flag is read while it stands and no start meets a full channel, a parked job with an answered start has a start on its way |
| StartHandshake.NothingOvertakesTheStart | internal/worker/worker.go:843-873 | a park loop with a start ahead starts unless the wait is ended from outside or a start is dropped, whatever is published or dropped meanwhile |
| StartHandshake.StartIsLostIff | internal/worker/worker.go:834-873 | an answered start is lost on a parked job exactly when every start since the subscription met a full channel, and there was one, or one came before it and the flag was unreadable or expired at the read |
| StartHandshake.GoesIffStarted | internal/worker/worker.go:834-870 | in every interleaving a job goes if and only if the flag was read while it stood or a start was taken, and only if somebody called start |
| StartHandshake.GoneIffKilledOrGivenUp | internal/worker/worker.go:843-873 | and is given up if and only if a kill was taken at the gate or the wait was ended from outside |
| StartHandshake.AccountsAreTrue | internal/worker/worker.go:834-841 | read off the events: which starts came early and which were heard, how the flag was read, and that nothing is dropped within the capacity |
| StartHandshake.ChannelIsAQueue | internal/worker/worker.go:566-590 | within its capacity the channel hands over what is published after the subscription, in order |
| StartHandshake.FailedReadLosesTheStart | internal/worker/worker.go:834-841 | and that can happen |

## Left out

- Docker, S3, soketi and Redis client code, tracing, metrics, logging and configuration: I/O over libraries; Redis is sets, maps with deadlines and pub/sub, Docker a map of containers.
- Counters, lengths beyond 32 bits and clocks are unbounded integers: the wrap-around of Go's 64-bit integers is not modelled.
- SHA-256, base64, JSON bodies and JSON escaping are parameters; that Go's `json.Marshal` replaces bytes that are not UTF-8 is therefore not modelled, and output pieces are opaque bytes.
- The agent replaces bytes of a file name that are not UTF-8 (languages/python-3.12/zygote_agent.py:831); `PipelineDelivers` takes that round trip as a parameter that is the identity on the names given.
- Delivery of the agent's output over a socket that does not block, and a connection that breaks in the middle of `_send_artifacts`.
- `ShellQuote`: the guard before the last command is a constant without user text and is not tokenized.
- BlobGCProtocol.GraceHoldsIff: takes one hash's share of a sweep as one step, because a lease can land between the lease count and the removal (internal/blobindex/gc.go:108-136).
- BlobGC: the sweep lock's expiry is not in `GC.Sweep`; `BlobGCProtocol` allows any number of overlapping sweeps instead.
- WarmPool: parents are numbered rather than pointers, so aliasing of one record is not modelled; removal is the call, not its effect in Docker.
- StdinControl: nobody closes the stdin channel, so the branch for a closed one is left out; activity signals are in `Lifecycle`.
- StartHandshake: assumes a subscription is in effect when `Subscribe` returns; the client library may not wait for the acknowledgement.
- JobHandler: a status write or closing call that fails while the context is up is logged and ignored by the code and is taken to succeed; artifact upload, its caps and the persisted run result are not modelled.
- Slots: `Drain` has no method; that its wait ends with every slot back is `DrainFindsAllSlots`. The heartbeat goroutine is in `ReaperProtocol` only.
- `buildFilesTar`, `stripWorkspacePrefix`, admission, limits merging, tier selection: easy members only.
- cgroups, namespaces, fork and the R agent: kernel behaviour.
