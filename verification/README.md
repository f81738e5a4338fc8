# Verified model of the Weibo stream engine

Weibo is a stream processing engine with barrier checkpoints, a transactional sink, keyed
parallel stages, event-time windows and joins, and pluggable state. This project models its
protocols and operators in Dafny 4.11 and proves what they guarantee. `dafny verify dfyconfig.toml`
checks all of it.

- **Exactly-once protocol** (`CheckpointFiles`, `ExactlyOnce*`). Source, barrier injector,
  operators, pre-sink tap, transactional sink, finalize worker, checkpoint directory, broker and
  recovery are one step relation, the code as written, with a crash enabled between any two steps.
  The pipeline is an arbitrary relation, so it need not be deterministic. `Meets` states six
  conditions the code relies on but does not enforce, each the guard of one step; every run that
  meets them is exactly-once, and none can be dropped. `ExactlyOnceRestore` gives the exact
  condition on a restore point when a run does not meet them.
- **Checkpoint storage** (`FileStorage`). The directory as an object whose saves go through the
  same durable writes.
- **Keyed parallel stage** (`AlignedMerge*`, `KeyedStage*`). Router, workers, forwarders and merge
  loop interleave freely; channels are kept as everything ever sent plus how far it was read.
- **Event-time operators** (`Window*`, `FixedWindows`, `Session*`, `Reduce*`, `IntervalJoin*`).
  Each is an object over its buffers, proved equal to a function, and the function is proved
  against an offline definition: assigned records, gap-connected components, nested-loop join.
- **State backend** (`ByteOrder`, `Pebble*`). A map of lists and values on one ordered byte map.
- **Watermarks and assignment** (`WatermarkSource`, `WindowAssign`), with Go's truncating division.
- **Coordinator shutdown** (`CoordinatorShutdown`). Callers, worker and Stop around one channel.

Times are nanoseconds since the Unix epoch. The zero `time.Time` lies outside the int64 range and is
kept apart as `ZERO_TIME`; where the code converts to `UnixNano` the wrap-around is explicit, in
window keys, buffered records, slot arithmetic and snapshots. Theorems about watermarks, windows and joins are
stated for sets of event times, so that they say which times are safe. A Go duration is an int64, so
lemmas that depend on it take sizes, gaps and join bounds up to `MAX_NANOS`.

Checkpoint names are taken to be unique across runs: the code numbers a run by the wall clock
(engine.go:1079), and the model gives every run a nonce of its own.

`EnvOk` and `RunOk` of the protocol invariant are quantified over their own argument, so that the
solver unfolds them only in the proofs that ask for it.

Where the code falls short of its documentation the model follows the code:

- The injector's offset map starts empty in every run (engine.go:1089), while the offset tracker
  documents that quiet partitions keep their restored position (source/kafka_offset_tracker.go:118-122).
- `finalize` goes on with later events after a fatal report (checkpoint/coordinator.go:119-121).
- Records without a timestamp, which the file and inline sources produce
  (workflow/compiler/source.go:194-199), never match in an interval join: the buffered copy wraps.
- The watermark over partitions skips a partition whose watermark is the zero time
  (source/watermark.go:73-75), so records without a timestamp, and those that lie exactly the bound
  after the zero time, are passed by the watermarks of other partitions.
- A reduce behind the merge of several window workers can evict a window between two of its records,
  because their windows interleave (pipeline/planner.go:225-235).
- Windows are stored under int64 bounds, so a window or session that ends beyond the year 2262
  fires too early, and again.
- A session gap that is not positive, and a slide longer than the size, are accepted by the
  constructors and break what the windows otherwise guarantee.

## Model

| member | source | states |
|---|---|---|
| ExactlyOnceTheorem.AsWrittenExactlyOnce | engine.go:1364-1396 | For every job and every run of the code as written, with records, watermarks and barriers in the stream and crashes and failed writes anywhere: if each step meets the six conditions of `Meets` where it is taken, the visible output is that of one uninterrupted execution and every restore point is exactly its end |
| ExactlyOnceLimits.ExactlyOnceIff | checkpoint/coordinator.go:226-308 | The conditions are exact: all runs that meet a choice of conditions are exactly-once if and only if the choice holds the four of `Base`, one of rereads and a seeded offset map, and one of a current pointer and an atomic promotion |
| ExactlyOnceRestore.RunIff | engine.go:1364-1396 | Run by run, whatever barriers and fallbacks find, for jobs whose records all produce output and whose watermarks leave them as they are: a run is exactly-once throughout if and only if every restore point in it resumes each partition right behind its visible output |
| ExactlyOnceRestore.RestoreIff | engine.go:1365-1374 | A restore point is right if and only if its positions account for the visible output; the operator state then follows |
| ExactlyOnceRestore.MissingPartitionIff | engine.go:1089 | While fallbacks are current, a restore point is right if and only if no partition that was read is missing from its offset map |
| ExactlyOnceRestore.FallBackIff | checkpoint/checkpoint.go:294-302 | While barriers carry every partition, a fallback is right if and only if the newest done file holds the same positions, which fails only while the completed pointer is behind |
| ExactlyOnceTheorem.ExactlyOnceHolds | engine.go:1364-1396 | The conditions suffice, with or without the two repairs, for every job and every run |
| ExactlyOnceTheorem.ExecKeeps | sink/kafka_txn.go:184-356 | The protocol invariant holds after every sequence of steps that meet the conditions |
| ExactlyOnceTheorem.StepKeeps | sink/kafka_txn.go:306-347 | Every step of source, operators, tap, sink, finalize worker, broker and recovery keeps the invariant, also with barriers that miss partitions and fallbacks to older checkpoints |
| ExactlyOnceFinalize.FinalizeKeeps | checkpoint/coordinator.go:226-308 | Taking an event, saving, committing, aborting, promoting and retention keep the invariant; a save or promotion may fail at any of its writes |
| ExactlyOnceFinalize.CommitInflight | sink/kafka_txn.go:306-326 | When a commit is requested, visible plus staged output is the output of the checkpoint's own cut, and the stored checkpoint was taken at that cut |
| ExactlyOnceFinalize.SavingWrite | checkpoint/checkpoint.go:198-236 | Each durable write of a prepared checkpoint keeps what recovery relies on |
| ExactlyOnceRecovery.PromoteWrite | checkpoint/checkpoint.go:274-290 | Each durable write of a promotion keeps what recovery relies on, so a crash may follow any of them |
| ExactlyOnceSteps.FlowStepKeeps | engine.go:1067-1168 | Reading, injecting barriers, processing, snapshotting and tapping keep the invariant |
| ExactlyOnceSteps.PassKeeps | engine.go:1144-1149 | A watermark passes the injector without a position and leaves the offset map as it is |
| ExactlyOnceSteps.SinkStepKeeps | sink/kafka_txn.go:184-273 | Producing and preparing keep the invariant, with the produce-error latch |
| ExactlyOnceRecovery.RecoverKeeps | engine.go:1364-1396 | Every recovery and environment step keeps the invariant |
| ExactlyOnceSteps.TapRegistered | engine.go:1267-1300 | The state registered at the pre-sink tap is the state at the barrier |
| ExactlyOnceSteps.InjectRegistered | engine.go:1173-1207 | The offsets registered with a barrier are positions behind exactly the records ahead of it, and all of them if every partition has been read again |
| ExactlyOnceRecovery.LoadKeeps | engine.go:1365-1374 | Loading the latest checkpoint yields a restore point or a prepared checkpoint to probe |
| ExactlyOnceRecovery.ProbeKeeps | engine.go:1376-1379 | The marker probe decides between promotion and fallback |
| ExactlyOnceRecovery.CompleteKeeps | engine.go:1380-1387 | Promotion during recovery, interrupted at any write, keeps the invariant |
| ExactlyOnceRecovery.FallBackKeeps | engine.go:1390-1396 | A fallback restores a done checkpoint of the visible execution, and its end when the pointer is current |
| ExactlyOnceRecovery.CrashKeeps | engine.go:1364-1396 | A crash at any step leaves files and broker from which recovery works |
| ExactlyOnceRecovery.DecideKeeps | sink/kafka_txn.go:314-316 | The broker's decision on a commit in flight keeps the invariant, whichever way it goes |
| ExactlyOnceRecovery.EvictEnv | checkpoint/checkpoint.go:460-488 | Retention never deletes the latest checkpoint nor the newest done one |
| ExactlyOnceLimits.WithoutFatalStops | checkpoint/coordinator.go:119-121 | A worker that goes on after a fatal report commits later records over aborted ones |
| ExactlyOnceLimits.WithoutSettled | sink/kafka_txn.go:361-367 | A commit decided after the marker probe becomes visible behind recovery's back |
| ExactlyOnceLimits.WithoutRereads | engine.go:1089 | A partition without new records since a restart is missing from the next checkpoint and read again |
| ExactlyOnceLimits.WithoutCurrent | checkpoint/checkpoint.go:222-236 | A crash between a promotion's file and its completed pointer makes a later fallback duplicate output |
| ExactlyOnceLimits.WithoutClock | checkpoint/checkpoint.go:445-488 | A checkpoint stamped earlier than a stored one is deleted by its own retention pass |
| ExactlyOnceLimits.WithoutSnapshotsFit | engine.go:1241-1261 | A tap that finds its snapshot evicted stores the live state, ahead of the barrier's positions |
| CheckpointFiles.CrashSafeIff | checkpoint/checkpoint.go:198-236 | At every crash point of every save Load answers what it answered before or the saved checkpoint, if and only if fewer than `retain` done files do not sort before it, or the latest pointer was unusable, or its target outranks everything else |
| CheckpointFiles.LoadDuringSave | checkpoint/checkpoint.go:198-236 | The direction from that condition, for each durable write and deletion of a save |
| CheckpointFiles.HarmfulSave | checkpoint/checkpoint.go:460-488 | The other direction: without it some crash point makes Load answer a third checkpoint |
| CheckpointFiles.RestoredSavepoint | checkpoint/savepoint.go:47-59 | Done files of times 5 and 9 with the pointer at the older, two retained: saving one stamped 1 makes Load answer the newer |
| CheckpointFiles.SaveStatesMid | checkpoint/checkpoint.go:222-235 | What each durable write and deletion of a save leaves behind, the saved checkpoint's own deletion included |
| CheckpointFiles.EvictionSpares | checkpoint/checkpoint.go:474-483 | Deleting the oldest done checkpoint never deletes a prepared one nor one with fewer than `retain` rivals |
| CheckpointFiles.CompletedIsDone | checkpoint/checkpoint.go:294-302 | Loading the latest completed checkpoint never yields a prepared one |
| CheckpointFiles.LegacyAnswers | checkpoint/checkpoint.go:48 | A file without a status answers a load of the latest completed checkpoint, and a prepared one does not |
| CheckpointFiles.LatestAnswers | checkpoint/checkpoint.go:445-450 | Without a usable pointer Load answers a file of the latest time and, of one time, of the highest number |
| CheckpointFiles.PointerAnswers | checkpoint/checkpoint.go:319-357 | A usable pointer decides the load |
| FileStorageModel.FileStorage.Save | checkpoint/checkpoint.go:198-236 | A save passes through exactly the durable states that crash safety is stated for, and ends in the trimmed directory |
| FileStorageModel.FileStorage.UpdateStatus | checkpoint/checkpoint.go:274-290 | Succeeds exactly when the file is readable, and then is a save of it under the new status |
| FileStorageModel.FileStorage.LoadPointer | checkpoint/checkpoint.go:319-357 | Answers the pointer's target if usable, else the newest usable file, and repairs the pointer so that the answer repeats |
| FileStorageModel.FileStorage.Scan | checkpoint/checkpoint.go:415-452 | Lists every readable checkpoint once, by timestamp and then sequence |
| FileStorageModel.FileStorage.EnforceRetention | checkpoint/checkpoint.go:460-488 | Deletes one done checkpoint at a time, oldest first, down to the limit; off when the limit is below one |
| FileStorageModel.SurvivalIff | checkpoint/checkpoint.go:460-488 | A done checkpoint outlives retention if and only if fewer than `retain` done ones sort after it |
| FileStorageModel.PreparedSurvives | checkpoint/checkpoint.go:468-473 | Retention never deletes a prepared checkpoint |
| FileStorageModel.NewestSurvives | checkpoint/checkpoint.go:445-450 | When timestamps never go back the newest done checkpoint survives |
| FileStorageModel.LoadAfterSaveIff | checkpoint/checkpoint.go:198-236 | After a save, Load answers the saved checkpoint if and only if it is prepared or outlives the save's own retention |
| FileStorageModel.CompletedAfterSaveIff | checkpoint/checkpoint.go:198-236 | A checkpoint saved done, or without a status, is stored as completed, and the latest completed one is it if and only if it outlives the save's own retention |
| FileStorageModel.PreparedWrites | checkpoint/checkpoint.go:222-235 | A save of a prepared checkpoint writes its file and the latest pointer, and leaves the completed pointer alone |
| FileStorageModel.SavepointCanVanish | checkpoint/savepoint.go:47-59 | Restoring a savepoint under its old timestamp can delete it at once |
| AlignedMergeProof.MergeSafety | pipeline/markers.go:32-107 | In every interleaving each worker finds its own data and every marker in the output, once, in its own order |
| AlignedMergeProof.MarkerAligned | pipeline/markers.go:85-102 | An emitted marker stands, on every worker, behind exactly the items ahead of it in the output |
| AlignedMergeProof.ExecKeeps | pipeline/markers.go:32-107 | The merge invariant holds in every reachable state |
| AlignedMergeProof.TakeKeeps | pipeline/markers.go:77-92 | The plain counter never mixes copies of two markers: when it reaches the worker count all owed copies are the same marker |
| AlignedMergeProof.TakenOwesNothing | pipeline/markers.go:61-71 | A worker whose copy is counted delivers nothing more until it is resumed |
| AlignedMergeProof.ResumeSlotFree | pipeline/markers.go:94-100 | A resume send never finds its one-slot channel full |
| AlignedMergeProof.Progress | pipeline/markers.go:39-106 | Some goroutine can move unless all output is drained or a worker still owes an item |
| AlignedMergeProof.StepDecreases | pipeline/markers.go:45-106 | Every step of the merge's goroutines decreases a measure on undelivered records and markers |
| KeyedStageProof.ParallelRefinesSequential | pipeline/keyed_stage.go:106-209 | For any worker count, state keys with or without windows and any interleaving, each key's output, markers included, is a prefix of the running left folds of the stream's state keys, and all of it when nothing is on its way or the closed workers are drained |
| KeyedStageProof.StateIsFold | operator/reduce.go:145-147 | The accumulator of a state key is the left fold of its records in arrival order |
| KeyedStageProof.OutIsFold | operator/reduce.go:142-160 | What one Reduce emits for a record is that fold up to and including it |
| KeyedStageProof.ConsistentCut | pipeline/keyed_stage.go:106-133 | For every barrier that reaches the sink there is one prefix of the stream: the registered offsets are one past the last record of each partition in it, all worker snapshots are the folds of its records by state key, and the output ahead of the barrier is their running folds |
| KeyedStageProof.KeyLocal | operator/reduce.go:142-147 | On its share of the stream the worker of a key computes what one Reduce computes on all of it |
| KeyedStageProof.StateLocal | operator/reduce.go:142-147 | It holds the same accumulators for the state keys of its record keys |
| KeyedStageProof.ShutKeeps | operator/reduce.go:112-114 | A worker closes its output behind everything it was sent, so no marker is missing from a closed worker |
| KeyedStageProof.BarrierShare | pipeline/keyed_stage.go:119-126 | What a worker processed ahead of a barrier is its share of the stream ahead of it |
| KeyedStageProof.OneStream | pipeline/keyed_stage.go:119-126 | Broadcasting gives every worker the same markers in the same order |
| KeyedStageProof.RunKeeps | pipeline/keyed_stage.go:86-209 | The stage invariant holds in every reachable state |
| KeyedStage.RouteKey | operator/keyby.go:85-95 | The loop computes the route, the hash modulo the partitions |
| KeyedStage.FnvVectors | operator/keyby.go:90-94 | The hash meets the published FNV-1a vectors for the empty key, a and foobar |
| KeyedStage.MixedFirst | operator/keyby.go:90-94 | A byte is mixed in ahead of the multiplication: one equal to the low byte of the hash clears it |
| KeyedStage.RouteVectors | operator/keyby.go:85-95 | An empty key and a single partition route to 0, other keys by their hash |
| KeyedStage.Route | operator/keyby.go:85-95 | The route is a worker index |
| WindowAssign.TumblingExact | window/tumbling.go:35-70 | In int64 arithmetic, for every timestamp and offset: the window starts at the slot of the timestamp's nanoseconds, ends after them if and only if the slot does not start beyond the int64 range, and contains them if and only if it starts within it and not after them; without overflow that is unless they are before the offset and off a boundary |
| WindowAssign.Sliding | window/sliding.go:40-69 | For every timestamp exactly the windows of the slide grid that contain it, each once, or the one at the computed start when there is none; latest first and as many as the sizes allow when that start is next to the timestamp |
| WindowAssign.SlidingGrid | window/tumbling.go:58-70 | Without an int64 overflow that grid is the offset's, and the computed start is next to the timestamp |
| WindowAssign.WalkBack | window/sliding.go:43-52 | The backward walk finds the windows up to the computed start, and stops |
| WindowAssign.WalkAhead | window/sliding.go:57-61 | The forward walk finds those behind it, and stops |
| WindowAssign.SlidingCount | window/sliding.go:38-39 | Their number is the floor or the ceiling of size over slide |
| WindowAssign.MergeSessions | window/session.go:57-70 | Overlapping sessions become their union, others stay |
| FixedWindows.FixedWindowsConserve | operator/window.go:216-267 | In a complete run over times whose windows, as stored, end after them, every window given a record fires once, with exactly its non-late records in arrival order |
| WindowResults.FixedWindowsHold | operator/window.go:216-267 | The same for int64 times, in terms of the accepted records themselves |
| WindowResults.FixedAggregates | operator/window.go:360-396 | With a reducer a complete run emits one aggregate for each window that was given a record: the left fold of its accepted records in arrival order, with the last one's time |
| WindowResults.AllListed | operator/window.go:360-396 | Without a reducer every record of every fired window comes out, window by window, with its key, value and time |
| FixedWindows.FiresOnceIff | operator/window.go:334-347 | Over any set of event times and in int64 form: no run fires a window twice, and every complete run conserves the accepted records, if and only if every assigned window, as stored, ends after its record |
| FixedWindows.FiresTwice | operator/window.go:572-577 | The failing run: a window stored with an end no later than its record fires twice |
| FixedWindows.TopWindowTwice | operator/window.go:572-577 | Such a window: size 10, at the last int64 instant |
| FixedWindows.SlidingEndsAfterIff | window/sliding.go:40-69 | Sliding windows with a slide no longer than the size meet that condition exactly for the times whose latest window ends within the int64 range, and those before it |
| FixedWindows.SlideWithinSizeIff | window/sliding.go:26-30 | Away from the ends of the int64 range sliding windows meet it exactly when the slide is no longer than the size |
| FixedWindows.TumblingEndsAfterIff | window/tumbling.go:35-38 | Tumbling windows meet it exactly for the times whose slot ends within the int64 range, and those before it |
| FixedWindows.NotFired | operator/window.go:230-235 | An accepted record belongs to no window that has fired |
| SessionRuns.SessionsIff | operator/window.go:277-330 | Over any set of event times and in int64 form: in every complete run the fired sessions are separate and are the gap-connected components of the accepted records, if and only if the gap is positive and every time keeps its place: its session is stored within the int64 range, and a time before that range is stored at least a gap from all others |
| SessionRuns.PlainSessionsIff | operator/window.go:277-330 | For int64 times: if and only if the gap is positive and every time plus the gap fits an int64 |
| SessionRuns.WrappedSession | operator/window.go:572-577 | The failing run: a session stored with an end no later than its record fires between two records of one instant |
| SessionRuns.UnsetPlaces | operator/window.go:572-577 | Records without a timestamp keep their place next to records at least a gap after 1754 |
| SessionRuns.SessionsAreComponents | operator/window.go:280-326 | The direction from that condition, for any arrival order and watermarks |
| WindowResults.SessionsHold | operator/window.go:280-326 | For int64 times the fired sessions hold the accepted records themselves |
| WindowResults.SessionAggregates | operator/window.go:360-396 | With a reducer each component is emitted as one aggregate, the left fold of its records |
| WindowResults.SessionsInOrder | operator/window.go:313-326 | If no record joins two sessions, every session lists its records in arrival order |
| SessionWindows.JoinedCluster | operator/window.go:289-325 | Joining all overlapped sessions with a record gives one gap-connected session over their hull |
| SessionWindows.JoinedDisjoint | operator/window.go:281-288 | A session the record does not touch stays apart from the joined one |
| SessionWindows.RecordFired | operator/window.go:230-235 | No accepted record overlaps a fired session |
| WindowKeys.ParseWindowKey | operator/window.go:589-611 | The backward scan splits a stored key at its last two slashes |
| WindowKeys.ParseFields | operator/window.go:589-611 | Any text, a slash, and two bounds without slashes parse to that key and those bounds, an unreadable bound as the zero time |
| WindowKeys.ParseNone | operator/window.go:600-602 | Text with fewer than two slashes parses to the empty key |
| WindowKeys.ParsePrint | operator/window.go:572-611 | Parsing undoes printing for every record key, slashes included |
| WindowOperatorModel.WindowOperator.OnRecord | operator/window.go:216-221 | A record of any time, late or not, is one step of the value model that the theorems on fixed and session windows are about |
| WindowOperatorModel.WindowOperator.HandleDataRecord | operator/window.go:261-267 | An accepted record goes to every window it is assigned to, under keys with int64 bounds |
| WindowOperatorModel.WindowOperator.AssignToWindow | operator/window.go:277-330 | The string-keyed store changes as the value model says, sessions joined in whatever order the keys are listed, bounds wrapped as the stored key wraps them |
| WindowOperatorModel.Collect | operator/window.go:289-311 | Finds exactly the overlapping sessions of the key, their records and their hull |
| WindowOperatorModel.WindowOperator.HandleWatermark | operator/window.go:334-347 | A watermark is one step of the value model: exactly the due windows fire |
| WindowOperatorModel.WindowOperator.FlushRemaining | operator/window.go:350-354 | The end of input fires every open window |
| WindowOperatorModel.FireEach | operator/window.go:339-346 | The walk over the stored keys fires exactly the due windows and clears them |
| WindowOperatorModel.EmitWindow | operator/window.go:360-396 | With a reducer one aggregate, the left fold of the records with the last one's time; without one every record |
| WindowOperatorModel.WindowOperator.IsTooLate | operator/window.go:230-235 | The lateness test, unset watermark included |
| WindowOperatorModel.WindowOperator.TakeSnapshot | operator/window.go:454-475 | The snapshot holds the whole store, and the watermark exactly when it fits an int64 |
| WindowOperatorModel.WindowOperator.Restore | operator/window.go:479-499 | Restores the stored windows and watermark |
| WindowOperatorModel.Handover | operator/window.go:454-499 | Snapshot and restore continue from the same state if and only if the watermark fits an int64 |
| WindowRestore.SnapshotTransparent | operator/window.go:454-499 | For every input cut anywhere, snapshot, restore and the rest of the input followed by the flush leave the same firings as the uninterrupted run, each as often, if the watermark fits an int64 or none is set and the rest is later than 1754 |
| WindowRestoreLimits.TransparentIff | operator/window.go:454-499 | All inputs cut at a watermark can be continued from the snapshot if and only if it fits an int64 |
| WindowRestoreLimits.UnsetTransparentIff | operator/window.go:454-499 | Cut before any watermark, going on with watermarks after 1754: if and only if no later record is older than 1754 less the lateness |
| WindowRestoreLimits.DroppedOnce | operator/window.go:230-235 | The failing run: a record that is late behind the stored watermark or the true one, but not both, is dropped in one run alone |
| WindowRestore.Interrupted | operator/window.go:454-499 | The same of the operator objects: what the stopped and the restored operator emit is what one operator emits, firing by firing |
| WindowReplay.ReplayAlike | operator/window.go:334-396 | The same input from agreeing states fires the same windows with the same records, each as often, whatever order keys are listed in |
| WindowReplay.FlushAlike | operator/window.go:350-354 | So does the end of input |
| ReduceModel.EvictionInvisible | operator/reduce.go:112-258 | Behind windows that fire once, a reduce that evicts emits what one that never evicts emits: each window's own folds |
| ReduceModel.FoldsAt | operator/reduce.go:142-147 | The i-th result of a window is the left fold of its records up to the i-th |
| ReduceModel.WorkersEvict | operator/reduce.go:160 | Behind windows that fire once, parallel workers that each evict by their own frontier emit of every key what one evicting reduce over the whole stream emits |
| ReduceStreams.InvisibleIff | operator/reduce.go:142-200 | Over any stream of records, windows interleaved, eviction is invisible for every reduce function if and only if no record moves the frontier past a window between two records of that window |
| ReduceStreams.StreamFolds | operator/reduce.go:142-147 | Over any stream with or without windows, a reduce emits for each record the left fold of the records of its key and window up to and including it |
| ReduceStreams.Interleaved | pipeline/planner.go:225-235 | The failing run behind a merge of window workers: a record of one window, one of a later window of another key, and one of the first again |
| ReduceStreams.UnpassedSuffices | operator/reduce.go:163-176 | A stream in which no record with a frontier past a window lies between two records of it meets that condition |
| ReduceStreams.WorkersUnpassed | operator/reduce.go:160 | On such a stream parallel workers that each evict by their own frontier emit of every key what one evicting reduce emits |
| ReduceModel.FixedChain | operator/reduce.go:163-176 | The invisibility of eviction for every complete run of fixed windows, with restarts anywhere between windows |
| ReduceModel.SessionChain | operator/reduce.go:163-176 | The same for session windows |
| ReduceModel.BlockRun | operator/reduce.go:142-160 | Over one window's records the accumulator is the fold so far, and its own record never evicts it |
| ReduceModel.ReduceOperator.Process | operator/reduce.go:142-160 | One record accumulates, emits, and then advances the frontier |
| ReduceModel.ReduceOperator.AdvanceWindowFrontier | operator/reduce.go:177-200 | The frontier never goes back, after it moves no stored window ends before it, and the record's own window is still stored |
| ReduceModel.ReduceOperator.EvictClosedWindows | operator/reduce.go:223-235 | Removes exactly the stale entries |
| ReduceModel.EvictedIff | operator/reduce.go:188-200 | A record that moves the frontier evicts exactly the windows that end the allowed lateness or more before its own or, without lateness, before it |
| ReduceModel.RestartedEvicts | operator/reduce.go:177-200 | A restarted reduce evicts by the next window's own end |
| ReduceModel.WindowEndOf | operator/reduce.go:241-258 | The window end is read back from a printed state key |
| ReduceModel.WindowEndFields | operator/reduce.go:241-258 | Of a key with two bounds the second is read, if both are timestamps |
| ReduceModel.WindowEndNone | operator/reduce.go:241-258 | A state key with fewer than two slashes has no window |
| IntervalJoinProof.JoinExact | operator/join.go:146-181 | For every input, a pair of the later record and the buffered int64 copy of the earlier one is emitted if and only if they are of one key and in range and no eviction removed the copy, and at most once; nothing else is |
| IntervalJoinProof.HonouredJoin | operator/join.go:220-278 | When each side honours its watermarks, every such pair in range comes out exactly once, whatever the event times |
| IntervalJoinProof.NestedLoopIff | operator/join.go:155 | Over a set of event times, every run that honours the watermarks is the nested-loop join if and only if all of them fit an int64 (or both sides are one source) |
| IntervalJoinProof.UnsetTimestamps | workflow/compiler/source.go:194-199 | Two records of one key without a timestamp never join, although the nested-loop join pairs them |
| IntervalJoinProof.JoinIsNestedLoop | operator/join.go:220-278 | When each side honours its watermarks and event times fit an int64 the output is the nested-loop join, every pair exactly once |
| IntervalJoinProof.NotEvicted | operator/join.go:257-272 | Honoured watermarks never evict a buffered copy that can still match |
| IntervalJoinProof.OutputOrdered | operator/join.go:163-177 | Pairs come out in the order in which their later records arrived and, for one such record, their earlier ones |
| IntervalJoinProof.WatermarkValid | operator/join.go:183-200 | Output watermarks strictly increase, stay behind both sides, and no later output of the default join is older |
| IntervalJoinProof.MarksIncrease | operator/join.go:245-255 | The part that needs no hypothesis on the sides |
| IntervalJoinProof.LeastMarkSent | operator/join.go:220-255 | Behind any input the smaller of both sides' greatest watermarks, own or without a source, has been sent on, once both are set |
| IntervalJoinProof.RestoreTransparentIff | operator/join.go:336-386 | For two sources: whatever comes next, the restored operator emits the pairs and watermarks of the uninterrupted one, if and only if each watermark is unset, or fits an int64 and is not the Unix epoch |
| IntervalJoin.JoinOperator.HandleRecord | operator/join.go:146-161 | A record is matched against the other side and its copy, with an int64 time, buffered on its own |
| IntervalJoin.JoinOperator.EmitMatches | operator/join.go:163-177 | Emits the in-range matches in buffer order |
| IntervalJoin.JoinOperator.HandleWatermark | operator/join.go:220-255 | Advances the named side or both, evicts both, and emits an advance of the aligned watermark |
| IntervalJoin.EvictSide | operator/join.go:257-278 | Keeps exactly the records not before the cutoff, in order, and drops keys left empty |
| WatermarkSourceModel.EndToEnd | source/watermark.go:148-199 | With bounded disorder, every partition seen before the first watermark and dated records, a window operator drops nothing; a time is dated if it is later than the zero time and its watermark is not the zero time |
| WatermarkSourceModel.EndToEndIff | source/watermark.go:64-84 | Over any set of record times, for any assigner and lateness, with bounded disorder and partitions seen in time: the windows drop nothing in any run if and only if every time is dated, or no watermark that one of them sets is ahead of another by more than the lateness |
| WatermarkSourceModel.WatermarkSafe | source/watermark.go:148-199 | Under the same three hypotheses emitted watermarks never go back and no forwarded record is below one |
| WatermarkSourceModel.SafeIff | source/watermark.go:64-84 | Over any set of record times, every run with bounded disorder and partitions seen in time is safe if and only if every time is dated, or no watermark that one of them sets is ahead of another |
| WatermarkSourceModel.DatedIff | source/watermark.go:73-75 | If one of the times is more than twice the bound after the zero time: if and only if every time is dated |
| WatermarkSourceModel.UndatedRecord | source/watermark.go:73-75 | The failing run: a partition whose watermark reads as unset is skipped, and another partition's watermark passes its next record |
| WatermarkSourceModel.LateRecord | source/watermark.go:142-146 | Both hypotheses on the order are needed: one late record of the same or of a new partition breaks safety |
| WatermarkSourceModel.WatermarkSource.PartitionWatermark | source/watermark.go:64-84 | The minimum over the partitions that have a watermark |
| WatermarkSourceModel.WatermarkSource.HandleRecord | source/watermark.go:154-181 | Updates the partition's clock and forwards the record |
| WatermarkSourceModel.WatermarkSource.HandleTick | source/watermark.go:183-198 | Emits the larger of the last watermark and the minimum |
| WatermarkSourceModel.BoundedOutOfOrderness.OnRecord | watermark/bounded.go:35-39 | The clock is the latest timestamp, and every timestamp seen is at or before it |
| WatermarkSourceModel.BoundedOutOfOrderness.GetWatermark | watermark/bounded.go:43-48 | The watermark is behind the greatest timestamp seen by exactly the bound, and unset before any |
| PebbleBackendModel.PebbleRefinesMemory | state/pebble.go:89-130 | On every sequence of operations with NUL-free names, with checkpoints to any directories, restores from any of them, closes and resets at any points, the results are those of the in-memory maps, failures included |
| PebbleModel.ValueLaws | state/pebble.go:177-216 | The reference: a value is what was last set, and touches no other |
| PebbleModel.ListLaws | state/pebble.go:289-368 | The reference: a list is what was appended since it was cleared, in order, and touches no other |
| PebbleModel.NamespaceLaws | state/pebble.go:239-277 | The reference: a snapshot of a restored namespace gives back what was restored, and other namespaces stay |
| PebbleBackendModel.PebbleBackend.Append | state/pebble.go:289-314 | An append extends the list and overwrites no stored entry, also when its counter is read back after a restore |
| PebbleBackendModel.PebbleBackend.NextListSeq | state/pebble.go:319-334 | The number read back is above every stored entry |
| PebbleBackendModel.PebbleBackend.GetAll | state/pebble.go:336-355 | The list in append order |
| PebbleBackendModel.PebbleBackend.Clear | state/pebble.go:357-368 | Removes one list and nothing else |
| PebbleBackendModel.PebbleBackend.ListKeys | state/pebble.go:370-403 | The namespace's list keys, each once |
| PebbleBackendModel.PebbleBackend.Get | state/pebble.go:177-192 | The stored value, if any |
| PebbleBackendModel.PebbleBackend.Set | state/pebble.go:194-204 | Changes one value and nothing else |
| PebbleBackendModel.PebbleBackend.Delete | state/pebble.go:206-216 | Removes one value and nothing else |
| PebbleBackendModel.PebbleBackend.ValueKeys | state/pebble.go:218-237 | The namespace's value keys |
| PebbleBackendModel.PebbleBackend.SnapshotAll | state/pebble.go:239-259 | The namespace's values |
| PebbleBackendModel.PebbleBackend.RestoreAll | state/pebble.go:261-277 | Replaces the namespace's values and nothing else |
| PebbleBackendModel.PebbleBackend.CheckpointTo | state/pebble.go:89-99 | A copy of everything stored |
| PebbleBackendModel.PebbleBackend.RestoreFrom | state/pebble.go:104-130 | Back to the copy, with no counter remembered |
| PebbleBackendModel.ScanIsList | state/pebble.go:343-353 | A scan of a list's prefix visits exactly its entries, in append order |
| PebbleKeys.ListPrefixOf | state/pebble.go:456-458 | With NUL-free names a list's prefix covers its own entries only |
| PebbleKeys.ValuePrefixOf | state/pebble.go:421-435 | A namespace's prefix covers its own values only, and the key is read back |
| PebbleKeys.ListKeyOrder | state/pebble.go:438-452 | Entry keys sort by sequence number |
| PebbleKeys.Layout | state/pebble.go:438-452 | The bytes of a value key and of a list entry key |
| PebbleKeys.NulCollides | state/pebble.go:377-381 | With a NUL in a key one list's prefix covers another list's entry |
| ByteOrder.PrefixUpperBound | state/pebble.go:485-497 | The bound covers exactly the keys with the prefix when some byte is below 0xff |
| ByteOrder.NoRoom | state/pebble.go:494-496 | Otherwise the bound misses keys |
| CoordinatorShutdown.ShutdownSafe | checkpoint/coordinator.go:115-141 | In every interleaving nothing is sent on the closed channel, each queued event commits at most once, and commits follow queue order |
| CoordinatorShutdown.NoneBeginsAfterHalt | checkpoint/coordinator.go:226-231 | After Halt the worker begins no checkpoint: at most the one it is saving is still committed |
| CoordinatorShutdown.SixteenFit | checkpoint/coordinator.go:108 | An open channel takes a send exactly while it holds fewer than 16 events |
| CoordinatorShutdown.CommitsOnceIff | checkpoint/coordinator.go:175-237 | No checkpoint is committed twice in any interleaving if and only if each is prepared by one call |
| CoordinatorShutdown.ShutdownProgress | checkpoint/coordinator.go:127-141 | Once Stop has begun some step is enabled until everything has returned |
| CoordinatorShutdown.StepDecreases | checkpoint/coordinator.go:115-198 | Every step brings the shutdown closer to its end |
| CoordinatorShutdown.ExecKeeps | checkpoint/coordinator.go:115-198 | The send group counts exactly the calls that may still send, in every reachable state |

## Left out

- The control plane, job agent, SDK, workflow parser, planner and metrics: orchestration and observability.
- The connectors and the Kafka wire scan behind the marker probe: the broker is a set of visible markers and a commit in flight.
- JSON, RFC 3339 and Pebble's storage engine: records are stored as values, a timestamp codec is any slash-free round trip, and the byte map is ordered by definition.
- The orphan sweep over the state directories of native checkpoints: a directory is discarded by an operation of its own.
- Reading errors and disk errors other than an unreadable file: a failed write of a save ends the save.
- Idle timeouts of windows, partitions and workers, hard cancellation and its timeouts: they depend on the wall clock.
- The uncoordinated checkpoint path and the two-source join's own offsets, for which the code promises no cut.
- Native join checkpoints: they use live source positions.
- Late side outputs: a late record leaves the window model's state unchanged.
- The in-memory backend's nested maps are the value `Memory`: aliasing of stored byte slices is not captured.
- KeyedStageProof.ParallelRefinesSequential: the workers keep every accumulator; workers that evict are `ReduceModel.WorkersEvict` and `ReduceStreams.WorkersUnpassed`.
- KeyedStageProof.StateLocal: of accumulators that are never evicted; an evicted one belongs to a window that has fired.
- ExactlyOnceLimits.ExactlyOnceIff: the operators are one stage with one state; the cut across parallel workers is `KeyedStageProof.ConsistentCut`.
- FileStorageModel.SurvivalIff: checkpoints of equal timestamp and sequence are excluded, because the code's sort leaves their order open.
- FileStorageModel.LoadAfterSaveIff: the same, and a save carries a status, as every save of the code does.
- CheckpointFiles.CrashSafeIff: a save that replaces a file carries the same timestamp, as a change of status does.
- ExactlyOnceRestore.MissingPartitionIff: a partition without a stored position resumes at 0; the code takes the configured start offset (source/kafka_partition_manager.go:139-143), and a consumer group the broker's (source/kafka.go:353-366).
- ExactlyOnceRestore.RestoreIff: the same jobs as for `RunIff`.
- ExactlyOnceRestore.FallBackIff: the same jobs as for `RunIff`.
- ExactlyOnceRestore.RunIff: jobs with records that produce no output, or with watermarks that move their state or produce output, are covered by `AsWrittenExactlyOnce` alone, because for them an older restore point can be right by accident.
- WatermarkSourceModel.EndToEnd: idleness is disabled, the single generator without partitions is left out, and a partition that first appears after a watermark is excluded rather than characterised.
- PebbleBackendModel.PebbleRefinesMemory: at most 2^64 - 2 operations, because the code lets the sequence number wrap.
- The graceful end of a run inside the exactly-once protocol, where a run ends by a crash at any step; stopping is `CoordinatorShutdown`.
- The sort inside a scan and the iteration order of the byte map are insertions into an ordered list, where the code calls library routines.
